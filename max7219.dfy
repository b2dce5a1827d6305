// The MAX7219 dot-matrix driver: a 32-column display buffer, one byte per
// column, filled from an 8x8 font and sent column register by column
// register to the four daisy-chained chips through an 8-byte send buffer.
// The font table is a parameter, and every SPI transfer is recorded as the
// eight bytes it carried.
module Max7219 {
  const Count := 4
  const Columns := 8
  const TotColumns := Count * Columns
  const AlignLeft := 1
  const AlignRight := 2
  const AlignMiddle := 4
  const MaxBright := 15
  const RegBright := 0x0a

  /** font_8x8: 128 glyphs, each a width 0..8 followed by eight column bytes. */
  predicate ValidFont(font: seq<seq<int>>) {
    |font| == 128 && forall c :: 0 <= c < 128 ==> ValidGlyph(font[c])
  }

  predicate ValidGlyph(g: seq<int>) {
    |g| == 9 && 0 <= g[0] <= 8 && forall y :: 1 <= y < 9 ==> 0 <= g[y] < 256
  }

  /** A C string without its terminator: bytes 1..255. */
  predicate ValidText(text: seq<int>) {
    forall i :: 0 <= i < |text| ==> 0 < text[i] < 256
  }

  predicate Ascii(text: seq<int>) {
    forall i :: 0 <= i < |text| ==> text[i] < 128
  }

  /** The byte as `uint8_t`. */
  function U8(x: int): (b: int)
    ensures 0 <= b < 256
  {
    x % 256
  }

  /** The sum of the glyph widths of an ASCII text. */
  function Widths(font: seq<seq<int>>, text: seq<int>): (w: int)
    requires ValidFont(font) && ValidText(text) && Ascii(text)
    ensures 0 <= w <= 8 * |text|
  {
    if text == [] then 0 else font[text[0]][0] + Widths(font, text[1..])
  }

  lemma {:induction false} WidthsSnoc(font: seq<seq<int>>, text: seq<int>, i: nat)
    requires ValidFont(font) && ValidText(text) && i < |text| && Ascii(text[..i + 1])
    ensures Widths(font, text[..i + 1]) == Widths(font, text[..i]) + font[text[i]][0]
    decreases i
  {
    if i > 0 {
      assert text[..i + 1][1..] == text[1..][..i];
      assert text[..i][1..] == text[1..][..i - 1];
      WidthsSnoc(font, text[1..], i - 1);
    }
  }

  /** The columns a text needs: glyph widths plus one space between glyphs, and 0 for a non-ASCII text. */
  function SpriteLength(font: seq<seq<int>>, text: seq<int>): (cols: int)
    requires ValidFont(font) && ValidText(text)
    ensures 0 <= cols <= 9 * |text|
  {
    if Ascii(text) then Widths(font, text) + (if text == [] then 0 else |text| - 1) else 0
  }

  /** max7219_sprite_get_length: the glyph widths summed with the spacing, stopping at a non-ASCII byte. */
  method SpriteGetLength(font: seq<seq<int>>, text: seq<int>) returns (cols: int)
    requires ValidFont(font) && ValidText(text)
    ensures cols == SpriteLength(font, text)
  {
    cols := 0;
    var i := 0;
    while i < |text|
      invariant 0 <= i <= |text| && Ascii(text[..i])
      invariant cols == Widths(font, text[..i]) + (if i == 0 then 0 else if i < |text| then i else i - 1)
    {
      if text[i] > 127 {
        return 0;
      }
      assert Ascii(text[..i + 1]);
      WidthsSnoc(font, text, i);
      cols := cols + font[text[i]][0];
      if i < |text| - 1 {
        cols := cols + 1;
      }
      i := i + 1;
    }
    assert text[..i] == text;
  }

  /** The buffer with the first k columns of a glyph written from column p on, clipped to 0..31. */
  function Paint(buf: seq<int>, glyph: seq<int>, p: int, k: int): (r: seq<int>)
    requires |buf| == TotColumns && ValidGlyph(glyph) && 0 <= k <= 8
    ensures |r| == TotColumns
  {
    seq(TotColumns, i requires 0 <= i < TotColumns => if p <= i < p + k then glyph[i - p + 1] else buf[i])
  }

  /** The buffer after the glyphs of the text are written from column p on, up to the first non-ASCII byte. */
  function Filled(font: seq<seq<int>>, buf: seq<int>, text: seq<int>, p: int): (r: seq<int>)
    requires ValidFont(font) && ValidText(text) && |buf| == TotColumns
    ensures |r| == TotColumns
    decreases |text|
  {
    if text == [] || text[0] >= 128 then buf
    else
      var g := font[text[0]];
      Filled(font, Paint(buf, g, p, g[0]), text[1..], p + g[0] + 1)
  }

  /** Columns left of the text are never written. */
  lemma {:induction false} FilledLeftUntouched(font: seq<seq<int>>, buf: seq<int>, text: seq<int>, p: int, i: int)
    requires ValidFont(font) && ValidText(text) && |buf| == TotColumns
    requires 0 <= i < TotColumns && i < p
    ensures Filled(font, buf, text, p)[i] == buf[i]
    decreases |text|
  {
    if text != [] && text[0] < 128 {
      var g := font[text[0]];
      FilledLeftUntouched(font, Paint(buf, g, p, g[0]), text[1..], p + g[0] + 1, i);
    }
  }

  /** Columns at or right of the end of an ASCII text are never written. */
  lemma {:induction false} FilledRightUntouched(font: seq<seq<int>>, buf: seq<int>, text: seq<int>, p: int, i: int)
    requires ValidFont(font) && ValidText(text) && Ascii(text) && |buf| == TotColumns
    requires 0 <= i < TotColumns && i >= p + SpriteLength(font, text)
    ensures Filled(font, buf, text, p)[i] == buf[i]
    decreases |text|
  {
    if text != [] {
      var g := font[text[0]];
      assert Ascii(text[1..]);
      if text[1..] != [] {
        FilledRightUntouched(font, Paint(buf, g, p, g[0]), text[1..], p + g[0] + 1, i);
      }
    }
  }

  /** Where glyph k of the text starts: the widths before it and one space after each. */
  function GlyphStart(font: seq<seq<int>>, text: seq<int>, p: int, k: nat): int
    requires ValidFont(font) && ValidText(text) && k <= |text| && Ascii(text[..k])
  {
    p + Widths(font, text[..k]) + k
  }

  /** Every column of every glyph of an ASCII text that falls on the display shows that glyph's column byte. */
  lemma {:induction false} FilledShowsGlyphs(font: seq<seq<int>>, buf: seq<int>, text: seq<int>, p: int, k: nat, j: int)
    requires ValidFont(font) && ValidText(text) && Ascii(text) && |buf| == TotColumns
    requires k < |text| && 0 <= j < font[text[k]][0]
    requires 0 <= GlyphStart(font, text, p, k) + j < TotColumns
    ensures Filled(font, buf, text, p)[GlyphStart(font, text, p, k) + j] == font[text[k]][j + 1]
    decreases |text|
  {
    var g := font[text[0]];
    var painted := Paint(buf, g, p, g[0]);
    assert Ascii(text[1..]);
    if k == 0 {
      assert text[..0] == [];
      FilledLeftUntouched(font, painted, text[1..], p + g[0] + 1, p + j);
    } else {
      assert text[..k][1..] == text[1..][..k - 1];
      assert GlyphStart(font, text, p, k) == GlyphStart(font, text[1..], p + g[0] + 1, k - 1);
      FilledShowsGlyphs(font, painted, text[1..], p + g[0] + 1, k - 1, j);
    }
  }

  /** A non-ASCII byte ends the drawing: what follows it is never drawn. */
  lemma {:induction false} FilledStopsAtNonAscii(font: seq<seq<int>>, buf: seq<int>, text: seq<int>, p: int, k: nat)
    requires ValidFont(font) && ValidText(text) && |buf| == TotColumns
    requires k < |text| && text[k] >= 128
    ensures Filled(font, buf, text, p) == Filled(font, buf, text[..k], p)
    decreases k
  {
    if k > 0 && text[0] < 128 {
      var g := font[text[0]];
      assert text[..k][1..] == text[1..][..k - 1];
      FilledStopsAtNonAscii(font, Paint(buf, g, p, g[0]), text[1..], p + g[0] + 1, k - 1);
    }
  }

  /** The cleared range: from max(0, offset) to the end clipped at 32, none when the end is negative. */
  function ClearEnd(offset: int, length: int): int
    requires -0x8000_0000 <= offset < 0x8000_0000 && 0 <= length < 0x1_0000_0000
  {
    var sum := (offset + length) % 0x1_0000_0000;
    var end := if sum >= 0x8000_0000 then sum - 0x1_0000_0000 else sum;
    if end > TotColumns then TotColumns else end
  }

  /** The frames send_command transmits: after k of them, the first k chip slots hold (reg, value). */
  function CommandFrame(prev: seq<int>, reg: int, value: int, k: int): (f: seq<int>)
    requires |prev| == 2 * Count
    ensures |f| == 2 * Count
  {
    seq(2 * Count, i requires 0 <= i < 2 * Count => if i < 2 * k then (if i % 2 == 0 then reg else value) else prev[i])
  }

  /** Frame c of send_display: slot k addresses column register c + 1 with the column of chip 3 - k. */
  function DisplayFrame(buf: seq<int>, c: int): (f: seq<int>)
    requires |buf| == TotColumns && 0 <= c < Columns
    ensures |f| == 2 * Count
  {
    seq(2 * Count, i requires 0 <= i < 2 * Count =>
      if i % 2 == 0 then c + 1 else buf[(Count - 1 - i / 2) * Columns + c])
  }

  /** The eight frames of send_display, in column register order. */
  function DisplayFrames(buf: seq<int>): (fs: seq<seq<int>>)
    requires |buf| == TotColumns
    ensures |fs| == Columns
  {
    seq(Columns, c requires 0 <= c < Columns => DisplayFrame(buf, c))
  }

  /** Every display column is carried exactly by the frame of its column register, in the slot of its chip. */
  lemma DisplayFramesCarryColumns(buf: seq<int>, j: int)
    requires |buf| == TotColumns && 0 <= j < TotColumns
    ensures var f := DisplayFrame(buf, j % Columns);
      f[2 * (Count - 1 - j / Columns)] == j % Columns + 1 && f[2 * (Count - 1 - j / Columns) + 1] == buf[j]
  {
    var k := Count - 1 - j / Columns;
    assert (2 * k + 1) / 2 == k && (2 * k + 1) % 2 == 1;
    assert (Count - 1 - k) * Columns + j % Columns == j;
  }

  /** The left, middle or right shift of a text `cols` wide; 0 when it does not fit. */
  function AlignShift(cols: int, align: int): int {
    if align == AlignRight && cols <= TotColumns then TotColumns - cols
    else if align == AlignMiddle && cols <= TotColumns then (TotColumns - cols) / 2
    else 0
  }

  /** A fitting text stays on the display: right-aligned it ends at the last column, centred its margins differ by at most one. */
  lemma AlignedTextFits(cols: int, align: int)
    requires 0 <= cols <= TotColumns
    ensures 0 <= AlignShift(cols, align) && AlignShift(cols, align) + cols <= TotColumns
    ensures align == AlignRight ==> AlignShift(cols, align) + cols == TotColumns
    ensures align == AlignMiddle ==>
      0 <= (TotColumns - cols - AlignShift(cols, align)) - AlignShift(cols, align) <= 1
    ensures align != AlignRight && align != AlignMiddle ==> AlignShift(cols, align) == 0
  {
  }

  function Zeros(): (z: seq<int>)
    ensures |z| == TotColumns && forall i :: 0 <= i < TotColumns ==> z[i] == 0
  {
    seq(TotColumns, i => 0)
  }

  class Display {
    const displayBuffer: array<int>
    const sendBuffer: array<int>
    /** The eight bytes of every SPI transfer so far. */
    var sent: seq<seq<int>>

    ghost predicate Valid()
      reads this
    {
      displayBuffer.Length == TotColumns && sendBuffer.Length == 2 * Count && displayBuffer != sendBuffer
    }

    constructor()
      ensures Valid() && fresh(displayBuffer) && fresh(sendBuffer) && sent == []
      ensures displayBuffer[..] == Zeros() && sendBuffer[..] == seq(2 * Count, i => 0)
    {
      displayBuffer := new int[TotColumns](i => 0);
      sendBuffer := new int[2 * Count](i => 0);
      sent := [];
    }

    /** max7219_send_buffer: one transfer of the whole send buffer. */
    method SendBuffer()
      requires Valid()
      modifies this
      ensures sent == old(sent) + [sendBuffer[..]]
    {
      sent := sent + [sendBuffer[..]];
    }

    /** max7219_send_command: the same register and value for each chip, a transfer after each slot is set. */
    method SendCommand(reg: int, value: int)
      requires Valid() && 0 <= reg < 256 && 0 <= value < 256
      modifies this, sendBuffer
      ensures sendBuffer[..] == CommandFrame(old(sendBuffer[..]), reg, value, Count)
      ensures sent == old(sent) + seq(Count, k requires 0 <= k < Count => CommandFrame(old(sendBuffer[..]), reg, value, k + 1))
      ensures forall i :: 0 <= i < Count ==> sendBuffer[2 * i] == reg && sendBuffer[2 * i + 1] == value
    {
      ghost var b0 := sendBuffer[..];
      var slot := 0;
      while slot < Count * 2
        invariant slot % 2 == 0 && 0 <= slot <= 2 * Count
        invariant sendBuffer[..] == CommandFrame(b0, reg, value, slot / 2)
        invariant sent == old(sent) + seq(slot / 2, k requires 0 <= k < slot / 2 => CommandFrame(b0, reg, value, k + 1))
      {
        sendBuffer[slot] := reg;
        sendBuffer[slot + 1] := value;
        assert sendBuffer[..] == CommandFrame(b0, reg, value, slot / 2 + 1);
        SendBuffer();
        slot := slot + 2;
      }
      forall i | 0 <= i < Count
        ensures sendBuffer[2 * i] == reg && sendBuffer[2 * i + 1] == value
      {
        assert (2 * i + 1) % 2 == 1;
      }
    }

    /** max7219_set_brightness: values above 15 are ignored, others go to the intensity register. */
    method SetBrightness(brightness: int)
      requires Valid()
      modifies this, sendBuffer
      ensures brightness > MaxBright ==> sent == old(sent) && sendBuffer[..] == old(sendBuffer[..])
      ensures brightness <= MaxBright ==>
        sent == old(sent) + seq(Count, k requires 0 <= k < Count => CommandFrame(old(sendBuffer[..]), RegBright, U8(brightness), k + 1))
    {
      if brightness > MaxBright {
        return;
      }
      SendCommand(RegBright, U8(brightness));
    }

    /** max7219_sprite_clear_buffer: zeroes the columns from max(0, offset) to the clipped end. */
    method SpriteClearBuffer(offset: int, length: int)
      requires Valid() && -0x8000_0000 <= offset < 0x8000_0000 && 0 <= length < 0x1_0000_0000
      modifies displayBuffer
      ensures forall i :: 0 <= i < TotColumns ==>
        displayBuffer[i] == (if offset <= i < ClearEnd(offset, length) then 0 else old(displayBuffer[i]))
    {
      var end := ClearEnd(offset, length);
      if end < 0 {
        return;
      }
      var x := if offset < 0 then 0 else offset;
      while x < end
        invariant (if offset < 0 then 0 else offset) <= x
        invariant x <= end || x == offset
        invariant forall i :: 0 <= i < TotColumns ==>
          displayBuffer[i] == (if offset <= i < x && i < end then 0 else old(displayBuffer[i]))
      {
        displayBuffer[x] := 0;
        x := x + 1;
      }
    }

    /** The columns of one glyph, clipped to the display. */
    method PaintGlyph(glyph: seq<int>, p: int) returns (position: int)
      requires Valid() && ValidGlyph(glyph)
      modifies displayBuffer
      ensures displayBuffer[..] == Paint(old(displayBuffer[..]), glyph, p, glyph[0])
      ensures position == p + glyph[0]
    {
      ghost var b0 := displayBuffer[..];
      position := p;
      var y := 1;
      while y <= glyph[0]
        invariant 1 <= y <= glyph[0] + 1 && position == p + y - 1
        invariant displayBuffer[..] == Paint(b0, glyph, p, y - 1)
      {
        if 0 <= position < TotColumns {
          displayBuffer[position] := glyph[y];
        }
        assert displayBuffer[..] == Paint(b0, glyph, p, y);
        position := position + 1;
        y := y + 1;
      }
    }

    /** max7219_sprite_fill_buffer: the glyphs from `position` on, each followed by a blank column. */
    method SpriteFillBuffer(font: seq<seq<int>>, text: seq<int>, position: int)
      requires Valid() && ValidFont(font) && ValidText(text)
      modifies displayBuffer
      ensures displayBuffer[..] == Filled(font, old(displayBuffer[..]), text, position)
    {
      var p := position;
      var x := 0;
      while x < |text|
        invariant 0 <= x <= |text|
        invariant Filled(font, displayBuffer[..], text[x..], p) == Filled(font, old(displayBuffer[..]), text, position)
      {
        if text[x] < 128 {
          var g := font[text[x]];
          assert text[x..][1..] == text[x + 1..];
          p := PaintGlyph(g, p);
          p := p + 1;
        } else {
          return;
        }
        x := x + 1;
      }
    }

    /** max7219_send_display without rotation: eight transfers, one per column register. */
    method SendDisplay()
      requires Valid()
      modifies this, sendBuffer
      ensures sent == old(sent) + DisplayFrames(displayBuffer[..])
    {
      var col := 0;
      while col < Columns
        invariant 0 <= col <= Columns
        invariant sent == old(sent) + DisplayFrames(displayBuffer[..])[..col]
      {
        var chip := 0;
        while chip < Count
          invariant 0 <= chip <= Count
          invariant sent == old(sent) + DisplayFrames(displayBuffer[..])[..col]
          invariant forall i :: 0 <= i < 2 * chip ==> sendBuffer[i] == DisplayFrame(displayBuffer[..], col)[i]
        {
          sendBuffer[chip * 2] := col + 1;
          sendBuffer[chip * 2 + 1] := displayBuffer[(Count - 1 - chip) * Columns + col];
          chip := chip + 1;
        }
        assert sendBuffer[..] == DisplayFrame(displayBuffer[..], col);
        SendBuffer();
        assert DisplayFrames(displayBuffer[..])[..col + 1] == DisplayFrames(displayBuffer[..])[..col] + [DisplayFrame(displayBuffer[..], col)];
        col := col + 1;
      }
      assert DisplayFrames(displayBuffer[..])[..Columns] == DisplayFrames(displayBuffer[..]);
    }

    /** max7219_fill_display_buffer: clear, draw the text aligned, send. */
    method FillDisplayBuffer(font: seq<seq<int>>, text: seq<int>, align: int)
      requires Valid() && ValidFont(font) && ValidText(text)
      modifies this, displayBuffer, sendBuffer
      ensures displayBuffer[..] == Filled(font, Zeros(), text, AlignShift(SpriteLength(font, text), align))
      ensures sent == old(sent) + DisplayFrames(displayBuffer[..])
    {
      var cols := SpriteGetLength(font, text);
      var shift := 0;
      if align == AlignMiddle && cols <= TotColumns {
        shift := (TotColumns - cols) / 2;
      }
      if align == AlignRight && cols <= TotColumns {
        shift := TotColumns - cols;
      }
      SpriteClearBuffer(0, TotColumns);
      assert displayBuffer[..] == Zeros();
      SpriteFillBuffer(font, text, shift);
      SendDisplay();
    }
  }
}
