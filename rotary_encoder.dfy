// The rotary encoder driver: the full-step Gray-code state machine fed by
// the pin interrupts, the events it queues for the display task, and the
// tick debounce of the push button.
module RotaryEncoder {
  import opened Wrappers
  import opened DisplayClock

  const TableRows := 7
  const TableCols := 4

  /** Direction bits of a state; DIR_NONE is no complete step yet. */
  const DirNone: bv8 := 0x00
  const DirCw: bv8 := 0x10
  const DirCcw: bv8 := 0x20

  /** The full-step states (FULLSTEP is defined). */
  const RStart: bv8 := 0x0
  const FCwFinal: bv8 := 0x1
  const FCwBegin: bv8 := 0x2
  const FCwNext: bv8 := 0x3
  const FCcwBegin: bv8 := 0x4
  const FCcwFinal: bv8 := 0x5
  const FCcwNext: bv8 := 0x6

  /** FreeRTOS ticks the debounce timer waits. */
  const DebounceTicks := 8
  /** TickType_t is a 32-bit counter. */
  const TickWrap := 0x1_0000_0000

  /** _ttable_full: rows are states, columns the pin code BA. */
  const FullTable: seq<seq<bv8>> := [
    [RStart, FCwBegin, FCcwBegin, RStart],
    [FCwNext, RStart, FCwFinal, RStart | DirCw],
    [FCwNext, FCwBegin, RStart, RStart],
    [FCwNext, FCwBegin, FCwFinal, RStart],
    [FCcwNext, RStart, FCcwBegin, RStart],
    [FCcwNext, FCcwFinal, RStart, RStart | DirCcw],
    [FCcwNext, FCcwFinal, FCcwBegin, RStart]
  ]

  /** A state whose low nibble picks a row of the table. */
  predicate ValidState(s: bv8) {
    (s & 0xf) as int < TableRows
  }

  /** The pin code: B in bit 1, A in bit 0. */
  function PinState(a: int, b: int): (p: int)
    requires 0 <= a <= 1 && 0 <= b <= 1
    ensures 0 <= p < TableCols
    ensures p % 2 == a && p / 2 == b
  {
    2 * b + a
  }

  /** The direction bits of a state. */
  function Event(s: bv8): (e: bv8)
    ensures e & 0xcf == 0
  {
    s & 0x30
  }

  /**
   * The state after reading pin code `p` in state `s`. Every entry is again
   * a valid state; the pins 11 always return to R_START; direction bits
   * appear only on that return, CW only from F_CW_FINAL and CCW only from
   * F_CCW_FINAL.
   */
  function Next(s: bv8, p: int): (r: bv8)
    requires ValidState(s) && 0 <= p < TableCols
    ensures ValidState(r)
    ensures p == 3 ==> r & 0xf == RStart
    ensures Event(r) == DirNone || Event(r) == DirCw || Event(r) == DirCcw
    ensures Event(r) == DirCw <==> s & 0xf == FCwFinal && p == 3
    ensures Event(r) == DirCcw <==> s & 0xf == FCcwFinal && p == 3
  {
    FullTable[(s & 0xf) as int][p]
  }

  /** What _isr_rotenc puts on the display queue for an event. */
  function EncoderSignal(e: bv8): (sig: Option<Signal>)
    ensures sig == Some(EncoderUp) <==> e == DirCw
    ensures sig == Some(EncoderDown) <==> e == DirCcw
    ensures sig.None? <==> e != DirCw && e != DirCcw
  {
    if e == DirCw then Some(EncoderUp)
    else if e == DirCcw then Some(EncoderDown)
    else None
  }

  /** vTimerCallbackKeyPress: the switch pin reads low while pressed. */
  function KeySignal(level: int): (sig: Signal)
    ensures sig == EncoderPress <==> level == 0
    ensures sig == EncoderPressReleased <==> level != 0
  {
    if level != 0 then EncoderPressReleased else EncoderPress
  }

  /** A sequence of pin codes, each from 0 to 3. */
  predicate PinCodes(ps: seq<int>) {
    forall i :: 0 <= i < |ps| ==> 0 <= ps[i] < TableCols
  }

  /** The final state and the event of every step, for pin codes read in order. */
  function Steps(s: bv8, ps: seq<int>): (r: (bv8, seq<bv8>))
    requires ValidState(s) && PinCodes(ps)
    ensures ValidState(r.0) && |r.1| == |ps|
    decreases |ps|
  {
    if ps == [] then (s, [])
    else
      var t := Next(s, ps[0]);
      var rest := Steps(t, ps[1..]);
      (rest.0, [Event(t)] + rest.1)
  }

  /** Running two sequences of pin codes one after the other. */
  lemma {:induction false} StepsAppend(s: bv8, ps: seq<int>, qs: seq<int>)
    requires ValidState(s) && PinCodes(ps) && PinCodes(qs)
    ensures PinCodes(ps + qs)
    ensures var first := Steps(s, ps);
      Steps(s, ps + qs) == (Steps(first.0, qs).0, first.1 + Steps(first.0, qs).1)
    decreases |ps|
  {
    assert PinCodes(ps + qs);
    if ps != [] {
      assert (ps + qs)[0] == ps[0];
      assert (ps + qs)[1..] == ps[1..] + qs;
      var t := Next(s, ps[0]);
      StepsAppend(t, ps[1..], qs);
      var mid := Steps(t, ps[1..]).0;
      assert Steps(s, ps + qs).1 == [Event(t)] + (Steps(t, ps[1..]).1 + Steps(mid, qs).1);
      ConcatAssoc([Event(t)], Steps(t, ps[1..]).1, Steps(mid, qs).1);
    } else {
      assert ps + qs == qs;
      assert [] + Steps(s, qs).1 == Steps(s, qs).1;
    }
  }

  /** One click clockwise from rest, and one anticlockwise: pin codes BA. */
  const CwClick: seq<int> := [1, 0, 2, 3]
  const CcwClick: seq<int> := [2, 0, 1, 3]

  function Repeat<T>(xs: seq<T>, n: nat): (r: seq<T>)
    ensures |r| == n * |xs|
  {
    if n == 0 then [] else xs + Repeat(xs, n - 1)
  }

  lemma {:induction false} RepeatPinCodes(xs: seq<int>, n: nat)
    requires PinCodes(xs)
    ensures PinCodes(Repeat(xs, n))
  {
    if n > 0 {
      RepeatPinCodes(xs, n - 1);
      assert PinCodes(xs + Repeat(xs, n - 1));
    }
  }

  /** One clockwise click from rest, step by step. */
  lemma CwClickSteps(s: bv8)
    requires s & 0xf == RStart
    ensures PinCodes(CwClick)
    ensures Steps(s, CwClick) == (RStart | DirCw, [DirNone, DirNone, DirNone, DirCw])
  {
    assert Steps(FCwFinal, [3]) == (RStart | DirCw, [DirCw]) by { assert [3][1..] == []; assert [DirCw] + [] == [DirCw]; }
    assert Steps(FCwNext, [2, 3]) == (RStart | DirCw, [DirNone, DirCw]) by { assert [DirNone] + [DirCw] == [DirNone, DirCw]; assert [2, 3][1..] == [3]; }
    assert Steps(FCwBegin, [0, 2, 3]) == (RStart | DirCw, [DirNone, DirNone, DirCw]) by { assert [DirNone] + [DirNone, DirCw] == [DirNone, DirNone, DirCw]; assert [0, 2, 3][1..] == [2, 3]; }
    assert Steps(s, CwClick) == (RStart | DirCw, [DirNone, DirNone, DirNone, DirCw]) by { assert [DirNone] + [DirNone, DirNone, DirCw] == [DirNone, DirNone, DirNone, DirCw]; assert CwClick[1..] == [0, 2, 3]; }
  }

  /**
   * n clockwise clicks from rest give exactly n DIR_CW events, one at the
   * last step of each click, and leave the machine at R_START with the CW
   * bit still set in table_state.
   */
  lemma {:induction false} ClockwiseClicks(s: bv8, n: nat)
    requires s & 0xf == RStart
    ensures PinCodes(Repeat(CwClick, n))
    ensures Steps(s, Repeat(CwClick, n)) == (if n == 0 then s else RStart | DirCw, Repeat([DirNone, DirNone, DirNone, DirCw], n))
    decreases n
  {
    RepeatPinCodes(CwClick, n);
    if n > 0 {
      ClockwiseClicks(RStart | DirCw, n - 1);
      StepsAppend(s, CwClick, Repeat(CwClick, n - 1));
      CwClickSteps(s);
    }
  }

  /** One anticlockwise click from rest, step by step. */
  lemma CcwClickSteps(s: bv8)
    requires s & 0xf == RStart
    ensures PinCodes(CcwClick)
    ensures Steps(s, CcwClick) == (RStart | DirCcw, [DirNone, DirNone, DirNone, DirCcw])
  {
    assert Steps(FCcwFinal, [3]) == (RStart | DirCcw, [DirCcw]) by { assert [3][1..] == []; assert [DirCcw] + [] == [DirCcw]; }
    assert Steps(FCcwNext, [1, 3]) == (RStart | DirCcw, [DirNone, DirCcw]) by { assert [DirNone] + [DirCcw] == [DirNone, DirCcw]; assert [1, 3][1..] == [3]; }
    assert Steps(FCcwBegin, [0, 1, 3]) == (RStart | DirCcw, [DirNone, DirNone, DirCcw]) by { assert [DirNone] + [DirNone, DirCcw] == [DirNone, DirNone, DirCcw]; assert [0, 1, 3][1..] == [1, 3]; }
    assert Steps(s, CcwClick) == (RStart | DirCcw, [DirNone, DirNone, DirNone, DirCcw]) by { assert [DirNone] + [DirNone, DirNone, DirCcw] == [DirNone, DirNone, DirNone, DirCcw]; assert CcwClick[1..] == [0, 1, 3]; }
  }

  /** n anticlockwise clicks from rest give exactly n DIR_CCW events, one per click. */
  lemma {:induction false} AnticlockwiseClicks(s: bv8, n: nat)
    requires s & 0xf == RStart
    ensures PinCodes(Repeat(CcwClick, n))
    ensures Steps(s, Repeat(CcwClick, n)) == (if n == 0 then s else RStart | DirCcw, Repeat([DirNone, DirNone, DirNone, DirCcw], n))
    decreases n
  {
    RepeatPinCodes(CcwClick, n);
    if n > 0 {
      AnticlockwiseClicks(RStart | DirCcw, n - 1);
      StepsAppend(s, CcwClick, Repeat(CcwClick, n - 1));
      CcwClickSteps(s);
    }
  }

  /** Contact bounce that never reaches the pins 11 emits no event. */
  lemma {:induction false} BounceIsSilent(s: bv8, ps: seq<int>)
    requires ValidState(s) && PinCodes(ps)
    requires forall i :: 0 <= i < |ps| ==> ps[i] != 3
    ensures forall i :: 0 <= i < |ps| ==> Steps(s, ps).1[i] == DirNone
    decreases |ps|
  {
    if ps != [] {
      BounceIsSilent(Next(s, ps[0]), ps[1..]);
      assert forall i :: 1 <= i < |ps| ==> ps[1..][i - 1] == ps[i];
    }
  }

  /**
   * The push-button interrupt as written: the sum last_tick +
   * DEBOUNCE_TICKS + 2 is taken in 32-bit ticks, then last_tick follows a
   * start and is pulled back when the counter wrapped. Returns whether the
   * debounce timer is started, and the new last_tick.
   */
  function PushAsWritten(last: int, current: int): (r: (bool, int))
    requires 0 <= last < TickWrap && 0 <= current < TickWrap
    ensures 0 <= r.1 < TickWrap
    ensures r.0 <==> current > (last + DebounceTicks + 2) % TickWrap
    ensures r.1 == (if r.0 || current < last then current else last)
  {
    var start := current > (last + DebounceTicks + 2) % TickWrap;
    var last' := if start then current else last;
    (start, if current < last' then current else last')
  }

  /**
   * The push-button interrupt with the ticks since last_tick taken modulo
   * 2^32, so that the window survives the counter wrapping.
   */
  function Push(last: int, current: int): (r: (bool, int))
    requires 0 <= last < TickWrap && 0 <= current < TickWrap
    ensures 0 <= r.1 < TickWrap
    ensures r.0 <==> (current - last) % TickWrap > DebounceTicks + 2
    ensures r.1 == (if r.0 || current < last then current else last)
  {
    var start := (current - last) % TickWrap > DebounceTicks + 2;
    var last' := if start then current else last;
    (start, if current < last' then current else last')
  }

  /** The debounce decisions for interrupts at the given absolute tick times. */
  function PushRun(last: int, times: seq<int>, asWritten: bool): (starts: seq<bool>)
    requires 0 <= last < TickWrap
    ensures |starts| == |times|
    decreases |times|
  {
    if times == [] then []
    else
      var r := if asWritten then PushAsWritten(last, times[0] % TickWrap) else Push(last, times[0] % TickWrap);
      [r.0] + PushRun(r.1, times[1..], asWritten)
  }

  predicate Increasing(times: seq<int>) {
    forall i, j :: 0 <= i < j < |times| ==> times[i] < times[j]
  }

  /**
   * Within any span shorter than the tick counter's period that starts at
   * the tick `base` last_tick stands for, two starts of the debounce timer
   * are more than DEBOUNCE_TICKS + 2 ticks apart, and the first is more
   * than that after `base`, also across the counter's wrap.
   */
  lemma {:induction false} PushDebounces(last: int, base: int, times: seq<int>)
    requires 0 <= last < TickWrap && last == base % TickWrap
    requires Increasing(times)
    requires forall i :: 0 <= i < |times| ==> base <= times[i] < base + TickWrap
    ensures forall i :: 0 <= i < |times| && PushRun(last, times, false)[i] ==> times[i] - base > DebounceTicks + 2
    ensures forall i, j :: 0 <= i < j < |times| && PushRun(last, times, false)[i] && PushRun(last, times, false)[j] ==>
      times[j] - times[i] > DebounceTicks + 2
    decreases |times|
  {
    if times != [] {
      var t := times[0];
      var r := Push(last, t % TickWrap);
      var base' := if r.0 || t % TickWrap < last then t else base;
      PushStep(last, base, t);
      var rest := times[1..];
      assert forall i :: 0 <= i < |rest| ==> rest[i] == times[i + 1];
      PushDebounces(r.1, base', rest);
      var starts := PushRun(last, times, false);
      assert starts == [r.0] + PushRun(r.1, rest, false);
      forall i | 0 <= i < |times| && starts[i]
        ensures times[i] - base > DebounceTicks + 2
      {
        if i > 0 {
          assert PushRun(r.1, rest, false)[i - 1];
        }
      }
      forall i, j | 0 <= i < j < |times| && starts[i] && starts[j]
        ensures times[j] - times[i] > DebounceTicks + 2
      {
        assert PushRun(r.1, rest, false)[j - 1];
        if i > 0 {
          assert PushRun(r.1, rest, false)[i - 1];
        }
      }
    }
  }

  /** One interrupt of PushDebounces: a start lies more than the window after `base`, which moves to it. */
  lemma PushStep(last: int, base: int, t: int)
    requires 0 <= last < TickWrap && last == base % TickWrap && base <= t < base + TickWrap
    ensures var r := Push(last, t % TickWrap);
      && (r.0 ==> t - base > DebounceTicks + 2)
      && r.1 == (if r.0 || t % TickWrap < last then t else base) % TickWrap
  {
    assert (t % TickWrap - last) % TickWrap == t - base;
  }

  /**
   * As written, a press just before the tick counter wraps starts the timer
   * and a bounce one tick later starts it again: last_tick +
   * DEBOUNCE_TICKS + 2 has wrapped to a small number.
   */
  lemma BounceNearWrapRestarts()
    ensures PushRun(0, [TickWrap - 6, TickWrap - 5], true) == [true, true]
    ensures PushRun(0, [TickWrap - 6, TickWrap - 5], false) == [true, false]
  {
  }

  /** The driver state: info.table_state and the interrupt's static last_tick. */
  class Encoder {
    var tableState: bv8
    var lastTick: int

    ghost predicate Valid()
      reads this
    {
      ValidState(tableState) && 0 <= lastTick < TickWrap
    }

    /** rotary_encoder_init: the state machine at R_START; last_tick is a zeroed static. */
    constructor ()
      ensures Valid() && tableState == RStart && lastTick == 0
    {
      tableState := RStart;
      lastTick := 0;
    }

    /** _process: one table lookup with the pins read now, returning the direction bits. */
    method Process(a: int, b: int) returns (event: bv8)
      requires Valid() && 0 <= a <= 1 && 0 <= b <= 1
      modifies this
      ensures Valid() && lastTick == old(lastTick)
      ensures tableState == Next(old(tableState), PinState(a, b))
      ensures event == Event(tableState)
    {
      var pinState := PinState(a, b);
      tableState := FullTable[(tableState & 0xf) as int][pinState];
      event := tableState & 0x30;
    }

    /** _isr_rotenc: what is queued to the display task for one pin edge. */
    method IsrRotenc(a: int, b: int) returns (queued: seq<Signal>)
      requires Valid() && 0 <= a <= 1 && 0 <= b <= 1
      modifies this
      ensures Valid() && lastTick == old(lastTick)
      ensures tableState == Next(old(tableState), PinState(a, b))
      ensures queued == (if EncoderSignal(Event(tableState)).Some? then [EncoderSignal(Event(tableState)).value] else [])
    {
      var event := Process(a, b);
      if event == DirCw {
        queued := [EncoderUp];
      } else if event == DirCcw {
        queued := [EncoderDown];
      } else {
        queued := [];
      }
    }

    /** _isr_rotpush at tick `currentTick`: whether the debounce timer is started. */
    method IsrRotpush(currentTick: int) returns (startTimer: bool)
      requires Valid() && 0 <= currentTick < TickWrap
      modifies this
      ensures Valid() && tableState == old(tableState)
      ensures (startTimer, lastTick) == Push(old(lastTick), currentTick)
    {
      startTimer := (currentTick - lastTick) % TickWrap > DebounceTicks + 2;
      if startTimer {
        lastTick := currentTick;
      }
      if currentTick < lastTick {
        lastTick := currentTick;
      }
    }
  }
}
