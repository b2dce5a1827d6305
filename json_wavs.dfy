// The WavList request: the sound files of /www, listed by their short
// name, the entry name cut at its first ".wav".
module JsonWavs {
  import opened Wrappers
  import opened Json

  const WavSuffix := ".wav"

  /** ".wav" starts at index k of s. */
  predicate WavAt(s: string, k: int) {
    0 <= k && k + 4 <= |s| && s[k] == '.' && s[k + 1] == 'w' && s[k + 2] == 'a' && s[k + 3] == 'v'
  }

  /** strstr(s + from, ".wav"): the first index from `from` on where ".wav" starts. */
  function FindWav(s: string, from: nat): (r: Option<nat>)
    ensures r.Some? ==> from <= r.value && WavAt(s, r.value)
    ensures r.Some? ==> forall k :: from <= k < r.value ==> !WavAt(s, k)
    ensures r.None? ==> forall k :: from <= k ==> !WavAt(s, k)
    decreases |s| - from
  {
    if from + 4 > |s| then None
    else if WavAt(s, from) then Some(from)
    else FindWav(s, from + 1)
  }

  /** The short name shown for a directory entry, if it names a wav file. */
  function WavName(entry: string): (name: Option<string>)
    ensures name.Some? <==> exists k :: WavAt(entry, k)
    ensures name.Some? ==> |name.value| + 4 <= |entry| && entry[..|name.value| + 4] == name.value + WavSuffix
  {
    var i := FindWav(entry, 0);
    if i.None? then None
    else
      assert entry[..i.value + 4] == entry[..i.value] + WavSuffix;
      Some(entry[..i.value])
  }

  /** The names listed for directory entries read in order. */
  function WavNames(entries: seq<string>): (names: seq<string>)
    ensures |names| <= |entries|
  {
    if entries == [] then []
    else
      var last := entries[|entries| - 1];
      var front := WavNames(entries[..|entries| - 1]);
      if WavName(last).Some? then front + [WavName(last).value] else front
  }

  /** The array item for one short name. */
  function WavItem(name: string): (item: Json)
    ensures StringOf(Item(item, "wavsound")) == Some(name)
  {
    Object([Member("wavsound", Str(name))])
  }

  /** The array items for the listed names, in order. */
  function WavItems(names: seq<string>): (items: seq<Json>)
    ensures |items| == |names|
    ensures forall i :: 0 <= i < |names| ==> items[i] == WavItem(names[i])
  {
    if names == [] then [] else WavItems(names[..|names| - 1]) + [WavItem(names[|names| - 1])]
  }

  /**
   * json_wav_list over the entries of /www in readdir order; `opens` is
   * whether opendir succeeds. On success the reply object gains the member
   * "wavs" holding one object per wav file, in directory order; when the
   * directory cannot be opened the code is 400 and nothing is added.
   */
  method WavList(opens: bool, entries: seq<string>) returns (code: int, added: seq<Member>)
    ensures !opens ==> code == 400 && added == []
    ensures opens ==> code == 0 && added == [Member("wavs", Array(WavItems(WavNames(entries))))]
  {
    if !opens {
      return 400, [];
    }
    var items: seq<Json> := [];
    ghost var names: seq<string> := [];
    var n := 0;
    while n < |entries|
      invariant 0 <= n <= |entries|
      invariant names == WavNames(entries[..n])
      invariant items == WavItems(names)
    {
      var wavItem := entries[n];
      var wavPoint := FindWav(wavItem, 0);
      assert entries[..n + 1][..n] == entries[..n];
      if wavPoint.Some? {
        wavItem := wavItem[..wavPoint.value];
        items := items + [WavItem(wavItem)];
        assert (names + [wavItem])[..|names|] == names;
        names := names + [wavItem];
      }
      n := n + 1;
    }
    assert entries[..n] == entries;
    code := 0;
    added := [Member("wavs", Array(items))];
  }

  /**
   * Listing two runs of entries lists the first run's names and then the
   * second's: the listing keeps directory order and drops only non-wav
   * entries, as WavNamesOne shows.
   */
  lemma {:induction false} WavNamesAppend(a: seq<string>, b: seq<string>)
    ensures WavNames(a + b) == WavNames(a) + WavNames(b)
    decreases |b|
  {
    if b == [] {
      assert a + b == a;
    } else {
      var front := b[..|b| - 1];
      var last := b[|b| - 1];
      var tail := if WavName(last).Some? then [WavName(last).value] else [];
      WavNamesAppend(a, front);
      assert (a + b)[..|a + b| - 1] == a + front;
      assert (a + b)[|a + b| - 1] == last;
      assert WavNames(a + b) == WavNames(a + front) + tail;
      assert WavNames(b) == WavNames(front) + tail;
      assert WavNames(a) + WavNames(front) + tail == WavNames(a) + (WavNames(front) + tail);
    }
  }

  /** A single entry is listed exactly when it holds ".wav". */
  lemma WavNamesOne(entry: string)
    ensures WavNames([entry]) == (if WavName(entry).Some? then [WavName(entry).value] else [])
  {
    assert [entry][..0] == [];
  }

  /** A short name holds no ".wav" of its own. */
  lemma ShortNameIsCut(entry: string)
    requires WavName(entry).Some?
    ensures forall k :: !WavAt(WavName(entry).value, k)
  {
    var name := WavName(entry).value;
    assert FindWav(entry, 0).Some? && FindWav(entry, 0).value == |name|;
    forall k | 0 <= k && k + 4 <= |name|
      ensures !WavAt(name, k)
    {
      assert !WavAt(entry, k);
      assert name[k] == entry[k] && name[k + 1] == entry[k + 1] && name[k + 2] == entry[k + 2] && name[k + 3] == entry[k + 3];
    }
  }

  /** The first ".wav" cuts the name: "a.wav.wav" is listed as "a". */
  lemma DoubleSuffix()
    ensures WavName("a.wav.wav") == Some("a")
  {
    var s := "a.wav.wav";
    assert !WavAt(s, 0) && WavAt(s, 1);
    assert FindWav(s, 1) == Some(1);
    assert FindWav(s, 0) == Some(1);
    assert s[..1] == "a";
  }
}
