// The shared default event loop: a count of the tasks using it, the loop
// created on the first start and deleted on the last stop.
module EventHandler {

  /** The calls made into the event-loop library. */
  datatype LoopCall = Create | Delete

  /**
   * One call of start_stop_default_event_handler on the count `starts`: the
   * new count and the library call made, if any. A stop without a start
   * is an error that leaves the count at 0.
   */
  function LoopStep(starts: int, action: bool): (int, seq<LoopCall>) {
    if action then
      (starts + 1, if starts == 0 then [Create] else [])
    else
      var calls := if starts == 1 then [Delete] else [];
      (if starts - 1 < 0 then 0 else starts - 1, calls)
  }

  /** A sequence of calls from count `starts`: the final count and every library call in order. */
  function LoopRun(starts: int, actions: seq<bool>): (int, seq<LoopCall>)
    decreases |actions|
  {
    if actions == [] then (starts, [])
    else
      var step := LoopStep(starts, actions[0]);
      var rest := LoopRun(step.0, actions[1..]);
      (rest.0, step.1 + rest.1)
  }

  function Repeat(b: bool, n: nat): (s: seq<bool>)
    ensures |s| == n && forall i :: 0 <= i < n ==> s[i] == b
  {
    if n == 0 then [] else [b] + Repeat(b, n - 1)
  }

  /** The loop exists exactly while the count is positive: creates and deletes alternate. */
  function Balance(calls: seq<LoopCall>): int
    decreases |calls|
  {
    if calls == [] then 0
    else (if calls[|calls| - 1] == Create then 1 else -1) + Balance(calls[..|calls| - 1])
  }

  lemma BalanceAppend(a: seq<LoopCall>, b: seq<LoopCall>)
    ensures Balance(a + b) == Balance(a) + Balance(b)
    decreases |b|
  {
    if b == [] {
      assert a + b == a;
    } else {
      assert (a + b)[..|a + b| - 1] == a + b[..|b| - 1];
      BalanceAppend(a, b[..|b| - 1]);
    }
  }

  /**
   * Starting from no users, the library calls made so far leave one loop
   * alive when the count is positive and none when it is 0.
   */
  lemma {:induction false} RunKeepsLoopAlive(starts: int, actions: seq<bool>)
    requires starts >= 0
    ensures var r := LoopRun(starts, actions);
      r.0 >= 0 && (if starts > 0 then 1 else 0) + Balance(r.1) == (if r.0 > 0 then 1 else 0)
    decreases |actions|
  {
    if actions != [] {
      var step := LoopStep(starts, actions[0]);
      RunKeepsLoopAlive(step.0, actions[1..]);
      BalanceAppend(step.1, LoopRun(step.0, actions[1..]).1);
      assert Balance([Create]) == 1 && Balance([Delete]) == -1;
    }
  }

  /** n starts from count c give count c + n, and create the loop only when c is 0. */
  lemma {:induction false} StartsRun(c: nat, n: nat)
    ensures LoopRun(c, Repeat(true, n)) == (c + n, if c == 0 && n > 0 then [Create] else [])
    decreases n
  {
    if n > 0 {
      assert Repeat(true, n)[1..] == Repeat(true, n - 1);
      StartsRun(c + 1, n - 1);
      var first: seq<LoopCall> := if c == 0 then [Create] else [];
      assert first + [] == first;
    }
  }

  /** n stops from count n delete the loop once, on the last of them. */
  lemma {:induction false} StopsRun(n: nat)
    ensures LoopRun(n, Repeat(false, n)) == (0, if n > 0 then [Delete] else [])
  {
    if n > 0 {
      assert Repeat(false, n)[1..] == Repeat(false, n - 1);
      StopsRun(n - 1);
      assert [Delete] + [] == [Delete] && [] + [Delete] == [Delete];
    }
  }

  lemma {:induction false} RunAppend(starts: int, a: seq<bool>, b: seq<bool>)
    ensures LoopRun(starts, a + b) ==
      (LoopRun(LoopRun(starts, a).0, b).0, LoopRun(starts, a).1 + LoopRun(LoopRun(starts, a).0, b).1)
    decreases |a|
  {
    if a == [] {
      assert a + b == b;
      assert [] + LoopRun(starts, b).1 == LoopRun(starts, b).1;
    } else {
      assert (a + b)[0] == a[0];
      assert (a + b)[1..] == a[1..] + b;
      var step := LoopStep(starts, a[0]);
      RunAppend(step.0, a[1..], b);
      var mid := LoopRun(step.0, a[1..]);
      var last := LoopRun(mid.0, b);
      assert step.1 + (mid.1 + last.1) == (step.1 + mid.1) + last.1;
    }
  }

  /** N starts followed by N stops create and delete the loop exactly once and return to 0. */
  lemma StartsThenStops(n: nat)
    requires n > 0
    ensures LoopRun(0, Repeat(true, n) + Repeat(false, n)) == (0, [Create, Delete])
  {
    RunAppend(0, Repeat(true, n), Repeat(false, n));
    StartsRun(0, n);
    StopsRun(n);
    assert [Create] + [Delete] == [Create, Delete];
  }

  /** The static counter of start_stop_default_event_handler and the calls it has made. */
  class DefaultEventLoop {
    var starts: int
    var calls: seq<LoopCall>

    ghost predicate Valid()
      reads this
    {
      starts >= 0
    }

    constructor ()
      ensures Valid() && starts == 0 && calls == []
    {
      starts := 0;
      calls := [];
    }

    /** start_stop_default_event_handler(action). */
    method StartStop(action: bool)
      requires Valid()
      modifies this
      ensures Valid()
      ensures starts == LoopStep(old(starts), action).0
      ensures calls == old(calls) + LoopStep(old(starts), action).1
    {
      assert calls + [] == calls;
      if action {
        if starts == 0 {
          calls := calls + [Create];
        }
        starts := starts + 1;
      } else {
        if starts == 1 {
          calls := calls + [Delete];
        }
        starts := starts - 1;
        if starts < 0 {
          starts := 0;
        }
      }
    }
  }
}
