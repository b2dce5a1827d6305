// The time requests of the JSON API: json_time_set takes a UTC timestamp
// from 2000 on and hands it to set_time; json_time_read answers with the
// system time.
module JsonTime {
  import opened Wrappers
  import opened Json
  import TimeTask

  const BadRequest := 400
  /** 2000-01-01 00:00:00 UTC, the earliest time accepted. */
  const Year2000 := 946684800

  /** The timestamp json_time_set accepts, or None for the 400 answer. */
  function AcceptedTime(req: Json): (r: Option<int>)
    ensures r.Some? <==> NumberOf(Item(req, "utctimestamp")).Some? && NumberOf(Item(req, "utctimestamp")).value >= Year2000
    ensures r.Some? ==> r == NumberOf(Item(req, "utctimestamp"))
  {
    var n := NumberOf(Item(req, "utctimestamp"));
    if n.Some? && n.value >= Year2000 then n else None
  }

  /**
   * json_time_set: the answer and the effects of set_time; a timestamp
   * missing, not a number or before 2000 is answered 400 with no effect.
   */
  method TimeSet(req: Json) returns (code: int, effects: seq<TimeTask.Effect>)
    ensures AcceptedTime(req).Some? ==> code == 0 && effects == TimeTask.SetTime(AcceptedTime(req).value)
    ensures AcceptedTime(req).None? ==> code == BadRequest && effects == []
  {
    effects := [];
    var utcTimestamp := 0;
    var n := NumberOf(Item(req, "utctimestamp"));
    if n.Some? {
      if n.value >= Year2000 {
        utcTimestamp := n.value;
      } else {
        return BadRequest, [];
      }
    }
    if utcTimestamp == 0 {
      return BadRequest, [];
    }
    effects := TimeTask.SetTime(utcTimestamp);
    code := 0;
  }

  /** json_time_read: the system time `now` (get_time) under "utctimestamp". */
  function TimeReply(now: int): (reply: seq<Member>)
    ensures Item(Object(reply), "utctimestamp") == Some(Number(now))
  {
    [Member("utctimestamp", Number(now))]
  }

  /**
   * Sending back what json_time_read answered sets the clock to that time
   * exactly when it is not before 2000.
   */
  lemma ReadThenSet(now: int)
    ensures AcceptedTime(Object(TimeReply(now))).Some? <==> now >= Year2000
    ensures AcceptedTime(Object(TimeReply(now))).Some? ==> TimeTask.SetTime(AcceptedTime(Object(TimeReply(now))).value)[0] == TimeTask.SetClock(now)
  {
  }
}
