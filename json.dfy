// The part of the cJSON library the request handlers use: a JSON value,
// member lookup by exact key, and the typed accessors. Numbers are the
// integer values the handlers read through valueint.
module Json {
  import opened Wrappers

  datatype Json =
    | Null
    | Bool(b: bool)
    | Number(n: int)
    | Str(s: string)
    | Array(items: seq<Json>)
    | Object(members: seq<Member>)

  datatype Member = Member(key: string, value: Json)

  /** The value of the first member named `key`, as cJSON_GetObjectItemCaseSensitive walks the children. */
  function Find(ms: seq<Member>, key: string): (r: Option<Json>)
    ensures r.None? <==> forall i :: 0 <= i < |ms| ==> ms[i].key != key
    decreases |ms|
  {
    if ms == [] then None
    else if ms[0].key == key then Some(ms[0].value)
    else Find(ms[1..], key)
  }

  /** The member at index i is the one found when no earlier member has its key. */
  lemma {:induction false} FindFirst(ms: seq<Member>, i: nat)
    requires i < |ms|
    requires forall j :: 0 <= j < i ==> ms[j].key != ms[i].key
    ensures Find(ms, ms[i].key) == Some(ms[i].value)
    decreases i
  {
    if i > 0 {
      FindFirst(ms[1..], i - 1);
    }
  }

  /** Appending members never changes what an earlier member answers. */
  lemma {:induction false} FindAppend(ms: seq<Member>, more: seq<Member>, key: string)
    requires Find(ms, key).Some?
    ensures Find(ms + more, key) == Find(ms, key)
    decreases |ms|
  {
    assert (ms + more)[0] == ms[0];
    if ms[0].key != key {
      assert (ms + more)[1..] == ms[1..] + more;
      FindAppend(ms[1..], more, key);
    }
  }

  /** cJSON_GetObjectItemCaseSensitive: no item unless `j` is an object with such a member. */
  function Item(j: Json, key: string): Option<Json> {
    if j.Object? then Find(j.members, key) else None
  }

  /** cJSON_IsNumber followed by valueint. */
  function NumberOf(o: Option<Json>): Option<int> {
    if o.Some? && o.value.Number? then Some(o.value.n) else None
  }

  /** cJSON_GetStringValue: the text of a string item, NULL otherwise. */
  function StringOf(o: Option<Json>): Option<string> {
    if o.Some? && o.value.Str? then Some(o.value.s) else None
  }

  /** cJSON_IsBool followed by cJSON_IsTrue. */
  function BoolOf(o: Option<Json>): Option<bool> {
    if o.Some? && o.value.Bool? then Some(o.value.b) else None
  }
}
