// The network settings API: json_setup_set validates the fields of a
// request one after the other on a copy of setupparams and commits the copy
// only when every present field passed; json_setup_read lists the settings.
module JsonNetwork {
  import opened Wrappers
  import opened Json
  import opened Settings
  import opened Text

  /** The request fields, in the order json_setup_set examines them. */
  datatype Field =
    | WifiModeField | NameField | ApSsidField | ApPwField | ApChannelField
    | StSsidField | StPwField | TimezoneField | NtpServerField

  const FieldCount := 9

  /** The k-th block of json_setup_set. */
  const FieldOrder: seq<Field> := [WifiModeField, NameField, ApSsidField, ApPwField,
    ApChannelField, StSsidField, StPwField, TimezoneField, NtpServerField]

  function FieldAt(k: nat): Field
    requires k < FieldCount
  {
    FieldOrder[k]
  }

  const StoredMessage := "Settings Stored"
  const BadRequest := 400

  function Key(f: Field): string {
    match f
    case WifiModeField => "wifimode"
    case NameField => "name"
    case ApSsidField => "apssid"
    case ApPwField => "appw"
    case ApChannelField => "apchannel"
    case StSsidField => "stssid"
    case StPwField => "stpw"
    case TimezoneField => "timezone"
    case NtpServerField => "ntpserver"
  }

  /** Whether a text is short enough in bytes: the limit is exclusive for name, timezone and ntpserver. */
  predicate TextOk(f: Field, s: string) {
    match f
    case NameField => Utf8Length(s) < 32
    case ApSsidField => Utf8Length(s) <= 32
    case ApPwField => Utf8Length(s) <= 64
    case StSsidField => Utf8Length(s) <= 32
    case StPwField => Utf8Length(s) <= 64
    case TimezoneField => 3 < Utf8Length(s) < 40
    case NtpServerField => 3 < Utf8Length(s) < 40
    case _ => false
  }

  /** Twenty characters of two bytes each are too long for an SSID, though twenty characters would fit. */
  lemma WideSsidRefused()
    ensures var s := seq(20, _ => '\U{FC}');
      && |s| == 20 && Utf8Length(s) == 40 && !TextOk(StSsidField, s)
  {
    RepeatLength('\U{FC}', 20);
  }

  /**
   * Whether field f of the request passes its check. wifimode must be
   * present as a number 0..3; apchannel, when a number, must be 1..13; a
   * text field, when a string, must fit; anything else is ignored.
   */
  predicate FieldOk(f: Field, req: Json) {
    var item := Item(req, Key(f));
    match f
    case WifiModeField => NumberOf(item).Some? && 0 <= NumberOf(item).value <= 3
    case ApChannelField => NumberOf(item).None? || 1 <= NumberOf(item).value <= 13
    case _ => StringOf(item).None? || TextOk(f, StringOf(item).value)
  }

  /** The reply text for a field that failed its check. */
  function ErrorMessage(f: Field, req: Json): string {
    match f
    case WifiModeField =>
      if NumberOf(Item(req, Key(f))).Some? then "Error 10005: Wifi mode not valid"
      else "Error 10006: wifimode should be a number"
    case NameField => "Error 10007: ESP Name is too long"
    case ApSsidField => "Error 10008: AP SSID is too long"
    case ApPwField => "Error 10009: AP key is too long"
    case ApChannelField => "Error 10010: AP Channel not valid 1-13"
    case StSsidField => "Error 10011: Wifi client SSID is too long"
    case StPwField => "Error 10012: AP SSID is too long"
    case TimezoneField => "Error 10013: Timezone string length"
    case NtpServerField => "Error 10014: NTP server name length"
  }

  /** The copy after a field that passed: its value taken over when present. */
  function Apply(f: Field, p: SetupParams, req: Json): SetupParams {
    var item := Item(req, Key(f));
    match f
    case WifiModeField => if NumberOf(item).Some? then p.(wifimode := NumberOf(item).value) else p
    case ApChannelField => if NumberOf(item).Some? then p.(apchannel := NumberOf(item).value) else p
    case NameField => if StringOf(item).Some? then p.(name := StringOf(item).value) else p
    case ApSsidField => if StringOf(item).Some? then p.(apssid := StringOf(item).value) else p
    case ApPwField => if StringOf(item).Some? then p.(appwd := StringOf(item).value) else p
    case StSsidField => if StringOf(item).Some? then p.(stssid := StringOf(item).value) else p
    case StPwField => if StringOf(item).Some? then p.(stpwd := StringOf(item).value) else p
    case TimezoneField => if StringOf(item).Some? then p.(timezone := StringOf(item).value) else p
    case NtpServerField => if StringOf(item).Some? then p.(ntpserver := StringOf(item).value) else p
  }

  datatype Parse = Parsed(params: SetupParams) | Rejected(message: string)

  /** The blocks from the k-th on: the first failing one ends the parse with its message. */
  function ParseFrom(p: SetupParams, req: Json, k: nat): Parse
    decreases FieldCount - k
  {
    if k >= FieldCount then Parsed(p)
    else if !FieldOk(FieldAt(k), req) then Rejected(ErrorMessage(FieldAt(k), req))
    else ParseFrom(Apply(FieldAt(k), p, req), req, k + 1)
  }

  /** The state json_setup_set threads through its blocks: the error flag, the copy and the reply text. */
  datatype Check = Check(err: int, temp: SetupParams, message: string)

  /** One block of json_setup_set on field f: skipped once an error was found. */
  function Step(f: Field, c: Check, req: Json): Check {
    if c.err != 0 then c
    else if FieldOk(f, req) then Check(0, Apply(f, c.temp, req), c.message)
    else Check(BadRequest, c.temp, ErrorMessage(f, req))
  }

  /** The blocks from the k-th on, each run whatever the earlier ones found. */
  function RunFrom(c: Check, req: Json, k: nat): Check
    decreases FieldCount - k
  {
    if k >= FieldCount then c else RunFrom(Step(FieldAt(k), c, req), req, k + 1)
  }

  /** The parse outcome a block state stands for. */
  function Outcome(c: Check): Parse {
    if c.err != 0 then Rejected(c.message) else Parsed(c.temp)
  }

  /** The k-th block of json_setup_set, for field f. */
  method ParseField(f: Field, c: Check, req: Json) returns (next: Check)
    ensures next == Step(f, c, req)
  {
    next := c;
    if c.err == 0 {
      if FieldOk(f, req) {
        next := Check(0, Apply(f, c.temp, req), c.message);
      } else {
        next := Check(BadRequest, c.temp, ErrorMessage(f, req));
      }
    }
  }

  /** The nine blocks of json_setup_set on the copy of the settings. */
  method CheckFields(p: SetupParams, req: Json) returns (c: Check)
    ensures c == RunFrom(Check(0, p, StoredMessage), req, 0)
  {
    c := Check(0, p, StoredMessage);
    c := ParseField(WifiModeField, c, req);
    c := ParseField(NameField, c, req);
    c := ParseField(ApSsidField, c, req);
    c := ParseField(ApPwField, c, req);
    c := ParseField(ApChannelField, c, req);
    c := ParseField(StSsidField, c, req);
    c := ParseField(StPwField, c, req);
    c := ParseField(TimezoneField, c, req);
    c := ParseField(NtpServerField, c, req);
  }

  /** Once the error flag is set, no later block changes the state. */
  lemma {:induction false} RunAfterError(c: Check, req: Json, k: nat)
    requires c.err != 0
    ensures RunFrom(c, req, k) == c
    decreases FieldCount - k
  {
    if k < FieldCount {
      RunAfterError(Step(FieldAt(k), c, req), req, k + 1);
    }
  }

  /**
   * Running every block with the error flag gives the same outcome as
   * stopping at the first failing field, with the flag 400 on a rejection
   * and the reply text untouched on success.
   */
  lemma {:induction false} RunMatchesParse(temp: SetupParams, req: Json, k: nat)
    ensures var r := RunFrom(Check(0, temp, StoredMessage), req, k);
      && (r.err == 0 || r.err == BadRequest)
      && (r.err == 0 ==> r.message == StoredMessage)
      && Outcome(r) == ParseFrom(temp, req, k)
    decreases FieldCount - k
  {
    if k < FieldCount {
      var f := FieldAt(k);
      var c := Check(0, temp, StoredMessage);
      var next := Step(f, c, req);
      assert RunFrom(c, req, k) == RunFrom(next, req, k + 1);
      if FieldOk(f, req) {
        assert next == Check(0, Apply(f, temp, req), StoredMessage);
        RunMatchesParse(Apply(f, temp, req), req, k + 1);
      } else {
        assert next == Check(BadRequest, temp, ErrorMessage(f, req));
        RunAfterError(next, req, k + 1);
      }
    }
  }

  /** json_setup_set: the copy is committed, stored and signalled only when no block failed. */
  method SetupSet(store: SetupStore, req: Json) returns (code: int, reply: seq<Member>)
    modifies store
    ensures var r := ParseFrom(old(store.params), req, 0);
      && (code == 0 <==> r.Parsed?)
      && (r.Parsed? ==> store.params == r.params && store.nvramWrites == old(store.nvramWrites) + [r.params]
                        && store.changeEvents == old(store.changeEvents) + 1
                        && reply == [Member("message", Str(StoredMessage))])
      && (r.Rejected? ==> code == BadRequest && store.params == old(store.params)
                          && store.nvramWrites == old(store.nvramWrites)
                          && store.changeEvents == old(store.changeEvents)
                          && reply == [Member("message", Str(r.message))])
  {
    var c := CheckFields(store.params, req);
    RunMatchesParse(store.params, req, 0);
    var err, temp, message := c.err, c.temp, c.message;
    if err == 0 {
      store.params := temp;
      store.nvramWrites := store.nvramWrites + [temp];
    }
    reply := [Member("message", Str(message))];
    if err == 0 {
      store.changeEvents := store.changeEvents + 1;
    }
    code := err;
  }

  // ----- Properties of the parse

  /** The request is accepted exactly when every field passes; the copy does not influence the verdict. */
  lemma {:induction false} AcceptedIff(p: SetupParams, req: Json, k: nat)
    ensures ParseFrom(p, req, k).Parsed? <==> forall i :: k <= i < FieldCount ==> FieldOk(FieldAt(i), req)
    decreases FieldCount - k
  {
    if k < FieldCount && FieldOk(FieldAt(k), req) {
      AcceptedIff(Apply(FieldAt(k), p, req), req, k + 1);
    }
  }

  /** The index of the first block from the k-th on whose field fails its check; FieldCount if none. */
  function FirstFailing(req: Json, k: nat): (r: nat)
    requires k <= FieldCount
    ensures k <= r <= FieldCount
    ensures forall i :: k <= i < r ==> FieldOk(FieldAt(i), req)
    ensures r < FieldCount ==> !FieldOk(FieldAt(r), req)
    decreases FieldCount - k
  {
    if k == FieldCount || !FieldOk(FieldAt(k), req) then k else FirstFailing(req, k + 1)
  }

  /** A rejection carries the message of the first failing field; no later field is looked at. */
  lemma {:induction false} FirstError(p: SetupParams, req: Json, k: nat)
    requires k <= FieldCount
    ensures ParseFrom(p, req, k).Rejected? <==> FirstFailing(req, k) < FieldCount
    ensures ParseFrom(p, req, k).Rejected? ==>
      ParseFrom(p, req, k).message == ErrorMessage(FieldAt(FirstFailing(req, k)), req)
    decreases FieldCount - k
  {
    if k < FieldCount && FieldOk(FieldAt(k), req) {
      FirstError(Apply(FieldAt(k), p, req), req, k + 1);
    }
  }

  /** What a passing field leaves in the copy: the buffers still fit, mode and channel in range. */
  predicate StoredOk(p: SetupParams) {
    BuffersFit(p) && 0 <= p.wifimode <= 3 && 1 <= p.apchannel <= 13
  }

  lemma ApplyKeepsStoredOk(f: Field, p: SetupParams, req: Json)
    requires StoredOk(p) && FieldOk(f, req)
    ensures StoredOk(Apply(f, p, req))
  {
  }

  /**
   * Every accepted value fits its setupparams_t buffer with its terminator,
   * counted in bytes, so a commit keeps the settings well formed.
   */
  lemma {:induction false} AcceptedFits(p: SetupParams, req: Json, k: nat)
    requires StoredOk(p) && ParseFrom(p, req, k).Parsed?
    ensures StoredOk(ParseFrom(p, req, k).params)
    decreases FieldCount - k
  {
    if k < FieldCount {
      ApplyKeepsStoredOk(FieldAt(k), p, req);
      AcceptedFits(Apply(FieldAt(k), p, req), req, k + 1);
    }
  }

  /** The parts of the settings a field leaves alone when its key is absent. */
  function Part(f: Field, p: SetupParams): (string, int) {
    match f
    case WifiModeField => ("", p.wifimode)
    case ApChannelField => ("", p.apchannel)
    case NameField => (p.name, 0)
    case ApSsidField => (p.apssid, 0)
    case ApPwField => (p.appwd, 0)
    case StSsidField => (p.stssid, 0)
    case StPwField => (p.stpwd, 0)
    case TimezoneField => (p.timezone, 0)
    case NtpServerField => (p.ntpserver, 0)
  }

  /** The settings no request field touches. */
  predicate SameUntouched(p: SetupParams, q: SetupParams) {
    p.ipmode == q.ipmode && p.ip == q.ip && p.mask == q.mask && p.gw == q.gw
    && p.dns1 == q.dns1 && p.dns2 == q.dns2
  }

  lemma ApplyPart(f: Field, g: Field, p: SetupParams, req: Json)
    requires f != g || Item(req, Key(f)).None?
    ensures Part(f, Apply(g, p, req)) == Part(f, p)
    ensures SameUntouched(p, Apply(g, p, req))
  {
  }

  /**
   * A field absent from an accepted request keeps its previous value, and
   * the IP settings are never changed, because the copy starts from the
   * current settings.
   */
  lemma {:induction false} AbsentKeepsValue(p: SetupParams, req: Json, k: nat, f: Field)
    requires Item(req, Key(f)).None? && ParseFrom(p, req, k).Parsed?
    ensures Part(f, ParseFrom(p, req, k).params) == Part(f, p)
    ensures SameUntouched(p, ParseFrom(p, req, k).params)
    decreases FieldCount - k
  {
    if k < FieldCount {
      ApplyPart(f, FieldAt(k), p, req);
      AbsentKeepsValue(Apply(FieldAt(k), p, req), req, k + 1, f);
    }
  }

  // ----- json_setup_read

  /** The four address bytes under the keys prefix + "byte1" .. prefix + "byte4". */
  function ByteMembers(prefix: string, b: seq<int>): (r: seq<Member>)
    requires |prefix| > 0 && |b| == 4
    ensures |r| == 4 && forall i :: 0 <= i < 4 ==> |r[i].key| > 0 && r[i].key[0] == prefix[0]
  {
    [ Member(prefix + "byte1", Number(b[0])), Member(prefix + "byte2", Number(b[1])),
      Member(prefix + "byte3", Number(b[2])), Member(prefix + "byte4", Number(b[3])) ]
  }

  /** The first part of the reply: the Wi-Fi mode, the access point, the station and the name. */
  function WifiMembers(p: SetupParams): seq<Member> {
    [ Member("wifimode", Number(p.wifimode)),
      Member("apssid", Str(p.apssid)),
      Member("appw", Str(p.appwd)),
      Member("stssid", Str(p.stssid)),
      Member("stpw", Str(p.stpwd)),
      Member("name", Str(p.name)),
      Member("apchannel", Number(p.apchannel)) ]
  }

  /** The middle part: the IP mode and the address, gateway, mask and name server bytes, in that order. */
  function AddressMembers(p: SetupParams): (r: seq<Member>)
    requires AddressesWellFormed(p)
    ensures forall i :: 0 <= i < |r| ==> |r[i].key| > 0 && r[i].key[0] in "igmd"
  {
    [Member("ipmode", Number(p.ipmode))] + ByteMembers("ip", p.ip) + ByteMembers("gw", p.gw)
    + ByteMembers("mask", p.mask) + ByteMembers("dns1", p.dns1) + ByteMembers("dns2", p.dns2)
  }

  /** The reply of json_setup_read: every setting under its key, in the order of the source. */
  function SetupReply(p: SetupParams): seq<Member>
    requires AddressesWellFormed(p)
  {
    WifiMembers(p) + AddressMembers(p) + [Member("timezone", Str(p.timezone)), Member("ntpserver", Str(p.ntpserver))]
  }

  /** json_setup_read: the settings listed, and 0. */
  method SetupRead(store: SetupStore) returns (code: int, reply: seq<Member>)
    requires AddressesWellFormed(store.params)
    ensures code == 0 && reply == SetupReply(store.params)
  {
    code := 0;
    reply := SetupReply(store.params);
  }

  /** The value the reply carries for a field json_setup_set reads. */
  function ReplyValue(f: Field, p: SetupParams): Json {
    match f
    case WifiModeField => Number(p.wifimode)
    case ApChannelField => Number(p.apchannel)
    case NameField => Str(p.name)
    case ApSsidField => Str(p.apssid)
    case ApPwField => Str(p.appwd)
    case StSsidField => Str(p.stssid)
    case StPwField => Str(p.stpwd)
    case TimezoneField => Str(p.timezone)
    case NtpServerField => Str(p.ntpserver)
  }

  /** Members none of which has the key do not change what a lookup finds after them. */
  lemma {:induction false} FindSkip(ms: seq<Member>, more: seq<Member>, key: string)
    requires forall i :: 0 <= i < |ms| ==> ms[i].key != key
    ensures Find(ms + more, key) == Find(more, key)
    decreases |ms|
  {
    if ms != [] {
      assert (ms + more)[0] == ms[0];
      assert (ms + more)[1..] == ms[1..] + more;
      FindSkip(ms[1..], more, key);
    } else {
      assert ms + more == more;
    }
  }

  /** The first part of the reply answers the seven keys it holds. */
  lemma WifiItem(p: SetupParams, f: Field)
    requires f != TimezoneField && f != NtpServerField
    ensures Find(WifiMembers(p), Key(f)) == Some(ReplyValue(f, p))
  {
    var ms := WifiMembers(p);
    match f
    case WifiModeField => FindFirst(ms, 0);
    case ApSsidField => FindFirst(ms, 1);
    case ApPwField => FindFirst(ms, 2);
    case StSsidField => FindFirst(ms, 3);
    case StPwField => FindFirst(ms, 4);
    case NameField => FindFirst(ms, 5);
    case ApChannelField => FindFirst(ms, 6);
  }

  /** The reply of json_setup_read finds, under each key, the matching setting. */
  lemma ReplyItem(p: SetupParams, f: Field)
    requires AddressesWellFormed(p)
    ensures Item(Object(SetupReply(p)), Key(f)) == Some(ReplyValue(f, p))
  {
    var w, a := WifiMembers(p), AddressMembers(p);
    var t := [Member("timezone", Str(p.timezone)), Member("ntpserver", Str(p.ntpserver))];
    assert SetupReply(p) == w + (a + t);
    if f == TimezoneField || f == NtpServerField {
      assert forall i :: 0 <= i < |w| ==> w[i].key != Key(f);
      FindSkip(w, a + t, Key(f));
      assert forall i :: 0 <= i < |a| ==> a[i].key[0] != Key(f)[0];
      FindSkip(a, t, Key(f));
    } else {
      WifiItem(p, f);
      FindAppend(w, a + t, Key(f));
    }
  }

  /** Fields that pass and keep the copy as it is leave the whole parse at the copy. */
  lemma {:induction false} ParseKeeps(p: SetupParams, req: Json, k: nat)
    requires forall i :: k <= i < FieldCount ==> FieldOk(FieldAt(i), req) && Apply(FieldAt(i), p, req) == p
    ensures ParseFrom(p, req, k) == Parsed(p)
    decreases FieldCount - k
  {
    if k < FieldCount {
      ParseKeeps(p, req, k + 1);
    }
  }

  /** Each field read back from the reply passes and changes nothing. */
  lemma ReplyFieldKeeps(p: SetupParams, f: Field)
    requires AddressesWellFormed(p) && StoredOk(p)
    requires 3 < Utf8Length(p.timezone) && 3 < Utf8Length(p.ntpserver)
    ensures FieldOk(f, Object(SetupReply(p))) && Apply(f, p, Object(SetupReply(p))) == p
  {
    ReplyItem(p, f);
    match f
    case WifiModeField => assert p.(wifimode := p.wifimode) == p;
    case ApChannelField => assert p.(apchannel := p.apchannel) == p;
    case NameField => assert p.(name := p.name) == p;
    case ApSsidField => assert p.(apssid := p.apssid) == p;
    case ApPwField => assert p.(appwd := p.appwd) == p;
    case StSsidField => assert p.(stssid := p.stssid) == p;
    case StPwField => assert p.(stpwd := p.stpwd) == p;
    case TimezoneField => assert p.(timezone := p.timezone) == p;
    case NtpServerField => assert p.(ntpserver := p.ntpserver) == p;
  }

  /**
   * Feeding the reply of json_setup_read back to json_setup_set is accepted
   * and changes nothing, whenever the stored settings are ones the API can
   * store (text lengths, mode and channel in range).
   */
  lemma ReadThenSet(p: SetupParams)
    requires AddressesWellFormed(p) && StoredOk(p)
    requires 3 < Utf8Length(p.timezone) && 3 < Utf8Length(p.ntpserver)
    ensures ParseFrom(p, Object(SetupReply(p)), 0) == Parsed(p)
  {
    var req := Object(SetupReply(p));
    forall i | 0 <= i < FieldCount
      ensures FieldOk(FieldAt(i), req) && Apply(FieldAt(i), p, req) == p
    {
      ReplyFieldKeeps(p, FieldAt(i));
    }
    ParseKeeps(p, req, 0);
  }
}
