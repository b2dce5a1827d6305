// The Wi-Fi task's bookkeeping: the retry counter the event handler keeps
// for station reconnects, the network applications it starts and stops,
// the access point's authentication choice, and the open access point
// that the menu can switch on.
module Network {
  import opened Wrappers
  import opened Settings

  /** The two event bases the handler is registered for. */
  datatype EventBase = WifiEvent | IpEvent

  /** Event ids of the Wi-Fi driver and the IP stack (ESP-IDF's enumerations). */
  const WifiEventStaStart := 2
  const WifiEventStaDisconnected := 5
  const WifiEventApStart := 12
  const IpEventStaGotIp := 0
  const IpEventStaLostIp := 1

  /** Reconnect attempts before the handler backs off. */
  const StaMaxRetry := 10

  /** What the handler does besides updating the counter. */
  datatype Effect =
    | Connect      // esp_wifi_connect
    | BackOff      // the long sleep before connecting again
    | StartApps    // start_network_apps
    | StopApps     // stop_network_apps

  /** The retry counter after one event. */
  function RetryAfter(retry: int, base: EventBase, id: int): int {
    if base == WifiEvent && id == WifiEventStaStart then 0
    else if base == WifiEvent && id == WifiEventStaDisconnected && retry >= 0 then
      (if retry < StaMaxRetry then retry + 1 else 0)
    else if base == IpEvent && id == IpEventStaGotIp then 0
    else retry
  }

  /** The reconnect part of the handler: station start and disconnect. */
  function ConnectEffects(mode: int, retry: int, base: EventBase, id: int): seq<Effect> {
    if base == WifiEvent && id == WifiEventStaStart then [Connect]
    else if base == WifiEvent && id == WifiEventStaDisconnected && retry >= 0 then
      (if retry < StaMaxRetry then [Connect]
       else [BackOff] + (if mode == 3 then [StopApps] else []) + [Connect])
    else []
  }

  /**
   * Everything the handler does on one event, in order. The applications
   * are started and stopped on the event id alone, whatever its base.
   */
  function EventEffects(mode: int, retry: int, base: EventBase, id: int): seq<Effect> {
    ConnectEffects(mode, retry, base, id)
    + (if id == IpEventStaGotIp || id == WifiEventApStart then [StartApps] else [])
    + (if id == IpEventStaLostIp && mode == 3 then [StopApps] else [])
  }

  /** pass_to_wifi_event_t, the handler's argument, and the effects so far. */
  class WifiEventArgs {
    var wifimode: int
    var retryCnt: int
    var effects: seq<Effect>

    /** The counter is -1 while Wi-Fi is shut down, otherwise at most StaMaxRetry. */
    ghost predicate Valid()
      reads this
    {
      -1 <= retryCnt <= StaMaxRetry
    }

    constructor ()
      ensures Valid() && wifimode == 0 && retryCnt == 0 && effects == []
    {
      wifimode := 0;
      retryCnt := 0;
      effects := [];
    }

    /** wifi_event_handler for one event. */
    method HandleEvent(base: EventBase, id: int)
      requires Valid()
      modifies this
      ensures Valid()
      ensures wifimode == old(wifimode)
      ensures retryCnt == RetryAfter(old(retryCnt), base, id)
      ensures effects == old(effects) + EventEffects(wifimode, old(retryCnt), base, id)
    {
      ghost var start := effects;
      if base == WifiEvent {
        if id == WifiEventStaStart {
          retryCnt := 0;
          effects := effects + [Connect];
        }
        if id == WifiEventStaDisconnected {
          if retryCnt >= 0 {
            if retryCnt < StaMaxRetry {
              effects := effects + [Connect];
              retryCnt := retryCnt + 1;
            } else {
              effects := effects + [BackOff];
              if wifimode == 3 {
                effects := effects + [StopApps];
              }
              retryCnt := 0;
              effects := effects + [Connect];
            }
          }
        }
      }
      if base == IpEvent {
        if id == IpEventStaGotIp {
          retryCnt := 0;
        }
      }
      assert effects == start + ConnectEffects(wifimode, old(retryCnt), base, id);
      ghost var connected := effects;
      if id == IpEventStaGotIp || id == WifiEventApStart {
        effects := effects + [StartApps];
      }
      assert effects == connected + (if id == IpEventStaGotIp || id == WifiEventApStart then [StartApps] else []);
      ghost var started := effects;
      if id == IpEventStaLostIp && wifimode == 3 {
        effects := effects + [StopApps];
      }
      assert effects == started + (if id == IpEventStaLostIp && wifimode == 3 then [StopApps] else []);
    }

    /**
     * The updates wifi_setup makes to the handler's argument on a change
     * request: a running Wi-Fi has its applications stopped and reconnects
     * disabled; a new mode other than 0 is handed over, and a mode with a
     * station arms the reconnects again.
     */
    method Reconfigure(running: bool, mode: int)
      requires Valid()
      modifies this
      ensures Valid()
      ensures wifimode == (if mode > 0 then mode else old(wifimode))
      ensures retryCnt == (if mode >= 2 then 0 else if running then -1 else old(retryCnt))
      ensures effects == old(effects) + (if running then [StopApps] else [])
    {
      if running {
        effects := effects + [StopApps];
        retryCnt := -1;
      }
      if mode > 0 {
        wifimode := mode;
        if mode >= 2 {
          retryCnt := 0;
        }
      }
    }
  }

  // ----- Properties of the handler

  /** The counter stays in -1 .. StaMaxRetry whatever the event. */
  lemma RetryInRange(retry: int, base: EventBase, id: int)
    requires -1 <= retry <= StaMaxRetry
    ensures -1 <= RetryAfter(retry, base, id) <= StaMaxRetry
    ensures retry >= 0 ==> RetryAfter(retry, base, id) >= 0
  {
  }

  /** While Wi-Fi is shut down a disconnect neither reconnects nor changes the counter. */
  lemma ShutdownIgnoresDisconnect(mode: int, retry: int)
    requires retry < 0
    ensures RetryAfter(retry, WifiEvent, WifiEventStaDisconnected) == retry
    ensures EventEffects(mode, retry, WifiEvent, WifiEventStaDisconnected) == []
  {
  }

  /** One handler call: the new counter and the effects. */
  function Handle(mode: int, retry: int, event: (EventBase, int)): (int, seq<Effect>) {
    (RetryAfter(retry, event.0, event.1), EventEffects(mode, retry, event.0, event.1))
  }

  /** The counter and effects of a sequence of events, one handler call each. */
  function RunEvents(mode: int, retry: int, events: seq<(EventBase, int)>): (int, seq<Effect>)
    decreases |events|
  {
    if events == [] then (retry, [])
    else
      var step := Handle(mode, retry, events[0]);
      var next := RunEvents(mode, step.0, events[1..]);
      (next.0, step.1 + next.1)
  }

  function Disconnects(n: nat): (s: seq<(EventBase, int)>)
    ensures |s| == n && forall i :: 0 <= i < n ==> s[i] == (WifiEvent, WifiEventStaDisconnected)
  {
    if n == 0 then [] else [(WifiEvent, WifiEventStaDisconnected)] + Disconnects(n - 1)
  }

  function Connects(n: nat): (s: seq<Effect>)
    ensures |s| == n && forall i :: 0 <= i < n ==> s[i] == Connect
  {
    if n == 0 then [] else [Connect] + Connects(n - 1)
  }

  /** n disconnects that stay within the retry budget reconnect n times and count n up. */
  lemma {:induction false} DisconnectsCount(mode: int, retry: nat, n: nat)
    requires retry + n <= StaMaxRetry
    ensures RunEvents(mode, retry, Disconnects(n)) == (retry + n, Connects(n))
    decreases n
  {
    var events := Disconnects(n);
    if n > 0 {
      assert events[0] == (WifiEvent, WifiEventStaDisconnected);
      assert events[1..] == Disconnects(n - 1);
      DisconnectEffects(mode, retry);
      DisconnectsCount(mode, retry + 1, n - 1);
      assert Connects(n) == [Connect] + Connects(n - 1);
    }
  }

  /** One disconnect with the counter at `retry`, which is not negative. */
  lemma DisconnectEffects(mode: int, retry: nat)
    ensures EventEffects(mode, retry, WifiEvent, WifiEventStaDisconnected) ==
      if retry < StaMaxRetry then [Connect]
      else [BackOff] + (if mode == 3 then [StopApps] else []) + [Connect]
  {
    var c := ConnectEffects(mode, retry, WifiEvent, WifiEventStaDisconnected);
    assert EventEffects(mode, retry, WifiEvent, WifiEventStaDisconnected) == c + [] + [];
    assert c + [] + [] == c;
  }

  /**
   * Eleven disconnects from a fresh counter: ten reconnects, then a back-off
   * (stopping the applications in station-only mode), the counter reset to
   * 0 and one more reconnect.
   */
  lemma DisconnectCycle(mode: int)
    ensures RunEvents(mode, 0, Disconnects(StaMaxRetry + 1)) ==
      (0, Connects(StaMaxRetry) + [BackOff] + (if mode == 3 then [StopApps] else []) + [Connect])
  {
    var ten := Disconnects(StaMaxRetry);
    var one := [(WifiEvent, WifiEventStaDisconnected)];
    var last := [BackOff] + (if mode == 3 then [StopApps] else []) + [Connect];
    assert Disconnects(StaMaxRetry + 1) == ten + one;
    RunAppend(mode, 0, ten, one);
    DisconnectsCount(mode, 0, StaMaxRetry);
    assert RunEvents(mode, 0, ten) == (StaMaxRetry, Connects(StaMaxRetry));
    DisconnectEffects(mode, StaMaxRetry);
    assert one[0] == (WifiEvent, WifiEventStaDisconnected) && one[1..] == [];
    assert RunEvents(mode, StaMaxRetry, one) == (0, last + []);
    assert last + [] == last;
    assert Connects(StaMaxRetry) + last ==
      Connects(StaMaxRetry) + [BackOff] + (if mode == 3 then [StopApps] else []) + [Connect];
  }

  lemma {:induction false} RunAppend(mode: int, retry: int, a: seq<(EventBase, int)>, b: seq<(EventBase, int)>)
    ensures RunEvents(mode, retry, a + b) ==
      (RunEvents(mode, RunEvents(mode, retry, a).0, b).0,
       RunEvents(mode, retry, a).1 + RunEvents(mode, RunEvents(mode, retry, a).0, b).1)
    decreases |a|
  {
    if a == [] {
      assert a + b == b;
      assert [] + RunEvents(mode, retry, b).1 == RunEvents(mode, retry, b).1;
    } else {
      assert (a + b)[0] == a[0];
      assert (a + b)[1..] == a[1..] + b;
      var step := Handle(mode, retry, a[0]);
      RunAppend(mode, step.0, a[1..], b);
      var mid := RunEvents(mode, step.0, a[1..]);
      var last := RunEvents(mode, mid.0, b);
      ConcatAssoc(step.1, mid.1, last.1);
    }
  }

  /**
   * The applications are started exactly on the ids of "got IP" and
   * "access point started", and the event base is not consulted: a Wi-Fi
   * event with the id of "got IP" starts them too.
   */
  lemma StartAppsOnId(mode: int, retry: int, base: EventBase, id: int)
    ensures StartApps in EventEffects(mode, retry, base, id) <==> id == IpEventStaGotIp || id == WifiEventApStart
  {
    var e := EventEffects(mode, retry, base, id);
    if StartApps in e {
      assert StartApps !in ConnectEffects(mode, retry, base, id);
    }
  }

  /** Losing the station's address stops the applications only in station-only mode. */
  lemma LostIpStopsInStationMode(mode: int, retry: int)
    ensures EventEffects(mode, retry, IpEvent, IpEventStaLostIp) == (if mode == 3 then [StopApps] else [])
  {
  }

  // ----- The access point

  datatype AuthMode = WpaWpa2Psk | OpenAuth

  /** wifi_setup's authentication choice for the access point. */
  function ApAuthMode(appwd: string): (m: AuthMode)
    ensures m == OpenAuth <==> |appwd| == 0
  {
    if |appwd| == 0 then OpenAuth else WpaWpa2Psk
  }

  /** wifi_setup brings up an access point for modes 1 and 2 and a station for modes 2 and 3. */
  predicate RunsAccessPoint(mode: int) { 0 < mode <= 2 }
  predicate RunsStation(mode: int) { mode >= 2 }

  /** The settings open_wifi_ap stores. */
  function OpenApParams(p: SetupParams): SetupParams {
    var mode := if p.wifimode == 2 || p.wifimode == 3 then 2 else 1;
    p.(appwd := "", apchannel := 1, wifimode := mode)
  }

  /** open_wifi_ap: the settings changed, written to NVRAM and the Wi-Fi task signalled. */
  method OpenWifiAp(store: SetupStore)
    modifies store
    ensures store.params == OpenApParams(old(store.params))
    ensures store.nvramWrites == old(store.nvramWrites) + [store.params]
    ensures store.changeEvents == old(store.changeEvents) + 1
  {
    var p := store.params;
    p := p.(appwd := "");
    p := p.(apchannel := 1);
    if p.wifimode == 2 {
    } else if p.wifimode == 3 {
      p := p.(wifimode := 2);
    } else {
      p := p.(wifimode := 1);
    }
    store.params := p;
    store.nvramWrites := store.nvramWrites + [p];
    store.changeEvents := store.changeEvents + 1;
  }

  /**
   * After open_wifi_ap the next reconfiguration runs an open access point on
   * channel 1; a station is kept exactly when one was configured before.
   */
  lemma OpenApIsOpen(p: SetupParams)
    ensures var q := OpenApParams(p);
      && RunsAccessPoint(q.wifimode) && ApAuthMode(q.appwd) == OpenAuth && q.apchannel == 1
      && (RunsStation(q.wifimode) <==> RunsStation(p.wifimode) && p.wifimode <= 3)
  {
  }

  /** Opening the access point twice is the same as once, and the names and passwords of the station stay. */
  lemma OpenApIdempotent(p: SetupParams)
    ensures OpenApParams(OpenApParams(p)) == OpenApParams(p)
    ensures var q := OpenApParams(p);
      q.name == p.name && q.apssid == p.apssid && q.stssid == p.stssid && q.stpwd == p.stpwd
      && q.timezone == p.timezone && q.ntpserver == p.ntpserver
    ensures BuffersFit(p) ==> BuffersFit(OpenApParams(p))
  {
  }
}
