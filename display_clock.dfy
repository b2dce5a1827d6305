// The display task's menu: the state shown on the display, moved by the
// encoder, the minute tick and the menu timer, and the calls each event
// makes into the alarm engine, the menu timer and the Wi-Fi settings.
module DisplayClock {
  import opened Settings
  import opened Civil
  import opened DisplayFunctions
  import opened Text
  import Network

  /** display_state_t. */
  datatype DisplayState =
    | ClockDisplay | AlarmDisplay | AlarmSet | AlarmGoing | AlarmGoingPressed
    | AlarmGoingOff | SleepTime | Brightness | OpenWifiAp | OpenWifiApPressed

  /** disp_task_signal_t, the events the display queue carries. */
  datatype Signal =
    | Noop | EncoderUp | EncoderDown | EncoderPress | EncoderPressReleased
    | MinutePassed | TimerExpired

  /** Menu timer periods in milliseconds. */
  const MenuTimeout := 8000
  const MenuTimeoutShort := 1200
  const AlarmLongPress := 1500
  const WifiOpenApLongPress := 5000
  const AlarmMaxDuration := 3600000
  const OffShown := 2000

  /** The calls one event makes, in order. */
  datatype Action =
    | CallAlarmOnOff | CallStopAlarm | CallAlarmAddSleep | CallAlarmOff
    | CallAlarmSetTime(adjustment: int) | CallSleepSetTime(adjustment: int)
    | CallBrightnessSet(adjustment: int) | CallStoreNvram(x: int)
    | CallCheckForAlarm | CallOpenWifiAp | MenuTimer(ms: int)

  /**
   * One pass of the display loop: the new state and the calls made, given
   * what check_for_alarm returns (`due`) and whether the button is held
   * down when the timer expires.
   */
  function Step(state: DisplayState, sig: Signal, due: bool, held: bool): (DisplayState, seq<Action>) {
    match sig
    case EncoderPress =>
      (match state
       case ClockDisplay => (AlarmDisplay, [MenuTimer(MenuTimeoutShort)])
       case AlarmDisplay => (SleepTime, [MenuTimer(MenuTimeout)])
       case AlarmSet => (AlarmSet, [CallAlarmOnOff, MenuTimer(MenuTimeout)])
       case SleepTime => (Brightness, [MenuTimer(MenuTimeout)])
       case Brightness => (OpenWifiAp, [MenuTimer(MenuTimeout)])
       case AlarmGoing => (AlarmGoingPressed, [CallStopAlarm, CallAlarmAddSleep, MenuTimer(AlarmLongPress)])
       case OpenWifiAp => (OpenWifiApPressed, [MenuTimer(WifiOpenApLongPress)])
       case OpenWifiApPressed => (ClockDisplay, [])
       case _ => (state, []))
    case EncoderPressReleased =>
      if state == OpenWifiApPressed then (ClockDisplay, []) else (state, [])
    case MinutePassed =>
      if due then (AlarmGoing, [CallCheckForAlarm, MenuTimer(AlarmMaxDuration), CallBrightnessSet(0), CallStoreNvram(-1)])
      else (state, [CallCheckForAlarm, CallBrightnessSet(0), CallStoreNvram(-1)])
    case EncoderUp => (state, Turn(state, 1))
    case EncoderDown => (state, Turn(state, -1))
    case TimerExpired =>
      (match state
       case AlarmDisplay => (AlarmSet, [MenuTimer(MenuTimeout)])
       case AlarmGoing => (ClockDisplay, [CallStopAlarm, CallAlarmOff])
       case AlarmGoingPressed =>
         if held then (AlarmGoingOff, [CallAlarmOff, MenuTimer(OffShown)]) else (ClockDisplay, [])
       case OpenWifiApPressed => (ClockDisplay, if held then [CallOpenWifiAp] else [])
       case _ => (ClockDisplay, []))
    case Noop => (state, [])
  }

  /** Turning the encoder adjusts the setting the menu shows. */
  function Turn(state: DisplayState, adjustment: int): seq<Action> {
    match state
    case AlarmSet => [CallAlarmSetTime(adjustment), MenuTimer(MenuTimeout)]
    case SleepTime => [CallSleepSetTime(adjustment), MenuTimer(MenuTimeout)]
    case Brightness => [CallBrightnessSet(adjustment), MenuTimer(MenuTimeout)]
    case _ => []
  }

  /**
   * What one call does to the clock at local time t; the menu timer and
   * the access point leave it alone.
   */
  function Perform(a: Action, c: ClockView, t: Tm): (r: ClockView)
    requires ValidView(c) && 0 <= t.mon < 12
    ensures ValidView(r)
  {
    match a
    case CallAlarmOnOff => SwitchedOnOff(c)
    case CallStopAlarm => Stopped(c)
    case CallAlarmAddSleep => Snoozed(c)
    case CallAlarmOff => Cancelled(c)
    case CallAlarmSetTime(adjustment) => AlarmMoved(c, adjustment)
    case CallSleepSetTime(adjustment) => SleepMoved(c, adjustment)
    case CallBrightnessSet(adjustment) => BrightnessMoved(c, adjustment, t)
    case CallStoreNvram(x) => Stored(c, x)
    case CallCheckForAlarm => Checked(c, t)
    case CallOpenWifiAp => c
    case MenuTimer(_) => c
  }

  /** The calls made one after the other. */
  function PerformAll(acts: seq<Action>, c: ClockView, t: Tm): (r: ClockView)
    requires ValidView(c) && 0 <= t.mon < 12
    ensures ValidView(r)
    decreases |acts|
  {
    if acts == [] then c else PerformAll(acts[1..], Perform(acts[0], c, t), t)
  }

  lemma PerformOne(a: Action, c: ClockView, t: Tm)
    requires ValidView(c) && 0 <= t.mon < 12
    ensures PerformAll([a], c, t) == Perform(a, c, t)
  {
    assert [a][1..] == [];
  }

  lemma PerformTwo(a: Action, b: Action, c: ClockView, t: Tm)
    requires ValidView(c) && 0 <= t.mon < 12
    ensures PerformAll([a, b], c, t) == Perform(b, Perform(a, c, t), t)
  {
    assert [a, b][1..] == [b];
    PerformOne(b, Perform(a, c, t), t);
  }

  lemma PerformThree(a: Action, b: Action, d: Action, c: ClockView, t: Tm)
    requires ValidView(c) && 0 <= t.mon < 12
    ensures PerformAll([a, b, d], c, t) == Perform(d, Perform(b, Perform(a, c, t), t), t)
  {
    assert [a, b, d][1..] == [b, d];
    PerformTwo(b, d, Perform(a, c, t), t);
  }

  lemma PerformFour(a: Action, b: Action, d: Action, e: Action, c: ClockView, t: Tm)
    requires ValidView(c) && 0 <= t.mon < 12
    ensures PerformAll([a, b, d, e], c, t) == Perform(e, Perform(d, Perform(b, Perform(a, c, t), t), t), t)
  {
    assert [a, b, d, e][1..] == [b, d, e];
    PerformThree(b, d, e, Perform(a, c, t), t);
  }

  /** clock_settings before the NVRAM copy is read: entry 0 is a 10:15 alarm playing "bird1". */
  const EmptyEntry := AlarmSound(0, 0, 0, 0, 0, "", false)
  const DefaultClockSettings := ClockSettings(false, 5, 0, true,
    [AlarmSound(10, 15, 0, 0, 0, "bird1", true)] + seq(MaxSoundFiles - 1, _ => EmptyEntry))

  /** The display task's state: display_state and the menu timer periods set. */
  class Menu {
    var state: DisplayState
    var calls: seq<Action>

    constructor ()
      ensures state == ClockDisplay && calls == []
    {
      state := ClockDisplay;
      calls := [];
    }

    /**
     * One event of the display loop, carried out on the alarm engine and
     * the Wi-Fi settings; `t` is the current local time and `held` the
     * button level read when the timer expires.
     */
    method Handle(sig: Signal, clock: Clock, store: SetupStore, t: Tm, held: bool)
      requires clock.Valid() && 0 <= t.mon < 12
      modifies this, clock, store
      ensures clock.Valid()
      ensures var due := sig == MinutePassed && CheckAlarm(t, old(clock.settings), old(clock.nextAlarm)).result == 1;
        var step := Step(old(state), sig, due, held);
        state == step.0 && calls == old(calls) + step.1 && clock.View() == PerformAll(step.1, old(clock.View()), t)
      ensures store.params == (if sig == TimerExpired && old(state) == OpenWifiApPressed && held
                               then Network.OpenApParams(old(store.params)) else old(store.params))
    {
      match sig
      case EncoderPress => Press(clock, t);
      case EncoderPressReleased => Release();
      case MinutePassed => Tick(clock, t);
      case EncoderUp => TurnEncoder(clock, t, 1);
      case EncoderDown => TurnEncoder(clock, t, -1);
      case TimerExpired => Expire(clock, store, t, held);
      case Noop => assert calls + [] == calls;
    }

    /** encoder_press; `t` is the local time, which none of its calls reads. */
    method Press(clock: Clock, t: Tm)
      requires clock.Valid() && 0 <= t.mon < 12
      modifies this, clock
      ensures clock.Valid()
      ensures var step := Step(old(state), EncoderPress, false, false);
        state == step.0 && calls == old(calls) + step.1 && clock.View() == PerformAll(step.1, old(clock.View()), t)
    {
      ghost var v := clock.View();
      match state {
        case ClockDisplay =>
          state := AlarmDisplay;
          calls := calls + [MenuTimer(MenuTimeoutShort)];
          PerformOne(MenuTimer(MenuTimeoutShort), v, t);
        case AlarmDisplay =>
          state := SleepTime;
          calls := calls + [MenuTimer(MenuTimeout)];
          PerformOne(MenuTimer(MenuTimeout), v, t);
        case AlarmSet =>
          clock.AlarmOnOff();
          calls := calls + [CallAlarmOnOff, MenuTimer(MenuTimeout)];
          PerformTwo(CallAlarmOnOff, MenuTimer(MenuTimeout), v, t);
        case SleepTime =>
          state := Brightness;
          calls := calls + [MenuTimer(MenuTimeout)];
          PerformOne(MenuTimer(MenuTimeout), v, t);
        case Brightness =>
          state := OpenWifiAp;
          calls := calls + [MenuTimer(MenuTimeout)];
          PerformOne(MenuTimer(MenuTimeout), v, t);
        case AlarmGoing =>
          clock.StopAlarm();
          clock.AlarmAddSleep();
          state := AlarmGoingPressed;
          calls := calls + [CallStopAlarm, CallAlarmAddSleep, MenuTimer(AlarmLongPress)];
          PerformThree(CallStopAlarm, CallAlarmAddSleep, MenuTimer(AlarmLongPress), v, t);
        case OpenWifiAp =>
          state := OpenWifiApPressed;
          calls := calls + [MenuTimer(WifiOpenApLongPress)];
          PerformOne(MenuTimer(WifiOpenApLongPress), v, t);
        case OpenWifiApPressed =>
          state := ClockDisplay;
          assert calls + [] == calls;
        case _ =>
          assert calls + [] == calls;
      }
    }

    /** encoder_press_released. */
    method Release()
      modifies this
      ensures var step := Step(old(state), EncoderPressReleased, false, false);
        state == step.0 && calls == old(calls) + step.1
    {
      if state == OpenWifiApPressed {
        state := ClockDisplay;
      }
      assert calls + [] == calls;
    }

    /** minute_passed. */
    method Tick(clock: Clock, t: Tm)
      requires clock.Valid() && 0 <= t.mon < 12
      modifies this, clock
      ensures clock.Valid()
      ensures var due := CheckAlarm(t, old(clock.settings), old(clock.nextAlarm)).result == 1;
        var step := Step(old(state), MinutePassed, due, false);
        state == step.0 && calls == old(calls) + step.1 && clock.View() == PerformAll(step.1, old(clock.View()), t)
    {
      ghost var v := clock.View();
      var r := clock.CheckForAlarm(t);
      calls := calls + [CallCheckForAlarm];
      if r == 1 {
        state := AlarmGoing;
        calls := calls + [MenuTimer(AlarmMaxDuration)];
      }
      clock.BrightnessSet(0, t);
      clock.StoreNvram(-1);
      calls := calls + [CallBrightnessSet(0), CallStoreNvram(-1)];
      if r == 1 {
        PerformFour(CallCheckForAlarm, MenuTimer(AlarmMaxDuration), CallBrightnessSet(0), CallStoreNvram(-1), v, t);
      } else {
        PerformThree(CallCheckForAlarm, CallBrightnessSet(0), CallStoreNvram(-1), v, t);
      }
    }

    /** timer_expired; `held` is the button level read when it is needed, and none of its calls reads `t`. */
    method Expire(clock: Clock, store: SetupStore, t: Tm, held: bool)
      requires clock.Valid() && 0 <= t.mon < 12
      modifies this, clock, store
      ensures clock.Valid()
      ensures var step := Step(old(state), TimerExpired, false, held);
        state == step.0 && calls == old(calls) + step.1 && clock.View() == PerformAll(step.1, old(clock.View()), t)
      ensures store.params == (if old(state) == OpenWifiApPressed && held
                               then Network.OpenApParams(old(store.params)) else old(store.params))
    {
      ghost var v := clock.View();
      match state {
        case AlarmDisplay =>
          state := AlarmSet;
          calls := calls + [MenuTimer(MenuTimeout)];
          PerformOne(MenuTimer(MenuTimeout), v, t);
        case AlarmGoing =>
          clock.StopAlarm();
          clock.AlarmOff();
          state := ClockDisplay;
          calls := calls + [CallStopAlarm, CallAlarmOff];
          PerformTwo(CallStopAlarm, CallAlarmOff, v, t);
        case AlarmGoingPressed =>
          if held {
            clock.AlarmOff();
            state := AlarmGoingOff;
            calls := calls + [CallAlarmOff, MenuTimer(OffShown)];
            PerformTwo(CallAlarmOff, MenuTimer(OffShown), v, t);
          } else {
            state := ClockDisplay;
            assert calls + [] == calls;
          }
        case OpenWifiApPressed =>
          if held {
            Network.OpenWifiAp(store);
            calls := calls + [CallOpenWifiAp];
            PerformOne(CallOpenWifiAp, v, t);
          } else {
            assert calls + [] == calls;
          }
          state := ClockDisplay;
        case _ =>
          state := ClockDisplay;
          assert calls + [] == calls;
      }
    }

    /** encoder_up and encoder_down: only the three setting screens react. */
    method TurnEncoder(clock: Clock, t: Tm, adjustment: int)
      requires clock.Valid() && 0 <= t.mon < 12
      modifies this, clock
      ensures clock.Valid()
      ensures state == old(state) && calls == old(calls) + Turn(old(state), adjustment)
      ensures clock.View() == PerformAll(Turn(old(state), adjustment), old(clock.View()), t)
    {
      ghost var v := clock.View();
      match state {
        case AlarmSet =>
          clock.AlarmSetTime(adjustment);
          calls := calls + [CallAlarmSetTime(adjustment), MenuTimer(MenuTimeout)];
          PerformTwo(CallAlarmSetTime(adjustment), MenuTimer(MenuTimeout), v, t);
        case SleepTime =>
          clock.SleepSetTime(adjustment);
          calls := calls + [CallSleepSetTime(adjustment), MenuTimer(MenuTimeout)];
          PerformTwo(CallSleepSetTime(adjustment), MenuTimer(MenuTimeout), v, t);
        case Brightness =>
          clock.BrightnessSet(adjustment, t);
          calls := calls + [CallBrightnessSet(adjustment), MenuTimer(MenuTimeout)];
          PerformTwo(CallBrightnessSet(adjustment), MenuTimer(MenuTimeout), v, t);
        case _ =>
          assert calls + [] == calls;
      }
    }
  }

  // ----- Properties of the menu

  /** Pressing the button walks the menu round from the clock back to the clock in six presses. */
  lemma PressCycle(due: bool, held: bool)
    ensures Step(ClockDisplay, EncoderPress, due, held).0 == AlarmDisplay
    ensures Step(AlarmDisplay, EncoderPress, due, held).0 == SleepTime
    ensures Step(SleepTime, EncoderPress, due, held).0 == Brightness
    ensures Step(Brightness, EncoderPress, due, held).0 == OpenWifiAp
    ensures Step(OpenWifiAp, EncoderPress, due, held).0 == OpenWifiApPressed
    ensures Step(OpenWifiApPressed, EncoderPress, due, held).0 == ClockDisplay
  {
  }

  /** In the alarm-setting screen a press toggles the alarm and stays. */
  lemma PressTogglesAlarm(due: bool, held: bool)
    ensures Step(AlarmSet, EncoderPress, due, held) == (AlarmSet, [CallAlarmOnOff, MenuTimer(MenuTimeout)])
  {
  }

  /** A press while the alarm sounds stops it and snoozes before anything else. */
  lemma PressSnoozes(due: bool, held: bool)
    ensures var s := Step(AlarmGoing, EncoderPress, due, held);
      s.0 == AlarmGoingPressed && s.1[..2] == [CallStopAlarm, CallAlarmAddSleep]
  {
  }

  /**
   * Every minute tick checks the alarm, adjusts the brightness for the time
   * of day and advances the NVRAM delay; it moves to the alarm screen from
   * any state exactly when the alarm is due, and otherwise keeps the state.
   */
  lemma MinuteTick(state: DisplayState, due: bool, held: bool)
    ensures var s := Step(state, MinutePassed, due, held);
      && (s.0 == AlarmGoing <==> due || state == AlarmGoing)
      && (!due ==> s.0 == state)
      && s.1[0] == CallCheckForAlarm
      && s.1[|s.1| - 2..] == [CallBrightnessSet(0), CallStoreNvram(-1)]
  {
  }

  /** A press in the alarm-setting screen flips the alarm flag, requests a write and plays nothing. */
  lemma PressTogglesClock(c: ClockView, t: Tm)
    requires ValidView(c) && 0 <= t.mon < 12
    ensures var r := PerformAll(Step(AlarmSet, EncoderPress, false, false).1, c, t);
      && r.settings.alarmOn == !c.settings.alarmOn
      && r.settings.alarmSounds == c.settings.alarmSounds
      && (c.settings.alarmOn ==> r.nextAlarm.hour == BogusHour)
      && r.storeCount == 1 && r.nvramWrites == c.nvramWrites && r.audio == c.audio
  {
    PerformTwo(CallAlarmOnOff, MenuTimer(MenuTimeout), c, t);
  }

  /** A press while the alarm sounds stops the sound and moves the pending alarm by the snooze length. */
  lemma PressSnoozesClock(c: ClockView, t: Tm)
    requires ValidView(c) && 0 <= t.mon < 12
    ensures var r := PerformAll(Step(AlarmGoing, EncoderPress, false, false).1, c, t);
      && r.audio == c.audio + [StopSound]
      && (r.nextAlarm.hour, r.nextAlarm.minute) == AddSleep(c.nextAlarm.hour, c.nextAlarm.minute, c.settings.sleepMinutes)
      && r.settings == c.settings && r.storeCount == c.storeCount && r.nvramWrites == c.nvramWrites
  {
    PerformThree(CallStopAlarm, CallAlarmAddSleep, MenuTimer(AlarmLongPress), c, t);
  }

  /**
   * A minute tick keeps the settings, takes the pending alarm and the sounds
   * from CheckAlarm, sends the dimmed level of the unchanged brightness,
   * and advances the NVRAM delay by one tick.
   */
  lemma MinuteTickClock(state: DisplayState, due: bool, c: ClockView, t: Tm)
    requires ValidView(c) && 0 <= t.mon < 12
    ensures var r := PerformAll(Step(state, MinutePassed, due, false).1, c, t);
      var a := CheckAlarm(t, c.settings, c.nextAlarm);
      && r.settings == c.settings
      && r.nextAlarm == a.next && r.audio == c.audio + a.played
      && r.brightnessSent == c.brightnessSent + [Dimmed(c.settings.brightness, t)]
      && r.storeCount == StoreStep(c.storeCount, -1).0
      && r.nvramWrites == c.nvramWrites + (if StoreStep(c.storeCount, -1).1 then [c.settings] else [])
  {
    if due {
      PerformFour(CallCheckForAlarm, MenuTimer(AlarmMaxDuration), CallBrightnessSet(0), CallStoreNvram(-1), c, t);
    } else {
      PerformThree(CallCheckForAlarm, CallBrightnessSet(0), CallStoreNvram(-1), c, t);
    }
  }

  /**
   * The menu timer ending a sounding alarm stops the sound and cancels the
   * pending alarm, switching the alarm off unless it is on by default.
   */
  lemma TimerEndsAlarmClock(c: ClockView, t: Tm, held: bool)
    requires ValidView(c) && 0 <= t.mon < 12
    ensures var r := PerformAll(Step(AlarmGoing, TimerExpired, false, held).1, c, t);
      && r.audio == c.audio + [StopSound]
      && r.nextAlarm == c.nextAlarm.(hour := BogusHour)
      && r.settings.alarmOn == (c.settings.alarmOn && c.settings.defaultOn)
      && r.settings.alarmSounds == c.settings.alarmSounds
  {
    PerformTwo(CallStopAlarm, CallAlarmOff, c, t);
  }

  /** Turning in a setting screen adjusts that one setting and leaves the alarm table's other entries alone. */
  lemma TurnAdjustsClock(state: DisplayState, adjustment: int, c: ClockView, t: Tm)
    requires ValidView(c) && 0 <= t.mon < 12
    ensures var r := PerformAll(Turn(state, adjustment), c, t);
      && (state == AlarmSet ==>
            (r.settings.alarmSounds[0].hour, r.settings.alarmSounds[0].minute)
              == AdjustAlarm(c.settings.alarmSounds[0].hour, c.settings.alarmSounds[0].minute, adjustment)
            && r.settings.alarmSounds[1..] == c.settings.alarmSounds[1..] && r.storeCount == 1)
      && (state == SleepTime ==>
            r.settings == c.settings.(sleepMinutes := SleepAdjust(c.settings.sleepMinutes, adjustment)) && r.storeCount == 1)
      && (state == Brightness ==>
            r.settings == c.settings.(brightness := BrightnessAdjust(c.settings.brightness, adjustment))
            && r.brightnessSent == c.brightnessSent + [Dimmed(r.settings.brightness, t)])
      && (state !in {AlarmSet, SleepTime, Brightness} ==> r == c)
      && r.audio == c.audio && r.nvramWrites == c.nvramWrites
  {
    match state {
      case AlarmSet => PerformTwo(CallAlarmSetTime(adjustment), MenuTimer(MenuTimeout), c, t);
      case SleepTime => PerformTwo(CallSleepSetTime(adjustment), MenuTimer(MenuTimeout), c, t);
      case Brightness => PerformTwo(CallBrightnessSet(adjustment), MenuTimer(MenuTimeout), c, t);
      case _ =>
    }
  }

  /** Turning the encoder never changes the state and acts only on the three setting screens. */
  lemma TurnOnlyInSettings(state: DisplayState, sig: Signal, due: bool, held: bool)
    requires sig == EncoderUp || sig == EncoderDown
    ensures var s := Step(state, sig, due, held);
      s.0 == state && (s.1 != [] <==> state in {AlarmSet, SleepTime, Brightness})
  {
  }

  /**
   * The menu timer returns every screen to the clock, except that the alarm
   * screen goes to setting the alarm and a long press while the alarm
   * sounds shows that it is off; the open access point is started only by
   * a long press.
   */
  lemma TimerTransitions(state: DisplayState, due: bool, held: bool)
    ensures var s := Step(state, TimerExpired, due, held);
      && (state == AlarmDisplay ==> s.0 == AlarmSet)
      && (state == AlarmGoingPressed && held ==> s.0 == AlarmGoingOff && s.1[0] == CallAlarmOff)
      && (state == AlarmGoing ==> s.0 == ClockDisplay && s.1 == [CallStopAlarm, CallAlarmOff])
      && (state != AlarmDisplay && !(state == AlarmGoingPressed && held) ==> s.0 == ClockDisplay)
      && (CallOpenWifiAp in s.1 <==> state == OpenWifiApPressed && held)
  {
  }

  /** Releasing the button changes the state only from the open-access-point prompt, to the clock. */
  lemma ReleaseOnlyFromPrompt(state: DisplayState, due: bool, held: bool)
    ensures var s := Step(state, EncoderPressReleased, due, held);
      s.1 == [] && (s.0 != state <==> state == OpenWifiApPressed) && (s.0 != state ==> s.0 == ClockDisplay)
  {
  }

  /** The default settings have twenty entries, every field in the range the settings API accepts. */
  lemma DefaultSettingsValid()
    ensures ValidSounds(DefaultClockSettings)
    ensures forall i :: 0 <= i < MaxSoundFiles ==>
      var e := DefaultClockSettings.alarmSounds[i];
      0 <= e.hour < 24 && 0 <= e.minute < 60 && Utf8Length(e.soundfile) < MaxSoundFileLength
  {
  }
}
