// The persistent settings shared by the tasks: the network parameters
// (setupparams_t) and the clock and alarm table (clock_settings_t), with the
// sizes of their character buffers.
module Settings {
  import opened Text

  /** Bytes of the character buffers in setupparams_t, terminator included. */
  const NameSize := 32
  const SsidSize := 33
  const PasswordSize := 65
  const TimezoneSize := 40
  const NtpServerSize := 40

  /** The default time zone descriptor and time server. */
  const DefaultTimezone := "CET-1CES-2,M3.5.0/2,M10.5.0/3"
  const DefaultNtpServer := "pool.ntp.org"

  /** The alarm table has this many entries, and a sound name this many bytes. */
  const MaxSoundFiles := 20
  const MaxSoundFileLength := 20

  /**
   * setupparams_t; the character buffers hold their text without the
   * terminator. wifimode is 0 (no Wi-Fi), 1 (access point), 2 (both) or 3
   * (station). The five addresses hold four bytes each.
   */
  datatype SetupParams = SetupParams(
    name: string,
    apssid: string,
    appwd: string,
    apchannel: int,
    wifimode: int,
    stssid: string,
    stpwd: string,
    ipmode: int,
    ip: seq<int>,
    mask: seq<int>,
    gw: seq<int>,
    dns1: seq<int>,
    dns2: seq<int>,
    timezone: string,
    ntpserver: string)

  /** Every text fits its buffer together with its terminator, counted in bytes. */
  predicate BuffersFit(p: SetupParams) {
    && Utf8Length(p.name) < NameSize
    && Utf8Length(p.apssid) < SsidSize && Utf8Length(p.appwd) < PasswordSize
    && Utf8Length(p.stssid) < SsidSize && Utf8Length(p.stpwd) < PasswordSize
    && Utf8Length(p.timezone) < TimezoneSize && Utf8Length(p.ntpserver) < NtpServerSize
  }

  /** The address fields hold four bytes each. */
  predicate AddressesWellFormed(p: SetupParams) {
    && |p.ip| == 4 && |p.mask| == 4 && |p.gw| == 4 && |p.dns1| == 4 && |p.dns2| == 4
  }

  /** The global setupparams, the images written to NVRAM and the Wi-Fi change signals sent. */
  class SetupStore {
    var params: SetupParams
    var nvramWrites: seq<SetupParams>
    var changeEvents: nat

    constructor (p: SetupParams)
      ensures params == p && nvramWrites == [] && changeEvents == 0
    {
      params := p;
      nvramWrites := [];
      changeEvents := 0;
    }
  }

  /** alarmsounds_t: a time, a date or weekday filter, a sound name and the alarm flag. */
  datatype AlarmSound = AlarmSound(
    hour: int,
    minute: int,
    month: int,
    day: int,
    weekday: int,
    soundfile: string,
    isAlarm: bool)

  /** clock_settings_t; entry 0 of the table is the alarm. */
  datatype ClockSettings = ClockSettings(
    alarmOn: bool,
    sleepMinutes: int,
    brightness: int,
    defaultOn: bool,
    alarmSounds: seq<AlarmSound>)
}
