/** Types shared by the charger base class and both vendor adapters. */
module Common {

  datatype Option<+T> = None | Some(value: T)

  /** The Python exceptions a handler of this model can raise. */
  datatype PyError =
    | ValueError   // int() applied to text that is not an integer
    | ParseError   // xml.etree.ElementTree.fromstring on a body that is not XML
    | NameError    // a name the module never imported

  /** What an HTTP handler does with a request: answers with a body, hands the
      request to the base class `Charger`, or raises. */
  datatype Reply<+T> = Answer(body: T) | Delegated | Raised(error: PyError)

  /** A minute of the hour, as `datetime.minute` gives it. */
  type Minute = m: int | 0 <= m < 60

  /** One reading of the wall clock (`datetime.now()`): its minute of the hour
      and its POSIX timestamp in seconds. */
  datatype Instant = Instant(minute: Minute, timestamp: real)

  /** A value per phase L1, L2, L3 (the lists `cur_i` and `cur_u`). */
  datatype Phases = Phases(l1: real, l2: real, l3: real)

  /** The three minute-of-session bounds `_CHARGING_START`, `_CHARGING_STOP`
      and `_CHARGING_CABLE_CAR_OFF`. No order between them is assumed. */
  datatype Window = Window(chargingStart: int, chargingStop: int, cableCarOff: int)

  predicate InCharging(w: Window, m: int) {
    w.chargingStart <= m < w.chargingStop
  }

  predicate InStopped(w: Window, m: int) {
    w.chargingStop <= m < w.cableCarOff
  }

  /** `(datetime.now().minute - self._session_start) % 60`: the minute within the
      hourly session. Python's `%` with a positive divisor never yields a
      negative remainder, as Dafny's does not. */
  function MinuteInSession(minute: Minute, sessionStart: int): (m: int)
    ensures 0 <= m < 60
    ensures (minute - sessionStart - m) % 60 == 0
    ensures 0 <= sessionStart <= minute ==> m == minute - sessionStart
    ensures minute < sessionStart <= minute + 60 ==> m == minute - sessionStart + 60
  {
    (minute - sessionStart) % 60
  }

  predicate StartsWith(s: string, prefix: string) {
    |prefix| <= |s| && s[..|prefix|] == prefix
  }
}
