/** The go-e charger adapter (devicegoe.py): the `/status` JSON record and the
    `/mqtt?payload=` command endpoint of the go-eCharger HTTP API v1. */
module Goe {
  import opened Common
  import opened Numbers
  import opened PyDict
  import opened ChargerBase

  const STATUS_PATH: string := "/status"
  const MQTT_PREFIX: string := "/mqtt?payload="
  const AMP_PREFIX: string := "amp="

  /** A value of the status record: a JSON string, the `str()` of a number
      whose rendering as a Python float is not modelled, or the `nrg` array. */
  datatype JsonValue = JStr(s: string) | JNumText(x: real) | JNumbers(xs: seq<real>)

  /** The vendor `car` code for a minute of the session: 2 while charging,
      4 while stopped with the cable still in, 1 otherwise. The charging
      window wins where the two overlap. */
  function CarCode(w: Window, m: int): (car: int)
    ensures car == 2 <==> InCharging(w, m)
    ensures car == 4 <==> !InCharging(w, m) && InStopped(w, m)
    ensures car == 1 <==> !InCharging(w, m) && !InStopped(w, m)
  {
    if InCharging(w, m) then 2
    else if InStopped(w, m) then 4
    else 1
  }

  /** The `nrg` array: voltages L1-L3, 0, currents L1-L3 in 0.1 A, per-phase
      power, 0, total power in 0.01 kW, four zeros. */
  function Nrg(u: Phases, i: Phases, power: real): (nrg: seq<real>)
    ensures |nrg| == 16
    ensures nrg[0] == u.l1 && nrg[1] == u.l2 && nrg[2] == u.l3
    ensures nrg[4] == i.l1 * 10.0 && nrg[5] == i.l2 * 10.0 && nrg[6] == i.l3 * 10.0
    ensures nrg[7] == u.l1 * i.l1 / 100.0 && nrg[8] == u.l2 * i.l2 / 100.0 && nrg[9] == u.l3 * i.l3 / 100.0
    ensures nrg[11] == power / 10.0
    ensures nrg[3] == 0.0 && nrg[10] == 0.0
    ensures forall k :: 12 <= k < 16 ==> nrg[k] == 0.0
  {
    [u.l1, u.l2, u.l3, 0.0,
     i.l1 * 10.0, i.l2 * 10.0, i.l3 * 10.0,
     u.l1 * i.l1 / 100.0, u.l2 * i.l2 / 100.0, u.l3 * i.l3 / 100.0, 0.0,
     power / 10.0,
     0.0, 0.0, 0.0, 0.0]
  }

  /** The keys of the record up to and including `wst`, with their values. */
  function StatusHead(v: DeviceView, car: int): seq<Entry<JsonValue>> {
    [Entry("version", JStr("B")),
     Entry("rbc", JStr("251")),
     Entry("rbt", JStr("2208867")),
     Entry("car", JStr(Str(car))),
     Entry("amp", JStr("10")),
     Entry("err", JStr("0")),
     Entry("ast", JStr("0")),
     Entry("alw", JStr("1")),
     Entry("stp", JStr("0")),
     Entry("cbl", JStr("0")),
     Entry("pha", JStr("8")),
     Entry("tmp", JStr("30")),
     Entry("dws", JNumText(v.eSession * 360000.0)),
     Entry("dwo", JStr("0")),
     Entry("adi", JStr("1")),
     Entry("uby", JStr("0")),
     Entry("eto", JNumText(v.eTotal * 10.0)),
     Entry("wst", JStr("3"))]
  }

  /** The keys from `nrg` up to and including the second `amp`. */
  function StatusMiddle(v: DeviceView): seq<Entry<JsonValue>> {
    [Entry("nrg", JNumbers(Nrg(v.curU, v.curI, v.curPower))),
     Entry("fwv", JStr("020-rc1")),
     Entry("sse", JStr("000000")),
     Entry("wss", JStr("goe")),
     Entry("wke", JStr("")),
     Entry("wen", JStr("1")),
     Entry("tof", JStr("101")),
     Entry("tds", JStr("1")),
     Entry("lbr", JStr("255")),
     Entry("aho", JStr("2")),
     Entry("afi", JStr("8")),
     Entry("ama", JStr(Str(v.devMaxI))),
     Entry("amp", JStr(Str(v.reqMaxI)))]
  }

  /** The always-constant diagnostic keys after the second `amp`. */
  function StatusTail(): seq<Entry<JsonValue>> {
    [Entry("al1", JStr("11")), Entry("al2", JStr("12")), Entry("al3", JStr("15")),
     Entry("al4", JStr("24")), Entry("al5", JStr("31")),
     Entry("cid", JStr("255")), Entry("cch", JStr("65535")), Entry("cfi", JStr("65280")),
     Entry("lse", JStr("0")), Entry("ust", JStr("0")), Entry("wak", JStr("")),
     Entry("r1x", JStr("2")), Entry("dto", JStr("0")), Entry("nmo", JStr("0")),
     Entry("eca", JStr("0")), Entry("ecr", JStr("0")), Entry("ecd", JStr("0")),
     Entry("ec4", JStr("0")), Entry("ec5", JStr("0")), Entry("ec6", JStr("0")),
     Entry("ec7", JStr("0")), Entry("ec8", JStr("0")), Entry("ec9", JStr("0")),
     Entry("ec1", JStr("0")),
     Entry("rca", JStr("")), Entry("rcr", JStr("")), Entry("rcd", JStr("")),
     Entry("rc4", JStr("")), Entry("rc5", JStr("")), Entry("rc6", JStr("")),
     Entry("rc7", JStr("")), Entry("rc8", JStr("")), Entry("rc9", JStr("")),
     Entry("rc1", JStr("")),
     Entry("rna", JStr("")), Entry("rnm", JStr("")), Entry("rne", JStr("")),
     Entry("rn4", JStr("")), Entry("rn5", JStr("")), Entry("rn6", JStr("")),
     Entry("rn7", JStr("")), Entry("rn8", JStr("")), Entry("rn9", JStr("")),
     Entry("rn1", JStr(""))]
  }

  /** The dict literal of `handle_get_data`, pairs in source order (`amp` twice). */
  function StatusLiteral(v: DeviceView, now: Instant): seq<Entry<JsonValue>> {
    var car := CarCode(v.window, MinuteInSession(now.minute, v.sessionStart));
    StatusHead(v, car) + StatusMiddle(v) + StatusTail()
  }

  /** The record `json.dumps` serialises for `/status`. */
  function StatusRecord(v: DeviceView, now: Instant): (rec: seq<Entry<JsonValue>>)
    ensures UniqueKeys(rec)
  {
    FromLiteral(StatusLiteral(v, now))
  }

  lemma TailKeys()
    ensures forall i :: 0 <= i < |StatusTail()| ==>
              StatusTail()[i].key !in {"amp", "ama", "car", "nrg", "dws", "eto"}
  {
  }

  /** The record reports `amp` as `str(req_max_i)`: the later pair of the
      literal overrides the constant "10". */
  lemma StatusAmp(v: DeviceView, now: Instant)
    ensures Get(StatusRecord(v, now), "amp") == Some(JStr(Str(v.reqMaxI)))
  {
    var car := CarCode(v.window, MinuteInSession(now.minute, v.sessionStart));
    var hm := StatusHead(v, car) + StatusMiddle(v);
    TailKeys();
    LastValueAppend(hm, StatusTail(), "amp");
    assert hm[|hm| - 1] == Entry("amp", JStr(Str(v.reqMaxI)));
    GetFromLiteral(StatusLiteral(v, now), "amp");
  }

  /** The record reports `ama` as `str(_DEV_MAX_I)`. */
  lemma StatusAma(v: DeviceView, now: Instant)
    ensures Get(StatusRecord(v, now), "ama") == Some(JStr(Str(v.devMaxI)))
  {
    var car := CarCode(v.window, MinuteInSession(now.minute, v.sessionStart));
    var hm := StatusHead(v, car) + StatusMiddle(v);
    TailKeys();
    LastValueAppend(hm, StatusTail(), "ama");
    assert hm[|hm| - 1].key == "amp";
    var h := hm[..|hm| - 1];
    assert h[|h| - 1] == Entry("ama", JStr(Str(v.devMaxI)));
    GetFromLiteral(StatusLiteral(v, now), "ama");
  }

  /** The record's `car` is the code of the current minute of the session. */
  lemma StatusCar(v: DeviceView, now: Instant)
    ensures Get(StatusRecord(v, now), "car") ==
              Some(JStr(Str(CarCode(v.window, MinuteInSession(now.minute, v.sessionStart)))))
  {
    var car := CarCode(v.window, MinuteInSession(now.minute, v.sessionStart));
    var head := StatusHead(v, car);
    var middle := StatusMiddle(v);
    TailKeys();
    assert forall i :: 0 <= i < |middle| ==> middle[i].key != "car";
    LastValueAppend(head + middle, StatusTail(), "car");
    LastValueAppend(head, middle, "car");
    assert head == head[..4] + head[4..];
    assert forall i :: 0 <= i < |head[4..]| ==> head[4..][i].key != "car";
    LastValueAppend(head[..4], head[4..], "car");
    GetFromLiteral(StatusLiteral(v, now), "car");
  }

  /** The record's `nrg` is the 16-slot array of the device's phase values. */
  lemma StatusNrg(v: DeviceView, now: Instant)
    ensures Get(StatusRecord(v, now), "nrg") == Some(JNumbers(Nrg(v.curU, v.curI, v.curPower)))
  {
    var car := CarCode(v.window, MinuteInSession(now.minute, v.sessionStart));
    var middle := StatusMiddle(v);
    TailKeys();
    LastValueAppend(StatusHead(v, car) + middle, StatusTail(), "nrg");
    assert StatusHead(v, car) + middle == (StatusHead(v, car) + middle[..1]) + middle[1..];
    assert forall i :: 0 <= i < |middle[1..]| ==> middle[1..][i].key != "nrg";
    LastValueAppend(StatusHead(v, car) + middle[..1], middle[1..], "nrg");
    GetFromLiteral(StatusLiteral(v, now), "nrg");
  }

  /** The record's `dws` is the session energy scaled by 360000. */
  lemma StatusDws(v: DeviceView, now: Instant)
    ensures Get(StatusRecord(v, now), "dws") == Some(JNumText(v.eSession * 360000.0))
  {
    var car := CarCode(v.window, MinuteInSession(now.minute, v.sessionStart));
    var head := StatusHead(v, car);
    var middle := StatusMiddle(v);
    var x := Some(JNumText(v.eSession * 360000.0));
    assert LastValue(head, "dws") == x by {
      LastValueAt(head, 12);
    }
    assert LastValue(head + middle, "dws") == x by {
      assert forall i :: 0 <= i < |middle| ==> middle[i].key != "dws";
      LastValueAppend(head, middle, "dws");
    }
    assert LastValue(StatusLiteral(v, now), "dws") == x by {
      TailKeys();
      LastValueAppend(head + middle, StatusTail(), "dws");
    }
    GetFromLiteral(StatusLiteral(v, now), "dws");
  }

  /** The record's `eto` is the total energy scaled by 10 (0.1 kWh). */
  lemma StatusEto(v: DeviceView, now: Instant)
    ensures Get(StatusRecord(v, now), "eto") == Some(JNumText(v.eTotal * 10.0))
  {
    var car := CarCode(v.window, MinuteInSession(now.minute, v.sessionStart));
    var head := StatusHead(v, car);
    var middle := StatusMiddle(v);
    var x := Some(JNumText(v.eTotal * 10.0));
    assert LastValue(head, "eto") == x by {
      LastValueAt(head, 16);
    }
    assert LastValue(head + middle, "eto") == x by {
      assert forall i :: 0 <= i < |middle| ==> middle[i].key != "eto";
      LastValueAppend(head, middle, "eto");
    }
    assert LastValue(StatusLiteral(v, now), "eto") == x by {
      TailKeys();
      LastValueAppend(head + middle, StatusTail(), "eto");
    }
    GetFromLiteral(StatusLiteral(v, now), "eto");
  }

  /** `amp` keeps the position of its first pair: fifth in the record. */
  lemma StatusAmpPosition(v: DeviceView, now: Instant)
    ensures |StatusRecord(v, now)| > 4 && StatusRecord(v, now)[4].key == "amp"
  {
    var car := CarCode(v.window, MinuteInSession(now.minute, v.sessionStart));
    var lit := StatusLiteral(v, now);
    LeadingKeysOfHead(v, car);
    assert lit[..5] == StatusHead(v, car)[..5];
    LeadingPositions(lit);
  }

  /** A literal that starts with the five distinct keys of `LeadingKeys()`
      yields a dict whose first five keys are those. */
  lemma {:induction false} LeadingPositions<V>(lit: seq<Entry<V>>)
    requires |lit| >= 5 && Keys(lit[..5]) == LeadingKeys()
    ensures |FromLiteral(lit)| > 4 && FromLiteral(lit)[4].key == "amp"
  {
    var rest := Keys(lit[5..]);
    var ks := Keys(lit);
    assert ks == LeadingKeys() + rest by {
      KeysAppend(lit[..5], lit[5..]);
      assert lit[..5] + lit[5..] == lit;
    }
    LeadingKeysFirst(rest);
    var d := FromLiteral(lit);
    assert Keys(d) == FirstOccurrences(ks) by {
      KeysFromLiteral(lit);
    }
    assert Keys(d)[4] == "amp";
  }

  lemma {:induction false} LeadingKeysFirst(rest: seq<string>)
    ensures |FirstOccurrences(LeadingKeys() + rest)| > 4
    ensures FirstOccurrences(LeadingKeys() + rest)[4] == "amp"
  {
    FirstOccurrencesKeepsPrefix(LeadingKeys(), rest);
    LeadingKeysDistinct();
  }

  lemma KeysAppend<V>(a: seq<Entry<V>>, b: seq<Entry<V>>)
    ensures Keys(a + b) == Keys(a) + Keys(b)
  {
  }

  function LeadingKeys(): seq<string> {
    ["version", "rbc", "rbt", "car", "amp"]
  }

  lemma LeadingKeysDistinct()
    ensures FirstOccurrences(LeadingKeys()) == LeadingKeys()
  {
    FirstOccurrencesOfDistinct(LeadingKeys());
  }

  lemma LeadingKeysOfHead(v: DeviceView, car: int)
    ensures Keys(StatusHead(v, car)[..5]) == LeadingKeys()
  {
  }

  lemma {:induction false} FirstOccurrencesKeepsPrefix(a: seq<string>, b: seq<string>)
    ensures |FirstOccurrences(a + b)| >= |FirstOccurrences(a)|
    ensures FirstOccurrences(a + b)[..|FirstOccurrences(a)|] == FirstOccurrences(a)
    decreases |b|
  {
    if b == [] {
      assert a + b == a;
    } else {
      var w := a + b;
      assert w[..|w| - 1] == a + b[..|b| - 1];
      FirstOccurrencesKeepsPrefix(a, b[..|b| - 1]);
    }
  }

  lemma {:induction false} FirstOccurrencesOfDistinct(ks: seq<string>)
    requires forall i, j :: 0 <= i < j < |ks| ==> ks[i] != ks[j]
    ensures FirstOccurrences(ks) == ks
    decreases |ks|
  {
    if ks != [] {
      var n := |ks| - 1;
      var front := ks[..n];
      assert forall i, j :: 0 <= i < j < |front| ==> front[i] != front[j] by {
        forall i, j | 0 <= i < j < |front| ensures front[i] != front[j] {
          assert front[i] == ks[i] && front[j] == ks[j];
        }
      }
      FirstOccurrencesOfDistinct(front);
      assert ks[n] !in front by {
        forall i | 0 <= i < |front| ensures front[i] != ks[n] {
          assert front[i] == ks[i];
        }
      }
      assert front + [ks[n]] == ks;
    }
  }

  /** The as-written `/status` path: devicegoe.py calls `datetime.now()`
      without importing `datetime`, so the name lookup fails. */
  function GetDataAsWritten(urlPath: string): (r: Reply<seq<Entry<JsonValue>>>)
    ensures urlPath == STATUS_PATH ==> r == Raised(NameError)
    ensures urlPath != STATUS_PATH ==> r == Delegated
  {
    if urlPath != STATUS_PATH then Delegated else Raised(NameError)
  }

  /** As written, no request ever obtains a status record. */
  lemma AsWrittenNeverAnswers(urlPath: string)
    ensures !GetDataAsWritten(urlPath).Answer?
  {
  }

  /** What `handle_post_data` does for a path: the current it sets, if any. */
  datatype Command = NotMqtt | SetCurrent(amps: int) | BadCurrent | Unhandled

  /** The command a POST path carries. */
  function ParseCommand(urlPath: string): (c: Command)
    ensures c.NotMqtt? <==> !StartsWith(urlPath, MQTT_PREFIX)
    ensures c.Unhandled? <==>
              StartsWith(urlPath, MQTT_PREFIX) && !StartsWith(urlPath[|MQTT_PREFIX|..], AMP_PREFIX)
    ensures StartsWith(urlPath, MQTT_PREFIX) && StartsWith(urlPath[|MQTT_PREFIX|..], AMP_PREFIX) ==>
              var amps := ParseInt(urlPath[|MQTT_PREFIX| + |AMP_PREFIX|..]);
              (amps.Some? ==> c == SetCurrent(amps.value)) && (amps.None? ==> c == BadCurrent)
  {
    if !StartsWith(urlPath, MQTT_PREFIX) then NotMqtt
    else
      var command := urlPath[|MQTT_PREFIX|..];
      if StartsWith(command, AMP_PREFIX) then
        match ParseInt(command[|AMP_PREFIX|..])
        case Some(n) => SetCurrent(n)
        case None => BadCurrent
      else Unhandled
  }

  /** `amp=N` written with `str(N)` is read back as N. */
  lemma ParseAmpCommand(n: int)
    ensures ParseCommand(MQTT_PREFIX + AMP_PREFIX + Str(n)) == SetCurrent(n)
  {
    var p := MQTT_PREFIX + AMP_PREFIX + Str(n);
    assert p[..|MQTT_PREFIX|] == MQTT_PREFIX;
    var command := p[|MQTT_PREFIX|..];
    assert command == AMP_PREFIX + Str(n);
    assert command[..|AMP_PREFIX|] == AMP_PREFIX;
    assert command[|AMP_PREFIX|..] == Str(n);
    ParseStr(n);
  }

  class DeviceGoe {
    const base: Charger

    constructor ()
      ensures base.Valid() && fresh(base)
      ensures base.curPower == 0.0 && base.soc == START_SOC
    {
      base := new Charger();
    }

    /** GET: `/status` yields the status record of the instant `now`; every other
        path goes to the base class. */
    method HandleGetData(urlPath: string, now: Instant) returns (r: Reply<seq<Entry<JsonValue>>>)
      ensures r.Delegated? <==> urlPath != STATUS_PATH
      ensures urlPath == STATUS_PATH ==> r == Answer(StatusRecord(base.View(), now))
      ensures r.Answer? ==> UniqueKeys(r.body)
      ensures r.Answer? ==> Get(r.body, "amp") == Some(JStr(Str(base.reqMaxI)))
      ensures r.Answer? ==> Get(r.body, "ama") == Some(JStr(Str(base.devMaxI)))
      ensures r.Answer? ==> r.body == StatusRecord(base.View(), now)
    {
      if urlPath != STATUS_PATH {
        return Delegated;
      }
      StatusAmp(base.View(), now);
      StatusAma(base.View(), now);
      r := Answer(StatusRecord(base.View(), now));
    }

    /** POST: `/mqtt?payload=amp=N` sets `req_max_i` to N; any other payload is
        ignored; both answer "". A non-integer N raises `ValueError` with
        nothing changed. Paths outside `/mqtt?payload=` go to the base class. */
    method HandlePostData(urlPath: string, postData: string) returns (r: Reply<string>)
      modifies base`reqMaxI
      ensures ParseCommand(urlPath).SetCurrent? ==>
                r == Answer("") && base.reqMaxI == ParseCommand(urlPath).amps
      ensures ParseCommand(urlPath).Unhandled? ==>
                r == Answer("") && base.reqMaxI == old(base.reqMaxI)
      ensures ParseCommand(urlPath).BadCurrent? ==>
                r == Raised(ValueError) && base.reqMaxI == old(base.reqMaxI)
      ensures ParseCommand(urlPath).NotMqtt? ==>
                r == Delegated && base.reqMaxI == old(base.reqMaxI)
    {
      if !StartsWith(urlPath, MQTT_PREFIX) {
        return Delegated;
      }
      var command := urlPath[|MQTT_PREFIX|..];
      if StartsWith(command, AMP_PREFIX) {
        var amps := ParseInt(command[|AMP_PREFIX|..]);
        if amps.None? {
          return Raised(ValueError);
        }
        base.reqMaxI := amps.value;
      }
      r := Answer("");
    }
  }
}
