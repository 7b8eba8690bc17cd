/** The Circontrol charger adapter (devicecircontrol.py): three XML read
    endpoints rendered from one `data` dict, and two current-setting write
    endpoints. */
module Circontrol {
  import opened Common
  import opened Numbers
  import opened ChargerBase
  import Goe

  const SOCKET_INFO_PATH: string := "/services/cpi/socketInfo.xml"
  const CHARGE_INFO_PATH: string := "/services/cpi/chargeInfo.xml"
  const CHARGE_STATE_PATH: string := "/services/cpi/chargeState.xml"
  const REDUCE_CURRENT_PATH: string := "/services/cpi/reduceCurrent.xml"
  const PLUG_CURRENT_PATH: string := "/services/cpi/plugCurrent.xml"

  /** The state code every response reports (marked "todo" in the source). */
  const STATE_CODE: int := 8

  /** A value of the `data` dict: a Python int or a Python float. */
  datatype Value = Int(i: int) | Num(x: real)

  /** The keys of the `data` dict, which the templates' `{name}` placeholders
      refer to. */
  datatype DataKey =
    | RequestDate | BeginDate | PlugCurrent | SupportedCurrent | ChargeTime | Stopped
    | ActiveEnergy | PartialActiveEnergy | State | ChargingPhases
    | CurrentL1 | CurrentL2 | CurrentL3 | VoltageL1 | VoltageL2 | VoltageL3
    | ActivePower | ReduceCurrent | LimitCurrent

  /** The `data` dict every read endpoint is rendered from. */
  datatype ChargeData = ChargeData(
    requestDate: real,
    beginDate: Value,        // the int 0 before the charging window starts
    plugCurrent: int,
    supportedCurrent: int,
    chargeTime: int,
    stopped: int,
    activeEnergy: real,
    partialActiveEnergy: real,
    state: int,
    chargingPhases: int,
    currentL1: real, currentL2: real, currentL3: real,
    voltageL1: real, voltageL2: real, voltageL3: real,
    activePower: real,
    reduceCurrent: int,
    limitCurrent: int)
  {
    /** `data[k]`. */
    function Get(k: DataKey): Value {
      match k
      case RequestDate => Num(requestDate)
      case BeginDate => beginDate
      case PlugCurrent => Int(plugCurrent)
      case SupportedCurrent => Int(supportedCurrent)
      case ChargeTime => Int(chargeTime)
      case Stopped => Int(stopped)
      case ActiveEnergy => Num(activeEnergy)
      case PartialActiveEnergy => Num(partialActiveEnergy)
      case State => Int(state)
      case ChargingPhases => Int(chargingPhases)
      case CurrentL1 => Num(currentL1)
      case CurrentL2 => Num(currentL2)
      case CurrentL3 => Num(currentL3)
      case VoltageL1 => Num(voltageL1)
      case VoltageL2 => Num(voltageL2)
      case VoltageL3 => Num(voltageL3)
      case ActivePower => Num(activePower)
      case ReduceCurrent => Int(reduceCurrent)
      case LimitCurrent => Int(limitCurrent)
    }
  }

  function SessionMinute(v: DeviceView, now: Instant): int {
    MinuteInSession(now.minute, v.sessionStart)
  }

  /** The `data` dict of `handle_get_data` for the device `v` at the instant `now`. */
  function Data(v: DeviceView, now: Instant): (d: ChargeData)
    ensures d.state == STATE_CODE
    ensures d.stopped == 1 <==> InStopped(v.window, SessionMinute(v, now))
    ensures d.stopped == 0 || d.stopped == 1
    ensures d.chargeTime == if v.charging then (SessionMinute(v, now) - v.window.chargingStart) * 60 else 0
    ensures SessionMinute(v, now) >= v.window.chargingStart ==>
              d.beginDate == Num(now.timestamp - ((SessionMinute(v, now) - v.window.chargingStart) * 60) as real)
    ensures SessionMinute(v, now) < v.window.chargingStart ==> d.beginDate == Int(0)
    ensures d.requestDate == now.timestamp
    ensures d.reduceCurrent == d.limitCurrent == v.reqMaxI
    ensures d.plugCurrent == d.supportedCurrent == v.devMaxI
    ensures d.activeEnergy == v.eTotal && d.partialActiveEnergy == v.eSession
    ensures d.chargingPhases == v.nrPhases
    ensures d.currentL1 == v.curI.l1 && d.currentL2 == v.curI.l2 && d.currentL3 == v.curI.l3
    ensures d.voltageL1 == v.curU.l1 && d.voltageL2 == v.curU.l2 && d.voltageL3 == v.curU.l3
    ensures d.activePower == v.curPower
  {
    var m := SessionMinute(v, now);
    var start := v.window.chargingStart;
    ChargeData(
      now.timestamp,
      if m >= start then Num(now.timestamp - ((m - start) * 60) as real) else Int(0),
      v.devMaxI,
      v.devMaxI,
      if v.charging then (m - start) * 60 else 0,
      if InStopped(v.window, m) then 1 else 0,
      v.eTotal,
      v.eSession,
      STATE_CODE,
      v.nrPhases,
      v.curI.l1, v.curI.l2, v.curI.l3,
      v.curU.l1, v.curU.l2, v.curU.l3,
      v.curPower,
      v.reqMaxI,
      v.reqMaxI)
  }

  /** While charging past the window start, the session began `chargeTime`
      seconds before the request. */
  lemma BeginPlusChargeTimeIsRequest(v: DeviceView, now: Instant)
    requires v.charging && SessionMinute(v, now) >= v.window.chargingStart
    ensures Data(v, now).beginDate.Num?
    ensures Data(v, now).beginDate.x + Data(v, now).chargeTime as real == Data(v, now).requestDate
  {
  }

  /** The go-e adapter's `car` code 4 and this adapter's `stopped` flag mark the
      same minutes: the charging window ends where the stop window begins, so
      the precedence of charging never hides a stopped minute. */
  lemma StoppedIsCarFour(v: DeviceView, now: Instant)
    ensures Data(v, now).stopped == 1 <==> Goe.CarCode(v.window, SessionMinute(v, now)) == 4
  {
  }

  /** The lines the templates write out verbatim. `PlugSocketId` is the full
      `deviceName.plugName.socketName` id of the socket listing, `PlugId` the
      `deviceName.plugName` id of an outer element, `SocketId` the socket's own
      id in a socket block. */
  datatype Fixed =
    | PlugSocketId | PlugSocketName | Number | ChargeMode | ConnectorType | EvCommDevice
    | HasCover | HasLock | HasSafeStorageLock | Meter
    | PlugId | PlugName | SocketId | SocketName | ChargeIdLine | UserLine | UserType
    | EndDate | StoppedByError | CurrentIII | VoltageIII

  /** One line of an XML template: a fixed line, or a `{name}` placeholder that
      `str.format` fills from `data` (the tag is the key's name). */
  datatype TemplateLine = FixedLine(line: Fixed) | Placeholder(key: DataKey)

  /** A rendered line. */
  datatype Field = FixedField(line: Fixed) | Filled(key: DataKey, value: Value)

  /** A rendered response: the two wrapping elements, the fields, and the inner
      `<socket>` block (empty when left out). The byte layout is not modelled. */
  datatype Doc = Doc(outer: string, inner: string, fields: seq<Field>, socket: seq<Field>)

  /** A stretch of a template: some fixed lines, then one placeholder. */
  datatype Segment = Segment(before: seq<Fixed>, key: DataKey)

  /** A template as its segments in order, then the fixed lines after the
      last placeholder. */
  datatype Template = Template(segments: seq<Segment>, after: seq<Fixed>)

  function FixedLines(fs: seq<Fixed>): (tpl: seq<TemplateLine>)
    ensures |tpl| == |fs|
  {
    seq(|fs|, i requires 0 <= i < |fs| => FixedLine(fs[i]))
  }

  /** The lines of the segments from the `i`-th on. */
  function SegmentLines(segs: seq<Segment>, i: nat): seq<TemplateLine>
    requires i <= |segs|
    decreases |segs| - i
  {
    if i == |segs| then []
    else FixedLines(segs[i].before) + [Placeholder(segs[i].key)] + SegmentLines(segs, i + 1)
  }

  /** The template's lines, top to bottom, as `str.format` sees them. */
  function Lines(t: Template): seq<TemplateLine> {
    SegmentLines(t.segments, 0) + FixedLines(t.after)
  }

  function SegmentKeys(segs: seq<Segment>): (ks: seq<DataKey>)
    ensures |ks| == |segs|
    ensures forall i :: 0 <= i < |ks| ==> ks[i] == segs[i].key
  {
    seq(|segs|, i requires 0 <= i < |segs| => segs[i].key)
  }

  /** The keys of the template's placeholders, in order. */
  function Keys(t: Template): seq<DataKey> {
    SegmentKeys(t.segments)
  }

  /** What `str.format` makes of one template line. */
  function Fill(line: TemplateLine, data: ChargeData): Field {
    match line
    case FixedLine(f) => FixedField(f)
    case Placeholder(k) => Filled(k, data.Get(k))
  }

  /** `fs` is `tpl` formatted line by line. */
  predicate Follows(fs: seq<Field>, tpl: seq<TemplateLine>, data: ChargeData) {
    |fs| == |tpl| && forall i :: 0 <= i < |tpl| ==> fs[i] == Fill(tpl[i], data)
  }

  /** Every filled field shows the data value of its key. */
  predicate Reports(fs: seq<Field>, data: ChargeData) {
    forall i :: 0 <= i < |fs| && fs[i].Filled? ==> fs[i].value == data.Get(fs[i].key)
  }

  /** The keys that `fs` shows, in order. */
  function ShownKeys(fs: seq<Field>): seq<DataKey>
    decreases |fs|
  {
    if fs == [] then []
    else if fs[0].Filled? then [fs[0].key] + ShownKeys(fs[1..])
    else ShownKeys(fs[1..])
  }

  lemma {:induction false} ShownKeysAppend(a: seq<Field>, b: seq<Field>)
    ensures ShownKeys(a + b) == ShownKeys(a) + ShownKeys(b)
    decreases |a|
  {
    if a == [] {
      assert a + b == b;
    } else {
      assert (a + b)[1..] == a[1..] + b;
      ShownKeysAppend(a[1..], b);
    }
  }

  function FixedFields(fs: seq<Fixed>): (r: seq<Field>)
    ensures |r| == |fs|
  {
    seq(|fs|, i requires 0 <= i < |fs| => FixedField(fs[i]))
  }

  lemma {:induction false} FixedFieldsShowNothing(fs: seq<Fixed>)
    ensures ShownKeys(FixedFields(fs)) == []
    decreases |fs|
  {
    if fs != [] {
      assert FixedFields(fs)[1..] == FixedFields(fs[1..]);
      FixedFieldsShowNothing(fs[1..]);
    }
  }

  /** The segments from the `i`-th on, formatted. */
  function FormatSegments(segs: seq<Segment>, i: nat, data: ChargeData): (fs: seq<Field>)
    requires i <= |segs|
    ensures Reports(fs, data)
    ensures ShownKeys(fs) == SegmentKeys(segs)[i..]
    decreases |segs| - i
  {
    if i == |segs| then []
    else
      var fixed := FixedFields(segs[i].before);
      var filled := [Filled(segs[i].key, data.Get(segs[i].key))];
      var rest := FormatSegments(segs, i + 1, data);
      ShownKeysAppend(fixed + filled, rest);
      ShownKeysAppend(fixed, filled);
      FixedFieldsShowNothing(segs[i].before);
      assert SegmentKeys(segs)[i..] == [segs[i].key] + SegmentKeys(segs)[i + 1..];
      fixed + filled + rest
  }

  /** `template.format(**data)`: every placeholder is filled with the data
      value of its key, and the fields shown are the template's placeholders,
      in order. */
  function Format(t: Template, data: ChargeData): (fs: seq<Field>)
    ensures Reports(fs, data)
    ensures ShownKeys(fs) == Keys(t)
  {
    var body := FormatSegments(t.segments, 0, data);
    assert SegmentKeys(t.segments)[0..] == Keys(t);
    ShownKeysAppend(body, FixedFields(t.after));
    FixedFieldsShowNothing(t.after);
    body + FixedFields(t.after)
  }

  lemma FollowsAppend(fs: seq<Field>, tpl: seq<TemplateLine>, fs': seq<Field>, tpl': seq<TemplateLine>, data: ChargeData)
    requires Follows(fs, tpl, data) && Follows(fs', tpl', data)
    ensures Follows(fs + fs', tpl + tpl', data)
  {
    forall i | 0 <= i < |tpl + tpl'|
      ensures (fs + fs')[i] == Fill((tpl + tpl')[i], data)
    {
      if i >= |tpl| {
        assert (fs + fs')[i] == fs'[i - |tpl|];
        assert (tpl + tpl')[i] == tpl'[i - |tpl|];
      }
    }
  }

  lemma {:induction false} FormatSegmentsFollowsLines(segs: seq<Segment>, i: nat, data: ChargeData)
    requires i <= |segs|
    ensures Follows(FormatSegments(segs, i, data), SegmentLines(segs, i), data)
    decreases |segs| - i
  {
    if i < |segs| {
      var key := segs[i].key;
      FormatSegmentsFollowsLines(segs, i + 1, data);
      FollowsAppend(FixedFields(segs[i].before), FixedLines(segs[i].before),
                    [Filled(key, data.Get(key))], [Placeholder(key)], data);
      FollowsAppend(FixedFields(segs[i].before) + [Filled(key, data.Get(key))],
                    FixedLines(segs[i].before) + [Placeholder(key)],
                    FormatSegments(segs, i + 1, data), SegmentLines(segs, i + 1), data);
    }
  }

  /** Formatting a template fills its lines one by one: fixed lines are kept
      and each placeholder is replaced by the data value of its key. */
  lemma FormatFollowsLines(t: Template, data: ChargeData)
    ensures Follows(Format(t, data), Lines(t), data)
  {
    FormatSegmentsFollowsLines(t.segments, 0, data);
    FollowsAppend(FormatSegments(t.segments, 0, data), SegmentLines(t.segments, 0),
                  FixedFields(t.after), FixedLines(t.after), data);
  }

  function SocketInfoTemplate(): Template {
    Template(
      [Segment([PlugSocketId, PlugSocketName, Number, ChargeMode, ConnectorType], SupportedCurrent),
       Segment([EvCommDevice], PlugCurrent)],
      [HasCover, HasLock, HasSafeStorageLock, Meter])
  }

  function ChargeInfoSocketTemplate(): Template {
    Template(
      [Segment([SocketId, SocketName, Number], State),
       Segment([ChargeIdLine, UserLine], RequestDate),
       Segment([], BeginDate),
       Segment([EndDate], ChargeTime),
       Segment([], Stopped),
       Segment([], ActiveEnergy),
       Segment([], PartialActiveEnergy)],
      [])
  }

  function ChargeInfoTemplate(): Template {
    Template(
      [Segment([PlugId, PlugName, Number], State),
       Segment([ChargeIdLine, UserLine, UserType], RequestDate),
       Segment([], BeginDate),
       Segment([EndDate], ChargeTime),
       Segment([], Stopped),
       Segment([StoppedByError], ActiveEnergy),
       Segment([], PartialActiveEnergy)],
      [])
  }

  function ChargeStateSocketTemplate(): Template {
    Template(
      [Segment([SocketId, SocketName, Number], ReduceCurrent),
       Segment([], ChargingPhases),
       Segment([], State),
       Segment([ChargeIdLine, UserLine], ChargeTime),
       Segment([], ActiveEnergy),
       Segment([], PartialActiveEnergy),
       Segment([], CurrentL1),
       Segment([], CurrentL2),
       Segment([], CurrentL3),
       Segment([CurrentIII], VoltageL1),
       Segment([], VoltageL2),
       Segment([], VoltageL3),
       Segment([VoltageIII], ActivePower),
       Segment([], LimitCurrent)],
      [])
  }

  function ChargeStateTemplate(): Template {
    Template(
      [Segment([PlugId, PlugName, Number], State),
       Segment([], ChargingPhases),
       Segment([ChargeIdLine, UserLine], ChargeTime),
       Segment([], ReduceCurrent),
       Segment([], ActiveEnergy),
       Segment([], PartialActiveEnergy),
       Segment([], CurrentL1),
       Segment([], CurrentL2),
       Segment([], CurrentL3),
       Segment([CurrentIII], VoltageL1),
       Segment([], VoltageL2),
       Segment([], VoltageL3),
       Segment([VoltageIII], ActivePower)],
      [])
  }

  /** The fields each document shows, in the order the source writes them. */
  const SOCKET_INFO_KEYS: seq<DataKey> := [SupportedCurrent, PlugCurrent]
  const CHARGE_INFO_KEYS: seq<DataKey> :=
    [State, RequestDate, BeginDate, ChargeTime, Stopped, ActiveEnergy, PartialActiveEnergy]
  const CHARGE_STATE_SOCKET_KEYS: seq<DataKey> :=
    [ReduceCurrent, ChargingPhases, State, ChargeTime, ActiveEnergy, PartialActiveEnergy,
     CurrentL1, CurrentL2, CurrentL3, VoltageL1, VoltageL2, VoltageL3, ActivePower, LimitCurrent]
  const CHARGE_STATE_KEYS: seq<DataKey> :=
    [State, ChargingPhases, ChargeTime, ReduceCurrent, ActiveEnergy, PartialActiveEnergy,
     CurrentL1, CurrentL2, CurrentL3, VoltageL1, VoltageL2, VoltageL3, ActivePower]

  /** The socket listing's placeholders are the keys listed above. */
  lemma SocketInfoTemplateKeys()
    ensures Keys(SocketInfoTemplate()) == SOCKET_INFO_KEYS
  {
  }

  /** The charge-info placeholders, outer element and socket block alike. */
  lemma ChargeInfoTemplateKeys()
    ensures Keys(ChargeInfoTemplate()) == CHARGE_INFO_KEYS
    ensures Keys(ChargeInfoSocketTemplate()) == CHARGE_INFO_KEYS
  {
  }

  /** The charge-state placeholders; only the socket block has `limitCurrent`. */
  lemma ChargeStateTemplateKeys()
    ensures Keys(ChargeStateTemplate()) == CHARGE_STATE_KEYS
    ensures Keys(ChargeStateSocketTemplate()) == CHARGE_STATE_SOCKET_KEYS
  {
  }

  /** `_get_socket_info`: the static capability listing with the device's
      current ceiling. */
  function SocketInfo(data: ChargeData): (doc: Doc)
    ensures Reports(doc.fields, data) && doc.socket == []
    ensures ShownKeys(doc.fields) == SOCKET_INFO_KEYS
  {
    SocketInfoTemplateKeys();
    Doc("socketsInfo", "socketInfo", Format(SocketInfoTemplate(), data), [])
  }

  /** The `<chargeInfo>` element of `_get_charge_info`, without its socket block. */
  function ChargeInfoFields(data: ChargeData): (fs: seq<Field>)
    ensures Reports(fs, data)
    ensures ShownKeys(fs) == CHARGE_INFO_KEYS
  {
    ChargeInfoTemplateKeys();
    Format(ChargeInfoTemplate(), data)
  }

  /** The `<socket>` block of `_get_charge_info`: the same fields as the outer
      element. */
  function ChargeInfoSocket(data: ChargeData): (fs: seq<Field>)
    ensures Reports(fs, data)
    ensures ShownKeys(fs) == CHARGE_INFO_KEYS
  {
    ChargeInfoTemplateKeys();
    Format(ChargeInfoSocketTemplate(), data)
  }

  /** `_get_charge_info`: the inner socket block is present exactly while
      charging. */
  function ChargeInfo(data: ChargeData, charging: bool): (doc: Doc)
    ensures Reports(doc.fields, data) && Reports(doc.socket, data)
    ensures doc.socket != [] <==> charging
    ensures ShownKeys(doc.fields) == CHARGE_INFO_KEYS
    ensures charging ==> ShownKeys(doc.socket) == CHARGE_INFO_KEYS
  {
    var socket := if charging then ChargeInfoSocket(data) else [];
    Doc("chargesInfo", "chargeInfo", ChargeInfoFields(data), socket)
  }

  /** The `<chargeState>` element of `_get_charge_state`, without its socket block. */
  function ChargeStateFields(data: ChargeData): (fs: seq<Field>)
    ensures Reports(fs, data)
    ensures ShownKeys(fs) == CHARGE_STATE_KEYS
  {
    ChargeStateTemplateKeys();
    Format(ChargeStateTemplate(), data)
  }

  /** The `<socket>` block of `_get_charge_state`: alone in showing
      `limitCurrent`. */
  function ChargeStateSocket(data: ChargeData): (fs: seq<Field>)
    ensures Reports(fs, data)
    ensures ShownKeys(fs) == CHARGE_STATE_SOCKET_KEYS
  {
    ChargeStateTemplateKeys();
    Format(ChargeStateSocketTemplate(), data)
  }

  /** `_get_charge_state`: the inner socket block is present exactly while
      charging. */
  function ChargeState(data: ChargeData, charging: bool): (doc: Doc)
    ensures Reports(doc.fields, data) && Reports(doc.socket, data)
    ensures doc.socket != [] <==> charging
    ensures ShownKeys(doc.fields) == CHARGE_STATE_KEYS
    ensures charging ==> ShownKeys(doc.socket) == CHARGE_STATE_SOCKET_KEYS
  {
    var socket := if charging then ChargeStateSocket(data) else [];
    Doc("chargesState", "chargeState", ChargeStateFields(data), socket)
  }

  /** A key a reporting field list shows appears there with its data value. */
  lemma {:induction false} ShownIsReported(fs: seq<Field>, data: ChargeData, k: DataKey)
    requires Reports(fs, data) && k in ShownKeys(fs)
    ensures Filled(k, data.Get(k)) in fs
    decreases |fs|
  {
    if !(fs[0].Filled? && fs[0].key == k) {
      assert Reports(fs[1..], data) by {
        forall i | 0 <= i < |fs[1..]| && fs[1..][i].Filled?
          ensures fs[1..][i].value == data.Get(fs[1..][i].key)
        {
          assert fs[1..][i] == fs[i + 1];
        }
      }
      ShownIsReported(fs[1..], data, k);
    }
  }

  /** The socket listing shows the device's maximum current as both the
      supported and the plug current. */
  lemma SocketInfoShowsCeiling(v: DeviceView, now: Instant)
    ensures Filled(SupportedCurrent, Int(v.devMaxI)) in SocketInfo(Data(v, now)).fields
    ensures Filled(PlugCurrent, Int(v.devMaxI)) in SocketInfo(Data(v, now)).fields
  {
    var data := Data(v, now);
    assert data.Get(SupportedCurrent) == data.Get(PlugCurrent) == Int(v.devMaxI);
    var fs := SocketInfo(data).fields;
    ShownIsReported(fs, data, SupportedCurrent);
    ShownIsReported(fs, data, PlugCurrent);
  }

  /** The charge-info element shows the state code 8 and the stopped flag. */
  lemma ChargeInfoShowsState(v: DeviceView, now: Instant)
    ensures Filled(State, Int(STATE_CODE)) in ChargeInfoFields(Data(v, now))
    ensures Filled(Stopped, Int(Data(v, now).stopped)) in ChargeInfoFields(Data(v, now))
  {
    var data := Data(v, now);
    assert data.Get(State) == Int(STATE_CODE);
    assert data.Get(Stopped) == Int(data.stopped);
    ShownIsReported(ChargeInfoFields(data), data, State);
    ShownIsReported(ChargeInfoFields(data), data, Stopped);
  }

  /** The charge-info socket block shows the state code 8 as well. */
  lemma ChargeInfoSocketShowsState(v: DeviceView, now: Instant)
    ensures Filled(State, Int(STATE_CODE)) in ChargeInfoSocket(Data(v, now))
  {
    var data := Data(v, now);
    assert data.Get(State) == Int(STATE_CODE);
    ShownIsReported(ChargeInfoSocket(data), data, State);
  }

  /** The charge-state element shows the state code 8 and the requested
      current as `reduceCurrent`. */
  lemma ChargeStateShowsCurrent(v: DeviceView, now: Instant)
    ensures Filled(State, Int(STATE_CODE)) in ChargeStateFields(Data(v, now))
    ensures Filled(ReduceCurrent, Int(v.reqMaxI)) in ChargeStateFields(Data(v, now))
  {
    var data := Data(v, now);
    assert data.Get(State) == Int(STATE_CODE);
    assert data.Get(ReduceCurrent) == Int(v.reqMaxI);
    ShownIsReported(ChargeStateFields(data), data, State);
    ShownIsReported(ChargeStateFields(data), data, ReduceCurrent);
  }

  /** The charge-state socket block shows the requested current as
      `limitCurrent`. */
  lemma ChargeStateSocketShowsLimit(v: DeviceView, now: Instant)
    ensures Filled(LimitCurrent, Int(v.reqMaxI)) in ChargeStateSocket(Data(v, now))
  {
    var data := Data(v, now);
    assert data.Get(LimitCurrent) == Int(v.reqMaxI);
    ShownIsReported(ChargeStateSocket(data), data, LimitCurrent);
  }

  /** Every block opens with its `id` line: the full socket id for the
      listing, the plug's id for an outer element, the socket's for a socket
      block. */
  lemma SocketInfoId(data: ChargeData)
    ensures SocketInfo(data).fields[0] == FixedField(PlugSocketId)
  {
  }

  lemma ChargeInfoIds(data: ChargeData)
    ensures ChargeInfoFields(data)[0] == FixedField(PlugId)
    ensures ChargeInfoSocket(data)[0] == FixedField(SocketId)
  {
  }

  lemma ChargeStateIds(data: ChargeData)
    ensures ChargeStateFields(data)[0] == FixedField(PlugId)
    ensures ChargeStateSocket(data)[0] == FixedField(SocketId)
  {
  }

  /** The body of a POST to a current endpoint, once parsed: the texts of the
      root element's `<current>` children, in document order. */
  datatype XmlBody = Malformed | Parsed(currents: seq<string>)

  /** Where the loop over `<current>` children ends: the last current it set,
      and whether an `int()` conversion raised. */
  datatype LoopEnd = LoopEnd(reqMaxI: int, raised: bool)

  /** The loop `for tag in xml.findall('current'): self.req_max_i = int(tag.text)`
      run from `req`. */
  function ApplyCurrents(req: int, texts: seq<string>): LoopEnd
    decreases |texts|
  {
    if texts == [] then LoopEnd(req, false)
    else match ParseInt(texts[0])
      case None => LoopEnd(req, true)
      case Some(n) => ApplyCurrents(n, texts[1..])
  }

  predicate AllIntegers(texts: seq<string>) {
    forall i :: 0 <= i < |texts| ==> ParseInt(texts[i]).Some?
  }

  /** With well-formed texts the last `<current>` child wins; with none at all
      the current stays. */
  lemma {:induction false} LastCurrentWins(req: int, texts: seq<string>)
    requires AllIntegers(texts)
    ensures !ApplyCurrents(req, texts).raised
    ensures texts == [] ==> ApplyCurrents(req, texts).reqMaxI == req
    ensures texts != [] ==> ApplyCurrents(req, texts).reqMaxI == ParseInt(texts[|texts| - 1]).value
    decreases |texts|
  {
    if texts != [] {
      LastCurrentWins(ParseInt(texts[0]).value, texts[1..]);
      if |texts| > 1 {
        assert texts[1..][|texts| - 2] == texts[|texts| - 1];
      }
    }
  }

  /** A text that is not an integer stops the loop with `ValueError`; the
      children before it have already been applied. */
  lemma {:induction false} FirstBadCurrentRaises(req: int, texts: seq<string>, k: int)
    requires 0 <= k < |texts| && AllIntegers(texts[..k]) && ParseInt(texts[k]).None?
    ensures ApplyCurrents(req, texts).raised
    ensures ApplyCurrents(req, texts).reqMaxI ==
              if k == 0 then req else ParseInt(texts[k - 1]).value
    decreases k
  {
    if k > 0 {
      assert ParseInt(texts[0]).Some? by { assert texts[..k][0] == texts[0]; }
      assert texts[1..][..k - 1] == texts[..k][1..];
      FirstBadCurrentRaises(ParseInt(texts[0]).value, texts[1..], k - 1);
      if k > 1 {
        assert texts[1..][k - 2] == texts[k - 1];
      }
    }
  }

  /** A body carrying `str(n)` as its only current sets exactly n. */
  lemma CurrentRoundTrip(req: int, n: int)
    ensures ApplyCurrents(req, [Str(n)]) == LoopEnd(n, false)
  {
    ParseStr(n);
    assert [Str(n)][1..] == [];
  }

  lemma PathsDistinct()
    ensures SOCKET_INFO_PATH != CHARGE_INFO_PATH
    ensures SOCKET_INFO_PATH != CHARGE_STATE_PATH
    ensures CHARGE_INFO_PATH != CHARGE_STATE_PATH
    ensures REDUCE_CURRENT_PATH != PLUG_CURRENT_PATH
  {
    assert SOCKET_INFO_PATH[14] != CHARGE_INFO_PATH[14];
    assert |SOCKET_INFO_PATH| != |CHARGE_STATE_PATH|;
    assert |CHARGE_INFO_PATH| != |CHARGE_STATE_PATH|;
    assert REDUCE_CURRENT_PATH[14] != PLUG_CURRENT_PATH[14];
  }

  /** The document a GET path asks for, rendered from `data`. */
  function Route(urlPath: string, data: ChargeData, charging: bool): (r: Reply<Doc>)
    ensures r.Delegated? <==>
              urlPath != SOCKET_INFO_PATH && urlPath != CHARGE_INFO_PATH && urlPath != CHARGE_STATE_PATH
    ensures !r.Raised?
    ensures r.Answer? ==> Reports(r.body.fields, data) && Reports(r.body.socket, data)
    ensures urlPath == SOCKET_INFO_PATH ==> r == Answer(SocketInfo(data))
    ensures urlPath == CHARGE_INFO_PATH ==> r == Answer(ChargeInfo(data, charging))
    ensures urlPath == CHARGE_STATE_PATH ==> r == Answer(ChargeState(data, charging))
  {
    PathsDistinct();
    if urlPath == SOCKET_INFO_PATH then Answer(SocketInfo(data))
    else if urlPath == CHARGE_INFO_PATH then Answer(ChargeInfo(data, charging))
    else if urlPath == CHARGE_STATE_PATH then Answer(ChargeState(data, charging))
    else Delegated
  }

  class DeviceCircontrol {
    const base: Charger

    constructor ()
      ensures base.Valid() && fresh(base)
      ensures base.curPower == 0.0 && base.soc == START_SOC
    {
      base := new Charger();
    }

    /** GET: the three `/services/cpi/` documents, each rendered from the
        `data` of the instant `now`; other paths go to the base class. */
    method HandleGetData(urlPath: string, now: Instant) returns (r: Reply<Doc>)
      ensures r == Route(urlPath, Data(base.View(), now), base.charging)
    {
      var data := Data(base.View(), now);
      if urlPath == SOCKET_INFO_PATH {
        return Answer(SocketInfo(data));
      }
      if urlPath == CHARGE_INFO_PATH {
        return Answer(ChargeInfo(data, base.charging));
      }
      if urlPath == CHARGE_STATE_PATH {
        return Answer(ChargeState(data, base.charging));
      }
      r := Delegated;
    }

    /** The loop over the `<current>` children: assigns each parsed current in
        turn and stops at the first text `int()` rejects. */
    method SetCurrents(texts: seq<string>) returns (raised: bool)
      modifies base`reqMaxI
      ensures LoopEnd(base.reqMaxI, raised) == ApplyCurrents(old(base.reqMaxI), texts)
    {
      var i := 0;
      while i < |texts|
        invariant 0 <= i <= |texts|
        invariant ApplyCurrents(old(base.reqMaxI), texts) == ApplyCurrents(base.reqMaxI, texts[i..])
      {
        assert texts[i..][1..] == texts[i + 1..];
        var current := ParseInt(texts[i]);
        if current.None? {
          return true;
        }
        base.reqMaxI := current.value;
        i := i + 1;
      }
      raised := false;
    }

    /** POST: `reduceCurrent.xml` sets the current from the body at any time;
        `plugCurrent.xml` only while charging, and otherwise neither parses
        the body nor changes anything. Both answer "". */
    method HandlePostData(urlPath: string, body: XmlBody) returns (r: Reply<string>)
      modifies base`reqMaxI
      ensures var applies := urlPath == REDUCE_CURRENT_PATH ||
                             (urlPath == PLUG_CURRENT_PATH && base.charging);
              applies && body.Malformed? ==>
                r == Raised(ParseError) && base.reqMaxI == old(base.reqMaxI)
      ensures var applies := urlPath == REDUCE_CURRENT_PATH ||
                             (urlPath == PLUG_CURRENT_PATH && base.charging);
              applies && body.Parsed? ==>
                var end := ApplyCurrents(old(base.reqMaxI), body.currents);
                base.reqMaxI == end.reqMaxI &&
                r == (if end.raised then Raised(ValueError) else Answer(""))
      ensures urlPath == PLUG_CURRENT_PATH && !base.charging ==>
                r == Answer("") && base.reqMaxI == old(base.reqMaxI)
      ensures urlPath != REDUCE_CURRENT_PATH && urlPath != PLUG_CURRENT_PATH ==>
                r == Delegated && base.reqMaxI == old(base.reqMaxI)
    {
      PathsDistinct();
      if urlPath == REDUCE_CURRENT_PATH || urlPath == PLUG_CURRENT_PATH {
        if urlPath == REDUCE_CURRENT_PATH || base.charging {
          if body.Malformed? {
            return Raised(ParseError);
          }
          var raised := SetCurrents(body.currents);
          if raised {
            return Raised(ValueError);
          }
        }
        return Answer("");
      }
      r := Delegated;
    }
  }
}
