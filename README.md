# chargersim core in Dafny

A model of the device layer of `chargersim`, a simulator of EV charging
stations. It covers this early snapshot of the code:

- the base class `Charger` (charger.py): a state of charge raised by each
  charging step and limited to 1;
- the go-e adapter `DeviceGoe` (devicegoe.py): the `/status` JSON record
  (the vendor `car` code for the minute of the hourly session, the 16-slot
  `nrg` array, a dict literal with a duplicate `amp` key) and the
  `/mqtt?payload=amp=<n>` command;
- the Circontrol adapter `DeviceCircontrol` (devicecircontrol.py): the `data`
  dict derived from the minute of the session, the three XML documents
  rendered from it, whose inner `<socket>` block appears only while charging,
  and the two endpoints that set the current limit from `<current>` elements.

Files:

- `common.dfy` (module `Common`): the reply of a handler (`Answer`,
  `Delegated` to the base class, `Raised`), the clock reading, the charging
  windows, and the minute of the session.
- `numbers.dfy` (module `Numbers`): Python's `str()` and `int()` on integers,
  with the round trip `int(str(n)) == n`.
- `pydict.dfy` (module `PyDict`): a dict built from a literal, where a repeated
  key keeps its first position and takes its last value.
- `charger.dfy` (module `ChargerBase`): class `Charger` and the state-of-charge step.
- `devicegoe.dfy` (module `Goe`) and `devicecircontrol.dfy` (module
  `Circontrol`): the two adapters. Each holds its `Charger` part as a field
  `base` rather than inheriting from it.

The members the adapters read but that no modelled file defines
(`_session_start`, `_CHARGING_START`, `_CHARGING_STOP`,
`_CHARGING_CABLE_CAR_OFF`, `_DEV_MAX_I`, `req_max_i`, `e_total`, `e_session`,
`cur_i`, `cur_u`, `nr_phases`, `is_charging()`) are fields of `Charger`. The
constructor leaves them unconstrained, because code outside the model sets
them. No order between the three window bounds is assumed. `datetime.now()`
is an explicit parameter: an `Instant` holding the minute of the hour and the
timestamp.

## Model

| member | source | states |
|---|---|---|
| `Common.MinuteInSession` | devicegoe.py:29 | the minute of the session lies in 0..59 and differs from `minute - _session_start` by a multiple of 60 (Python's floor `%`) |
| `Numbers.ParseInt` | devicegoe.py:127 | `int()` succeeds exactly on an optionally signed run of decimal digits, once the surrounding whitespace is stripped (with no limit on the number of digits) |
| `Numbers.ParseStr` | devicegoe.py:127 | `int(str(n)) == n` for every integer `n` |
| `Numbers.ParseSigned` | devicegoe.py:127 | `int()` of an optional `+` or `-` followed by decimal digits is the number the digits denote, negated exactly when the sign is `-` |
| `Numbers.ParseLiteral` | devicegoe.py:127 | leading zeros and a `+` do not change the value: `int(sign + "0...0" + str(n))` is `n`, or `-n` for the sign `-` |
| `Numbers.ParseIgnoresPadding` | devicecircontrol.py:198 | whitespace around a `<current>` text does not change what `int()` gives |
| `PyDict.GetFromLiteral` | devicegoe.py:35-118 | looking a key up in the dict built from a literal gives the value of the key's LAST pair |
| `PyDict.KeysFromLiteral` | devicegoe.py:35-119 | the built dict, in `json.dumps` order, lists each key once, at its first occurrence in the literal |
| `ChargerBase.SocAfter` | charger.py:33-37 | the new state of charge is at most 1, never below an old one that was at most 1, and is either 1 or the old one plus the non-negative increment |
| `ChargerBase.SocAfterExact` | charger.py:33-37 | if old + increment <= 1 the new state of charge is exactly old + increment, otherwise exactly 1 |
| `ChargerBase.Charger.constructor` | charger.py:18-20 | after construction `cur_power` is 0 and the state of charge is `START_SOC` |
| `ChargerBase.Charger.UpdateState` | charger.py:25-27 | the tick changes no field |
| `ChargerBase.Charger.SimulateCharging` | charger.py:29-37 | `cur_power` becomes the target power; the state of charge becomes `SocAfter` of the old one, so it never decreases and stays at most 1 |
| `Goe.CarCode` | devicegoe.py:30-34 | `car` is 2 exactly inside the charging window, 4 exactly inside the stopped window but not the charging one, 1 otherwise |
| `Goe.Nrg` | devicegoe.py:54-61 | `nrg` has 16 entries: voltages at 0-2, currents times 10 at 4-6, per-phase `u * i / 100` at 7-9, `cur_power / 10` at 11, zeros at 3, 10 and 12-15 |
| `Goe.StatusRecord` | devicegoe.py:35-119 | the serialised record has no key twice |
| `Goe.StatusAmp` | devicegoe.py:40-73 | the record's `amp` is `str(req_max_i)`: the later pair overrides the constant "10" |
| `Goe.StatusAma` | devicegoe.py:72 | the record's `ama` is `str(_DEV_MAX_I)` |
| `Goe.StatusCar` | devicegoe.py:29-39 | the record's `car` is `str` of the code of the current minute of the session |
| `Goe.StatusNrg` | devicegoe.py:54-61 | the record's `nrg` is the array of the device's phase voltages, currents and power |
| `Goe.StatusDws` | devicegoe.py:48 | the record's `dws` is the session energy times 360000 |
| `Goe.StatusEto` | devicegoe.py:52 | the record's `eto` is the total energy times 10 |
| `Goe.StatusAmpPosition` | devicegoe.py:35-40 | `amp` keeps the position of its first pair: fifth in the record |
| `Goe.GetDataAsWritten` | devicegoe.py:29 | as written, `/status` raises `NameError` and every other path is delegated |
| `Goe.AsWrittenNeverAnswers` | devicegoe.py:5-8 | as written, no GET request ever obtains a status record |
| `Goe.ParseCommand` | devicegoe.py:121-131 | a path outside `/mqtt?payload=` is not a command; a payload not starting with `amp=` is unhandled; `amp=N` sets `int(N)` when `int()` accepts N and is a bad current (`ValueError`) otherwise |
| `Goe.ParseAmpCommand` | devicegoe.py:124-128 | the path `/mqtt?payload=amp=` followed by `str(n)` is the command that sets n |
| `Goe.DeviceGoe.constructor` | charger.py:18-20 | a fresh device starts from a freshly constructed `Charger`: `cur_power` 0 and the state of charge `START_SOC` |
| `Goe.DeviceGoe.HandleGetData` | devicegoe.py:24-119 | `/status` answers the status record of the instant (unique keys, `amp` = `str(req_max_i)`, `ama` = `str(_DEV_MAX_I)`); any other path is delegated and yields no record |
| `Goe.DeviceGoe.HandlePostData` | devicegoe.py:121-131 | `amp=N` sets `req_max_i` to N and answers ""; another payload changes nothing and answers ""; a non-integer N raises `ValueError` with nothing changed; other paths are delegated |
| `Circontrol.Data` | devicecircontrol.py:37-60 | `state` is 8; `stopped` is 1 exactly inside the stopped window, else 0; `chargeTime` is `(m - _CHARGING_START) * 60` while charging, else 0; `beginDate` is `now - (m - _CHARGING_START) * 60` from the window start on, else the int 0; `reduceCurrent` = `limitCurrent` = `req_max_i`; `plugCurrent` = `supportedCurrent` = `_DEV_MAX_I`; the energies, `chargingPhases`, the three currents and voltages and `activePower` copy `e_total`, `e_session`, `nr_phases`, `cur_i`, `cur_u` and `cur_power` |
| `Circontrol.BeginPlusChargeTimeIsRequest` | devicecircontrol.py:40-45 | while charging past the window start, `beginDate + chargeTime == requestDate` |
| `Circontrol.StoppedIsCarFour` | devicecircontrol.py:46 | the Circontrol `stopped` flag is 1 exactly in the minutes where the go-e adapter reports `car` 4: the charging window never hides a stopped minute |
| `Circontrol.Format` | devicecircontrol.py:72-89 | `str.format(**data)` fills every placeholder with the data value of its key, and the fields shown are the template's placeholders, in order |
| `Circontrol.FormatFollowsLines` | devicecircontrol.py:72-89 | formatting goes line by line: each fixed line is kept and each `{key}` line becomes that key's data value |
| `Circontrol.SocketInfoTemplateKeys` | devicecircontrol.py:72-89 | the socket listing's placeholders are `supportedCurrent`, `plugCurrent` |
| `Circontrol.ChargeInfoTemplateKeys` | devicecircontrol.py:93-130 | the charge-info element and its socket block both have the placeholders `state`, `requestDate`, `beginDate`, `chargeTime`, `stopped`, `activeEnergy`, `partialActiveEnergy` |
| `Circontrol.ChargeStateTemplateKeys` | devicecircontrol.py:138-188 | the charge-state element has `state`, `chargingPhases`, `chargeTime`, `reduceCurrent`, the energies, the three currents and voltages, `activePower`; its socket block has `reduceCurrent`, `chargingPhases`, `state`, the same middle keys and in addition `limitCurrent` |
| `Circontrol.SocketInfo` | devicecircontrol.py:71-89 | the socket listing shows exactly `supportedCurrent` and `plugCurrent`, each with its data value, and has no socket block |
| `Circontrol.ChargeInfoFields` | devicecircontrol.py:113-134 | the `<chargeInfo>` element shows the charge-info keys in source order, each with its data value |
| `Circontrol.ChargeInfoSocket` | devicecircontrol.py:93-109 | the charge-info socket block shows the same keys, each with its data value |
| `Circontrol.ChargeInfo` | devicecircontrol.py:91-134 | the charge-info document holds the socket block iff `is_charging()`; the element and the block show the charge-info keys in source order with their data values |
| `Circontrol.ChargeStateFields` | devicecircontrol.py:166-192 | the `<chargeState>` element shows the charge-state keys in source order, each with its data value |
| `Circontrol.ChargeStateSocket` | devicecircontrol.py:138-162 | the charge-state socket block shows its keys in source order, `limitCurrent` last, each with its data value |
| `Circontrol.ChargeState` | devicecircontrol.py:136-192 | the charge-state document holds the socket block iff `is_charging()`; the element and the block show their keys in source order with their data values |
| `Circontrol.ShownIsReported` | devicecircontrol.py:72-89 | a key a rendered block shows appears there with its data value |
| `Circontrol.SocketInfoShowsCeiling` | devicecircontrol.py:80-82 | the socket listing shows `_DEV_MAX_I` as both `supportedCurrent` and `plugCurrent` |
| `Circontrol.ChargeInfoShowsState` | devicecircontrol.py:119-127 | the `<chargeInfo>` element shows state 8 and the `stopped` flag of the instant |
| `Circontrol.ChargeInfoSocketShowsState` | devicecircontrol.py:98 | the charge-info socket block shows state 8 |
| `Circontrol.ChargeStateShowsCurrent` | devicecircontrol.py:172-177 | the `<chargeState>` element shows state 8 and `req_max_i` as `reduceCurrent` |
| `Circontrol.ChargeStateSocketShowsLimit` | devicecircontrol.py:160 | the charge-state socket block shows `req_max_i` as `limitCurrent` |
| `Circontrol.SocketInfoId` | devicecircontrol.py:75 | the socket listing opens with the full `deviceName.plugName.socketName` `id` line |
| `Circontrol.ChargeInfoIds` | devicecircontrol.py:95-116 | the `<chargeInfo>` element opens with the plug's `id`, its socket block with the socket's |
| `Circontrol.ChargeStateIds` | devicecircontrol.py:140-169 | the `<chargeState>` element opens with the plug's `id`, its socket block with the socket's |
| `Circontrol.Route` | devicecircontrol.py:62-69 | each of the three document paths answers exactly its document (socket listing, charge info, charge state), never raising; any other path is delegated |
| `Circontrol.LastCurrentWins` | devicecircontrol.py:197-199 | with integer texts the last `<current>` child sets `req_max_i`; with none it stays |
| `Circontrol.FirstBadCurrentRaises` | devicecircontrol.py:197-199 | the first non-integer text raises, after the children before it have been applied |
| `Circontrol.CurrentRoundTrip` | devicecircontrol.py:197-198 | a body whose only current is `str(n)` sets exactly n |
| `Circontrol.DeviceCircontrol.constructor` | charger.py:18-20 | a fresh device starts from a freshly constructed `Charger`: `cur_power` 0 and the state of charge `START_SOC` |
| `Circontrol.DeviceCircontrol.HandleGetData` | devicecircontrol.py:35-69 | a GET answers the routed document of the `data` of the instant |
| `Circontrol.DeviceCircontrol.SetCurrents` | devicecircontrol.py:197-199 | the loop leaves `req_max_i` where the loop function ends and reports whether `int()` raised |
| `Circontrol.DeviceCircontrol.HandlePostData` | devicecircontrol.py:194-211 | `reduceCurrent.xml` applies the `<current>` children; `plugCurrent.xml` does so only while charging and otherwise changes nothing; both answer ""; a body that is not XML raises with nothing changed; other paths are delegated |

## Findings

| source | as written | input that shows it | evidently intended | confidence | as-written member | corrected member |
|---|---|---|---|---|---|---|
| devicegoe.py:29 | `datetime.now()` is called, but the module imports only `logging`, `json` and `Charger` (lines 5-8) | GET `/status` | the status record built from the current minute | not executed | `Goe.GetDataAsWritten` (with `Goe.AsWrittenNeverAnswers`) | `Goe.DeviceGoe.HandleGetData` |

## Specification and code

Where the project's design description and this snapshot of the code differ,
the model follows the code:

- The Circontrol state code is the constant 8 (marked "todo"), not a mapping
  to 8, 10 or 0.
- Circontrol has two write endpoints, not four; the pause and resume endpoints
  do not exist.
- A malformed `amp=` value or `<current>` text raises `ValueError`; it is not
  ignored.
- An unknown path is handed to the base class, not answered by a generic dump
  of all fields.
- The Circontrol write paths for "general" and "only while charging" are `reduceCurrent.xml` (always applied) and `plugCurrent.xml`
  (applied only while charging), although the comments at the top of
  devicecircontrol.py describe them the other way round.

## Left out

- chargersim.py is not part of this model: HTTP server setup, the
  port-to-device table and the `select` loop are I/O and dispatch.
- The base-class fallbacks are the outcome `Delegated`. As written they fail:
  `Charger.handle_get_data` takes no path argument (a `TypeError`), and
  `Charger` has no `handle_post_data` (an `AttributeError`).
- The devices are constructed without arguments. As written, chargersim.py
  (lines 71-83) calls `DeviceGoe(0)`, `DeviceGoe(10, 1)` and so on, but no
  device defines `__init__` and `Charger.__init__` (charger.py:18) takes none,
  so that construction raises `TypeError`.
- `datetime.now()` is a parameter. Circontrol calls it two or three times per
  request (the call for `beginDate` runs only from the window start on); the
  model reads one instant for all of them.
- Members that no modelled file defines are fields the constructor leaves
  unconstrained. Reading them in Python before some other code sets them
  raises `AttributeError`; the model does not capture that.
- `is_charging()` is the value of the field `charging`. Its definition is not
  part of this model.
- The class attributes `eTotal` and `eSession` of `Charger` are not modelled:
  no modelled code reads or writes them.
- Python float arithmetic and rendering: quantities are exact reals, and the
  `str()` of a float in the go-e record is the value `JNumText(x)`, not text.
- The XML byte layout and whitespace are not modelled: a document is its
  sequence of lines (a fixed line, or a filled field) and its socket block. Among other things, the
  closing tags written as `< /id >` are not checked.
- `json.dumps` is modelled as the ordered list of entries it serialises.
- `ET.fromstring` and `findall('current')` are modelled by the body value:
  either not XML, or the texts of the root's `<current>` children in order.
- `Numbers.ParseInt` rejects the underscores and non-ASCII digits that Python's
  `int()` accepts, and strips only space, tab, newline, vertical tab, form
  feed and carriage return, not the separators `\x1c`-`\x1f` or the non-ASCII
  spaces that Python also strips. It also has no digit limit, whereas
  current CPython (3.11 and later, and the 3.7-3.10 security releases)
  refuses by default to convert more than 4300 digits
  (`sys.int_max_str_digits`): there `int()` raises `ValueError` on a longer
  run, which the model accepts, so the model is Python with that limit
  switched off.
- An empty `<current/>` element has the text `None`, and `int(None)` raises
  `TypeError`. The model treats it as the empty text, which raises
  `ValueError`.
- `ChargerBase.Charger.SimulateCharging` takes the recurrence as a parameter and
  requires it to be non-negative. As written, `self.MAIN_RECURRENCE`
  (charger.py:33) raises `AttributeError`: no class in the
  `Charger`/`DeviceGoe`/`DeviceCircontrol` hierarchy defines it, because it is
  a constant 1 of the separate class `ChargerSim` (chargersim.py:58). Neither
  the device files nor chargersim.py call `_simulate_charging`.
- Logging calls.
- The session state machine, persistence, energy integration and current
  negotiation described for the project do not exist in these files.
