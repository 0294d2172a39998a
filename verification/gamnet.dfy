/** Gaming sessions (gamnet_section.py): the device selector, opening a session on a
    device, and closing the device's latest open session with its duration and charge. */
module Gamnet {
  import opened Base
  import opened Text
  import opened Tables

  /** The text after "id: " in a device selector entry: "number (type)". */
  function DeviceText(d: Device): string
  {
    d.deviceNumber + " (" + d.deviceType + ")"
  }

  predicate IsAvailable(d: Device) { d.isAvailable }

  /** `get_available_devices`: one "id: number (type)" entry per available device, in
      row order, or the single placeholder. Each entry reads back as an available
      device's id, and no device in use is offered. */
  function AvailableDevices(devices: seq<Device>): (choices: seq<string>)
    ensures (forall i :: 0 <= i < |devices| ==> !devices[i].isAvailable) ==> choices == ["No devices available"]
    ensures forall i :: 0 <= i < |devices| && devices[i].isAvailable ==>
              SelectorLabel(i + 1, DeviceText(devices[i])) in choices
    ensures forall l :: l in choices ==> ReadsBackAsRow(devices, IsAvailable, l)
    ensures SelectorLabels(devices, IsAvailable, DeviceText) != [] ==>
              choices == SelectorLabels(devices, IsAvailable, DeviceText)
  {
    SelectorChoices(devices, IsAvailable, DeviceText, "No devices available")
  }

  /** A device row as `add_device` inserts it: the column defaults make it available
      with status 'available'. */
  function NewDevice(number: string, deviceType: string, hourlyRate: real): (d: Device)
    ensures d.isAvailable && d.status == "available"
  {
    Device(number, deviceType, hourlyRate, true, "available")
  }

  /** A newly added device is offered by the selector under its new id. */
  lemma NewDeviceOffered(devices: seq<Device>, number: string, deviceType: string, hourlyRate: real)
    ensures var all := devices + [NewDevice(number, deviceType, hourlyRate)];
            SelectorLabel(|all|, number + " (" + deviceType + ")") in AvailableDevices(all)
  {
    var all := devices + [NewDevice(number, deviceType, hourlyRate)];
    assert all[|all| - 1].isAvailable;
    assert DeviceText(all[|all| - 1]) == number + " (" + deviceType + ")";
  }

  /** `UPDATE gamnet_devices SET is_available = ?, status = ? WHERE id = ?`: only the
      device with that id changes; an unknown id changes nothing. */
  function SetDeviceState(devices: seq<Device>, id: int, available: bool, status: string): (r: seq<Device>)
    ensures |r| == |devices|
    ensures forall i :: 0 <= i < |devices| && i != id - 1 ==> r[i] == devices[i]
    ensures 1 <= id <= |devices| ==>
              r[id - 1].isAvailable == available && r[id - 1].status == status
              && r[id - 1].deviceNumber == devices[id - 1].deviceNumber
              && r[id - 1].deviceType == devices[id - 1].deviceType
              && r[id - 1].hourlyRate == devices[id - 1].hourlyRate
  {
    if 1 <= id <= |devices|
    then devices[id - 1 := devices[id - 1].(isAvailable := available, status := status)]
    else devices
  }

  predicate IsOpenOn(s: GameSession, deviceId: int)
  {
    s.deviceId == deviceId && s.endTime.None?
  }

  /** `SELECT * FROM gamnet_sessions WHERE device_id = ? AND end_time IS NULL
      ORDER BY start_time DESC LIMIT 1`: the index of the device's open session with
      the latest start; among equal starts the newest row. */
  function LatestOpenSession(sessions: seq<GameSession>, deviceId: int): (r: Option<nat>)
    ensures r.Some? ==> r.value < |sessions|
    decreases |sessions|
  {
    if |sessions| == 0 then None
    else
      var last := sessions[|sessions| - 1];
      var earlier := LatestOpenSession(sessions[..|sessions| - 1], deviceId);
      if IsOpenOn(last, deviceId)
         && (earlier.None? || EpochSeconds(sessions[earlier.value].startTime) <= EpochSeconds(last.startTime))
      then Some(|sessions| - 1)
      else earlier
  }

  /** The lookup finds an open session of the device exactly when there is one, no
      open session of the device started later, and every later open row of the
      device started strictly earlier, so a tie goes to the newest row. */
  lemma {:induction false} LatestOpenSessionSpec(sessions: seq<GameSession>, deviceId: int)
    ensures var r := LatestOpenSession(sessions, deviceId);
            && (r.Some? ==> r.value < |sessions| && IsOpenOn(sessions[r.value], deviceId))
            && (r.Some? ==> forall j :: 0 <= j < |sessions| && IsOpenOn(sessions[j], deviceId) ==>
                              EpochSeconds(sessions[j].startTime) <= EpochSeconds(sessions[r.value].startTime))
            && (r.Some? ==> forall j :: r.value < j < |sessions| && IsOpenOn(sessions[j], deviceId) ==>
                              EpochSeconds(sessions[j].startTime) < EpochSeconds(sessions[r.value].startTime))
            && (r.None? <==> forall j :: 0 <= j < |sessions| ==> !IsOpenOn(sessions[j], deviceId))
    decreases |sessions|
  {
    if |sessions| > 0 {
      var init := sessions[..|sessions| - 1];
      LatestOpenSessionSpec(init, deviceId);
      assert forall j :: 0 <= j < |init| ==> init[j] == sessions[j];
    }
  }

  /** A session opened now, when no session of the table started later, is the one
      the close handler picks for its device. */
  lemma NewSessionIsLatest(sessions: seq<GameSession>, s: GameSession)
    requires s.endTime.None?
    requires forall j :: 0 <= j < |sessions| ==> EpochSeconds(sessions[j].startTime) <= EpochSeconds(s.startTime)
    ensures LatestOpenSession(sessions + [s], s.deviceId) == Some(|sessions|)
  {
    var all := sessions + [s];
    assert all[..|all| - 1] == sessions;
    LatestOpenSessionSpec(sessions, s.deviceId);
  }

  /** The elapsed seconds between two clock readings. */
  function ElapsedSeconds(start: Instant, end: Instant): int
  {
    EpochSeconds(end) - EpochSeconds(start)
  }

  /** `int(duration)`: the stored whole minutes. */
  function StoredMinutes(start: Instant, end: Instant): int
  {
    TruncToInt(ElapsedSeconds(start, end) as real / 60.0)
  }

  /** `(duration / 60) * hourly_rate`, with the untruncated duration in minutes. */
  function SessionCharge(start: Instant, end: Instant, hourlyRate: real): real
  {
    (ElapsedSeconds(start, end) as real / 60.0) / 60.0 * hourlyRate
  }

  /** The row update of a close: end time, stored minutes and charge. */
  function CloseSession(s: GameSession, now: Instant, hourlyRate: real): GameSession
  {
    s.(endTime := Some(now),
       durationMinutes := Some(StoredMinutes(s.startTime, now)),
       charge := Some(SessionCharge(s.startTime, now, hourlyRate)))
  }

  /** The charge for a whole number of minutes at an hourly rate. */
  function MinutesCharge(minutes: int, hourlyRate: real): real
  {
    minutes as real / 60.0 * hourlyRate
  }

  /** The charge is billed on the exact duration: for a forward clock it lies between
      the charge of the stored whole minutes and that of one minute more. */
  lemma ChargeBracketsStoredMinutes(start: Instant, end: Instant, hourlyRate: real)
    requires EpochSeconds(start) <= EpochSeconds(end) && hourlyRate >= 0.0
    ensures MinutesCharge(StoredMinutes(start, end), hourlyRate) <= SessionCharge(start, end, hourlyRate)
    ensures SessionCharge(start, end, hourlyRate) <= MinutesCharge(StoredMinutes(start, end) + 1, hourlyRate)
  {
    BracketSeconds(ElapsedSeconds(start, end), hourlyRate);
  }

  /** The bracket for a non-negative number of elapsed seconds. */
  lemma BracketSeconds(e: int, rate: real)
    requires e >= 0 && rate >= 0.0
    ensures MinutesCharge(TruncToInt(e as real / 60.0), rate) <= (e as real / 60.0) / 60.0 * rate
    ensures (e as real / 60.0) / 60.0 * rate <= MinutesCharge(TruncToInt(e as real / 60.0) + 1, rate)
  {
    var d := e as real / 60.0;
    assert d >= 0.0;
    Bracket(d, TruncToInt(d), rate);
  }

  lemma Bracket(d: real, m: int, rate: real)
    requires m as real <= d <= m as real + 1.0 && rate >= 0.0
    ensures MinutesCharge(m, rate) <= d / 60.0 * rate <= MinutesCharge(m + 1, rate)
  {
    var lo := m as real / 60.0;
    var mid := d / 60.0;
    var hi := (m + 1) as real / 60.0;
    assert (m + 1) as real == m as real + 1.0;
    ScaleMonotone(lo, mid, rate);
    ScaleMonotone(mid, hi, rate);
    assert MinutesCharge(m, rate) == lo * rate;
    assert MinutesCharge(m + 1, rate) == hi * rate;
    assert d / 60.0 * rate == mid * rate;
    assert mid * rate <= hi * rate;
    assert d / 60.0 * rate <= MinutesCharge(m + 1, rate);
  }

  /** Worked examples: 90 minutes at 6.00 an hour store 90 minutes and charge 9.00;
      125 seconds at 60.00 an hour store 2 minutes but charge for 125 seconds. */
  lemma ChargeExamples()
    ensures StoredMinutes(Instant(1, 36000), Instant(1, 41400)) == 90
    ensures SessionCharge(Instant(1, 36000), Instant(1, 41400), 6.0) == 9.0
    ensures StoredMinutes(Instant(1, 0), Instant(1, 125)) == 2
    ensures SessionCharge(Instant(1, 0), Instant(1, 125), 60.0) == 125.0 / 60.0
  {
    assert ElapsedSeconds(Instant(1, 36000), Instant(1, 41400)) == 5400;
    assert ElapsedSeconds(Instant(1, 0), Instant(1, 125)) == 125;
  }

  /** Opening and then closing a session on a device that was free puts the device
      back exactly as it was. */
  lemma OpenCloseRestoresDevice(devices: seq<Device>, id: int)
    requires 1 <= id <= |devices| && devices[id - 1].isAvailable && devices[id - 1].status == "available"
    ensures SetDeviceState(SetDeviceState(devices, id, false, "in_use"), id, true, "available") == devices
  {
    var r := SetDeviceState(SetDeviceState(devices, id, false, "in_use"), id, true, "available");
    assert r[id - 1] == devices[id - 1];
  }

  /** A device on which a session was just opened is no longer offered. */
  lemma StartedDeviceNotOffered(devices: seq<Device>, id: nat)
    requires 1 <= id <= |devices|
    ensures forall l :: l in AvailableDevices(SetDeviceState(devices, id, false, "in_use")) ==>
              ParseSelection(l) != Selected(id)
  {
    var after := SetDeviceState(devices, id, false, "in_use");
    var choices := AvailableDevices(after);
    assert !after[id - 1].isAvailable;
    forall l | l in choices
      ensures ParseSelection(l) != Selected(id)
    {
      OfferedIsAvailable(after, l);
    }
  }

  /** Every selected entry of the device selector names an available device. */
  lemma OfferedIsAvailable(devices: seq<Device>, l: string)
    requires l in AvailableDevices(devices)
    ensures ParseSelection(l).Selected? ==>
              1 <= ParseSelection(l).id <= |devices| && devices[ParseSelection(l).id - 1].isAvailable
  {
  }

  /** `start_session`: get or create the customer by phone first; then, for a
      selected device id, insert an open session and mark the device in use. The
      device is neither checked for existence nor for being free. */
  method StartSession(db: Db, phone: string, deviceText: string, now: Instant) returns (sessionId: Option<nat>)
    requires db.Valid()
    modifies db`customers, db`sessions, db`devices
    ensures db.Valid()
    ensures CustomerIndex(old(db.customers), phone).Some? ==> db.customers == old(db.customers)
    ensures CustomerIndex(old(db.customers), phone).None? ==>
              db.customers == old(db.customers) + [WalkInCustomer(phone, now.date)]
    ensures CustomerIndex(db.customers, phone).Some?
    ensures !ParseSelection(deviceText).Selected? ==>
              sessionId.None? && db.sessions == old(db.sessions) && db.devices == old(db.devices)
    ensures ParseSelection(deviceText).Selected? ==>
              var d := ParseSelection(deviceText).id;
              && sessionId == Some(|old(db.sessions)| + 1)
              && db.sessions == old(db.sessions)
                 + [GameSession(d, CustomerIndex(db.customers, phone).value + 1, now, None, None, None)]
              && db.devices == SetDeviceState(old(db.devices), d, false, "in_use")
  {
    var customerId := db.GetOrCreateCustomer(phone, now.date);
    var selection := ParseSelection(deviceText);
    if !selection.Selected? {
      return None;
    }
    var d := selection.id;
    db.sessions := db.sessions + [GameSession(d, customerId, now, None, None, None)];
    sessionId := Some(|db.sessions|);
    assert CustomerIndex(db.customers, phone).value + 1 == customerId;
    if 1 <= d <= |db.devices| {
      db.devices := db.devices[d - 1 := db.devices[d - 1].(isAvailable := false, status := "in_use")];
    }
  }

  /** `end_session`: for a selected device with an open session and a device row,
      close the latest open session and mark the device available. In every other
      case nothing changes (the handler returns, or raises before writing). */
  method EndSession(db: Db, deviceText: string, now: Instant) returns (closed: Option<nat>)
    modifies db`sessions, db`devices
    ensures !ParseSelection(deviceText).Selected? ==> closed.None?
    ensures ParseSelection(deviceText).Selected? ==>
              var d := ParseSelection(deviceText).id;
              var found := LatestOpenSession(old(db.sessions), d);
              if found.Some? && 1 <= d <= |old(db.devices)| then
                && closed == Some(found.value + 1)
                && db.sessions == old(db.sessions)[found.value :=
                     CloseSession(old(db.sessions)[found.value], now, old(db.devices)[d - 1].hourlyRate)]
                && db.devices == SetDeviceState(old(db.devices), d, true, "available")
              else closed.None?
    ensures closed.None? ==> db.sessions == old(db.sessions) && db.devices == old(db.devices)
  {
    var selection := ParseSelection(deviceText);
    if !selection.Selected? {
      return None;
    }
    var d := selection.id;
    var found := LatestOpenSession(db.sessions, d);
    if found.None? {
      return None;
    }
    LatestOpenSessionSpec(db.sessions, d);
    if !(1 <= d <= |db.devices|) {
      return None;
    }
    var k := found.value;
    var rate := db.devices[d - 1].hourlyRate;
    db.sessions := db.sessions[k := CloseSession(db.sessions[k], now, rate)];
    db.devices := db.devices[d - 1 := db.devices[d - 1].(isAvailable := true, status := "available")];
    closed := Some(k + 1);
  }
}
