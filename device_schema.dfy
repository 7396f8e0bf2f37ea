/**
 * The Device collection's schema (backend/src/models/Device.js): a device belongs to a
 * parlour, has one of nine console families, a list of console units and an hourly price.
 */
module DeviceSchema {
  import opened Wrappers

  datatype DeviceType =
    | PlayStation1 | PlayStation2 | PlayStation3 | PlayStation4 | PlayStation5
    | Xbox360 | XboxOne | XboxSeriesX | NintendoSwitch

  /** The enum literal the schema lists for each family. */
  function DeviceTypeName(t: DeviceType): string
  {
    match t
    case PlayStation1 => "PlayStation 1"
    case PlayStation2 => "PlayStation 2"
    case PlayStation3 => "PlayStation 3"
    case PlayStation4 => "PlayStation 4"
    case PlayStation5 => "PlayStation 5"
    case Xbox360 => "Xbox 360"
    case XboxOne => "Xbox One"
    case XboxSeriesX => "Xbox Series X"
    case NintendoSwitch => "Nintendo Switch"
  }

  const DeviceTypeNames: seq<string> := [
    "PlayStation 1", "PlayStation 2", "PlayStation 3", "PlayStation 4", "PlayStation 5",
    "Xbox 360", "Xbox One", "Xbox Series X", "Nintendo Switch"]

  /** The schema's enum check on `type`: accepted exactly when the text is one of the nine literals. */
  function ParseDeviceType(s: string): (r: Option<DeviceType>)
    ensures r.Some? ==> DeviceTypeName(r.value) == s
    ensures r.Some? <==> s in DeviceTypeNames
  {
    if s == "PlayStation 1" then Some(PlayStation1)
    else if s == "PlayStation 2" then Some(PlayStation2)
    else if s == "PlayStation 3" then Some(PlayStation3)
    else if s == "PlayStation 4" then Some(PlayStation4)
    else if s == "PlayStation 5" then Some(PlayStation5)
    else if s == "Xbox 360" then Some(Xbox360)
    else if s == "Xbox One" then Some(XboxOne)
    else if s == "Xbox Series X" then Some(XboxSeriesX)
    else if s == "Nintendo Switch" then Some(NintendoSwitch)
    else None
  }

  lemma DeviceTypeRoundTrip(t: DeviceType)
    ensures ParseDeviceType(DeviceTypeName(t)) == Some(t)
  {
  }

  datatype UnitStatus = Available | InUse | Maintenance

  function UnitStatusName(u: UnitStatus): string
  {
    match u
    case Available => "available"
    case InUse => "in-use"
    case Maintenance => "maintenance"
  }

  /** The enum check on a unit's `status`. */
  function ParseUnitStatus(s: string): (r: Option<UnitStatus>)
    ensures r.Some? ==> UnitStatusName(r.value) == s
    ensures r.Some? <==> s in {"available", "in-use", "maintenance"}
  {
    if s == "available" then Some(Available)
    else if s == "in-use" then Some(InUse)
    else if s == "maintenance" then Some(Maintenance)
    else None
  }

  lemma UnitStatusRoundTrip(u: UnitStatus)
    ensures ParseUnitStatus(UnitStatusName(u)) == Some(u)
  {
  }

  const DefaultUnitStatus: UnitStatus := Available

  datatype ConsoleUnit = ConsoleUnit(consoleId: string, status: UnitStatus)

  datatype Device = Device(
    id: string,
    parlour: string,
    deviceType: DeviceType,
    consoleUnits: seq<ConsoleUnit>,
    pricePerHour: real)

  /** A device as submitted: every field may be missing, enums are still text. */
  datatype UnitDraft = UnitDraft(consoleId: Option<string>, status: Option<string>)

  datatype DeviceDraft = DeviceDraft(
    parlour: Option<string>,
    deviceType: Option<string>,
    consoleUnits: seq<UnitDraft>,
    pricePerHour: Option<real>)

  datatype DeviceField = ParlourField | TypeField | UnitIdField(unit: nat) | UnitStatusField(unit: nat) | PriceField

  datatype DeviceViolation = Required(field: DeviceField) | NotInEnum(field: DeviceField)

  /** Mongoose's `required` on a string or an id: present and not the empty string. */
  predicate Given(s: Option<string>)
  {
    s.Some? && s.value != ""
  }

  predicate UnitDraftValid(u: UnitDraft)
  {
    Given(u.consoleId) && (u.status.None? || ParseUnitStatus(u.status.value).Some?)
  }

  /** The violations of the units from position `from` on, in order. */
  function UnitViolations(units: seq<UnitDraft>, from: nat): (v: seq<DeviceViolation>)
    ensures v == [] <==> forall i :: 0 <= i < |units| ==> UnitDraftValid(units[i])
    decreases |units|
  {
    if units == [] then []
    else
      var u := units[0];
      (if Given(u.consoleId) then [] else [Required(UnitIdField(from))])
      + (if u.status.None? || ParseUnitStatus(u.status.value).Some? then [] else [NotInEnum(UnitStatusField(from))])
      + UnitViolations(units[1..], from + 1)
  }

  /** Every schema violation of a draft, in schema order. */
  function Violations(d: DeviceDraft): seq<DeviceViolation>
  {
    (if Given(d.parlour) then [] else [Required(ParlourField)])
    + (if !Given(d.deviceType) then [Required(TypeField)]
       else if ParseDeviceType(d.deviceType.value).None? then [NotInEnum(TypeField)]
       else [])
    + UnitViolations(d.consoleUnits, 0)
    + (if d.pricePerHour.Some? then [] else [Required(PriceField)])
  }

  function UnitFromDraft(u: UnitDraft): ConsoleUnit
    requires UnitDraftValid(u)
  {
    ConsoleUnit(u.consoleId.value, if u.status.None? then DefaultUnitStatus else ParseUnitStatus(u.status.value).value)
  }

  /** Validation and defaults of `Device.create`. */
  function Validate(id: string, d: DeviceDraft): (r: Result<Device, seq<DeviceViolation>>)
    ensures r.Ok? <==>
      && Given(d.parlour)
      && d.deviceType.Some? && d.deviceType.value in DeviceTypeNames
      && (forall i :: 0 <= i < |d.consoleUnits| ==> Given(d.consoleUnits[i].consoleId))
      && (forall i :: 0 <= i < |d.consoleUnits| ==> d.consoleUnits[i].status.None? ||
                                                    d.consoleUnits[i].status.value in {"available", "in-use", "maintenance"})
      && d.pricePerHour.Some?
    ensures r.Ok? ==>
      && r.value.id == id && r.value.parlour == d.parlour.value && r.value.pricePerHour == d.pricePerHour.value
      && |r.value.consoleUnits| == |d.consoleUnits|
      && DeviceTypeName(r.value.deviceType) == d.deviceType.value
      && forall i :: 0 <= i < |d.consoleUnits| ==>
           && r.value.consoleUnits[i].consoleId == d.consoleUnits[i].consoleId.value
           && (d.consoleUnits[i].status.None? ==> r.value.consoleUnits[i].status == Available)
           && (d.consoleUnits[i].status.Some? ==> UnitStatusName(r.value.consoleUnits[i].status) == d.consoleUnits[i].status.value)
    ensures r.Err? ==> r.error != []
  {
    var v := Violations(d);
    if v == [] then
      Ok(Device(id, d.parlour.value, ParseDeviceType(d.deviceType.value).value,
                seq(|d.consoleUnits|, i requires 0 <= i < |d.consoleUnits| => UnitFromDraft(d.consoleUnits[i])),
                d.pricePerHour.value))
    else Err(v)
  }

  /** The schema does not make `consoleId` unique within a device: two units may share one. */
  lemma DuplicateConsoleIdsAccepted()
    ensures Validate("d1", DeviceDraft(Some("p1"), Some("PlayStation 5"),
                                       [UnitDraft(Some("A"), None), UnitDraft(Some("A"), Some("maintenance"))],
                                       Some(4.0))).Ok?
  {
    var d := DeviceDraft(Some("p1"), Some("PlayStation 5"),
                         [UnitDraft(Some("A"), None), UnitDraft(Some("A"), Some("maintenance"))], Some(4.0));
    assert UnitDraftValid(d.consoleUnits[0]) && UnitDraftValid(d.consoleUnits[1]);
  }
}
