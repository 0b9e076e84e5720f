/** The Maintenance schema (backend/src/models/Maintenance.js): a required
    equipment reference, type and status enums (status defaults to
    Scheduled), required trimmed description, a date defaulting to the
    creation time, a non-negative cost and optional trimmed notes. */
module MaintenanceModel {
  import opened Json
  import opened Schema

  /** The `type` path (`type` is a keyword in Dafny, hence `Kind`). */
  datatype Kind = Preventive | Repair | Inspection | OilChange | Other

  datatype Status = Scheduled | InProgress | Completed | Cancelled

  function KindName(k: Kind): string {
    match k
    case Preventive => "Preventive"
    case Repair => "Repair"
    case Inspection => "Inspection"
    case OilChange => "Oil Change"
    case Other => "Other"
  }

  function StatusName(s: Status): string {
    match s
    case Scheduled => "Scheduled"
    case InProgress => "In Progress"
    case Completed => "Completed"
    case Cancelled => "Cancelled"
  }

  /** The type `enum` validator. */
  function ParseKind(s: string): (r: Option<Kind>)
    ensures r.Some? ==> KindName(r.value) == s
  {
    if s == "Preventive" then Some(Preventive)
    else if s == "Repair" then Some(Repair)
    else if s == "Inspection" then Some(Inspection)
    else if s == "Oil Change" then Some(OilChange)
    else if s == "Other" then Some(Other)
    else None
  }

  /** The status `enum` validator. */
  function ParseStatus(s: string): (r: Option<Status>)
    ensures r.Some? ==> StatusName(r.value) == s
  {
    if s == "Scheduled" then Some(Scheduled)
    else if s == "In Progress" then Some(InProgress)
    else if s == "Completed" then Some(Completed)
    else if s == "Cancelled" then Some(Cancelled)
    else None
  }

  lemma NamesRoundTrip(k: Kind, s: Status)
    ensures ParseKind(KindName(k)) == Some(k) && KindName(k) != []
    ensures ParseStatus(StatusName(s)) == Some(s) && StatusName(s) != []
  {
    match k
    case Preventive =>
    case Repair =>
    case Inspection =>
    case OilChange =>
    case Other =>
  }

  /** A stored maintenance record. Costs are in cents, dates are timestamps. */
  datatype Maintenance = Maintenance(
    equipmentId: nat,
    kind: Kind,
    description: string,
    date: int,
    status: Status,
    cost: int,
    notes: Option<string>)

  /** The schema's constraints on a stored record. Whether `equipmentId`
      names stored equipment is not a schema constraint. */
  predicate Valid(m: Maintenance) {
    && m.description != [] && IsTrimmed(m.description)
    && m.cost >= 0
    && (m.notes.Some? ==> IsTrimmed(m.notes.value))
  }

  const DefaultStatus: Status := Scheduled

  /** Combines the seven path outcomes, in schema order. */
  function Assemble(
    equipmentId: Checked<nat>, kind: Checked<Kind>, description: Checked<string>, date: Checked<int>,
    status: Checked<Status>, cost: Checked<int>, notes: Checked<Option<string>>): (r: Validated<Maintenance>)
    ensures r.Passed? <==>
      equipmentId.Accepted? && kind.Accepted? && description.Accepted? && date.Accepted?
      && status.Accepted? && cost.Accepted? && notes.Accepted?
    ensures r.Passed? ==> r.doc == Maintenance(equipmentId.value, kind.value, description.value,
      date.value, status.value, cost.value, notes.value)
    ensures r.Failed? ==>
      r.errors == Errors(equipmentId) + Errors(kind) + Errors(description) + Errors(date)
        + Errors(status) + Errors(cost) + Errors(notes)
  {
    var errors := Errors(equipmentId) + Errors(kind) + Errors(description) + Errors(date)
      + Errors(status) + Errors(cost) + Errors(notes);
    if errors == [] then
      Passed(Maintenance(equipmentId.value, kind.value, description.value,
        date.value, status.value, cost.value, notes.value))
    else Failed(errors)
  }

  /** `new Maintenance(body)` followed by validation on save; `now` is the
      clock reading `Date.now` would give. */
  function FromBody(body: Payload, now: int): (r: Validated<Maintenance>)
    ensures r.Passed? ==> Valid(r.doc)
    ensures r.Failed? ==> r.errors != []
  {
    Assemble(
      Reference(body, "equipmentId"),
      Choice(body, "type", ParseKind, None),
      RequiredText(body, "description"),
      Timestamp(body, "date", now),
      Choice(body, "status", ParseStatus, Some(DefaultStatus)),
      Number(body, "cost", 0, None),
      OptionalText(body, "notes"))
  }

  /** The violations `runValidators` finds in an update body, before any
      document is looked up: those of the paths the body names, in schema
      order. */
  function UpdateViolations(body: Payload): seq<Violation> {
    Supplied(body, "equipmentId", Reference(body, "equipmentId"))
    + Supplied(body, "type", Choice(body, "type", ParseKind, None))
    + Supplied(body, "description", RequiredText(body, "description"))
    + Supplied(body, "date", Timestamp(body, "date", 0))
    + Supplied(body, "status", Choice(body, "status", ParseStatus, None))
    + Supplied(body, "cost", Number(body, "cost", 0, None))
    + Supplied(body, "notes", OptionalText(body, "notes"))
  }

  /** `findByIdAndUpdate(id, body, { runValidators: true })`: only the paths
      the body names are cast and validated. A new `equipmentId` is only
      cast, never looked up. */
  function Update(m: Maintenance, body: Payload): (r: Validated<Maintenance>)
    ensures Valid(m) && r.Passed? ==> Valid(r.doc)
    ensures r.Passed? ==>
      && ("equipmentId" !in body ==> r.doc.equipmentId == m.equipmentId)
      && ("type" !in body ==> r.doc.kind == m.kind)
      && ("description" !in body ==> r.doc.description == m.description)
      && ("date" !in body ==> r.doc.date == m.date)
      && ("status" !in body ==> r.doc.status == m.status)
      && ("cost" !in body ==> r.doc.cost == m.cost)
      && ("notes" !in body ==> r.doc.notes == m.notes)
    ensures r.Failed? ==> r.errors != []
  {
    Assemble(
      Keep(body, "equipmentId", m.equipmentId, Reference(body, "equipmentId")),
      Keep(body, "type", m.kind, Choice(body, "type", ParseKind, None)),
      Keep(body, "description", m.description, RequiredText(body, "description")),
      Keep(body, "date", m.date, Timestamp(body, "date", m.date)),
      Keep(body, "status", m.status, Choice(body, "status", ParseStatus, None)),
      Keep(body, "cost", m.cost, Number(body, "cost", 0, None)),
      Keep(body, "notes", m.notes, OptionalText(body, "notes")))
  }

  /** An update fails exactly when the paths it names have violations, and
      reports those, whatever record it is applied to. */
  lemma UpdateFailsOnViolations(m: Maintenance, body: Payload)
    ensures Update(m, body).Failed? <==> UpdateViolations(body) != []
    ensures Update(m, body).Failed? ==> Update(m, body).errors == UpdateViolations(body)
  {
    var equipmentId := Keep(body, "equipmentId", m.equipmentId, Reference(body, "equipmentId"));
    var kind := Keep(body, "type", m.kind, Choice(body, "type", ParseKind, None));
    var description := Keep(body, "description", m.description, RequiredText(body, "description"));
    var date := Keep(body, "date", m.date, Timestamp(body, "date", m.date));
    var status := Keep(body, "status", m.status, Choice(body, "status", ParseStatus, None));
    var cost := Keep(body, "cost", m.cost, Number(body, "cost", 0, None));
    var notes := Keep(body, "notes", m.notes, OptionalText(body, "notes"));
    KeepErrors(body, "equipmentId", m.equipmentId, Reference(body, "equipmentId"));
    KeepErrors(body, "type", m.kind, Choice(body, "type", ParseKind, None));
    KeepErrors(body, "description", m.description, RequiredText(body, "description"));
    KeepErrors(body, "date", m.date, Timestamp(body, "date", m.date));
    if "date" in body {
      TimestampErrors(body, "date", m.date, 0);
    }
    KeepErrors(body, "status", m.status, Choice(body, "status", ParseStatus, None));
    KeepErrors(body, "cost", m.cost, Number(body, "cost", 0, None));
    KeepErrors(body, "notes", m.notes, OptionalText(body, "notes"));
    assert Update(m, body) == Assemble(equipmentId, kind, description, date, status, cost, notes);
  }

  /** The reference, date, status and cost of a created record are what
      their path readers accept. */
  lemma CreateReadsPaths(body: Payload, now: int)
    requires FromBody(body, now).Passed?
    ensures Reference(body, "equipmentId") == Accepted(FromBody(body, now).doc.equipmentId)
    ensures Timestamp(body, "date", now) == Accepted(FromBody(body, now).doc.date)
    ensures Choice(body, "status", ParseStatus, Some(DefaultStatus)) == Accepted(FromBody(body, now).doc.status)
    ensures Number(body, "cost", 0, None) == Accepted(FromBody(body, now).doc.cost)
  {
  }

  /** The type, description and notes of a created record are what their
      path readers accept. */
  lemma CreateReadsText(body: Payload, now: int)
    requires FromBody(body, now).Passed?
    ensures Choice(body, "type", ParseKind, None) == Accepted(FromBody(body, now).doc.kind)
    ensures RequiredText(body, "description") == Accepted(FromBody(body, now).doc.description)
    ensures OptionalText(body, "notes") == Accepted(FromBody(body, now).doc.notes)
  {
  }

  /** A created record stores the submitted reference, type, description,
      cost and notes, and the submitted date and status or their defaults. */
  lemma CreateStores(body: Payload, now: int)
    requires FromBody(body, now).Passed?
    ensures "equipmentId" in body && body["equipmentId"].Oid?
      && FromBody(body, now).doc.equipmentId == body["equipmentId"].id
    ensures "type" in body && IsText(body["type"]) && ParseKind(TextOf(body["type"])) == Some(FromBody(body, now).doc.kind)
    ensures "description" in body && IsText(body["description"])
      && FromBody(body, now).doc.description == Trim(TextOf(body["description"]))
    ensures if "date" in body then body["date"].Num? && FromBody(body, now).doc.date == body["date"].n
      else FromBody(body, now).doc.date == now
    ensures if "status" in body
      then IsText(body["status"]) && ParseStatus(TextOf(body["status"])) == Some(FromBody(body, now).doc.status)
      else FromBody(body, now).doc.status == DefaultStatus
    ensures "cost" in body && body["cost"].Num? && FromBody(body, now).doc.cost == body["cost"].n
    ensures Unset(body, "notes") ==> FromBody(body, now).doc.notes == None
    ensures !Unset(body, "notes") ==> IsText(body["notes"]) && FromBody(body, now).doc.notes == Some(Trim(TextOf(body["notes"])))
  {
    CreateReadsPaths(body, now);
    CreateReadsText(body, now);
    var doc := FromBody(body, now).doc;
    ReferenceStored(body, "equipmentId", doc.equipmentId);
    ChoiceStored(body, "type", ParseKind, None, doc.kind);
    TextStored(body, "description", doc.description);
    TimestampStored(body, "date", now, doc.date);
    ChoiceStored(body, "status", ParseStatus, Some(DefaultStatus), doc.status);
    NumberStored(body, "cost", 0, None, doc.cost);
    OptionalStored(body, "notes", doc.notes);
  }

  /** Each path an accepted update names holds what its reader accepts. */
  lemma UpdateReadsPaths(m: Maintenance, body: Payload)
    requires Update(m, body).Passed?
    ensures "equipmentId" in body ==> Reference(body, "equipmentId") == Accepted(Update(m, body).doc.equipmentId)
    ensures "type" in body ==> Choice(body, "type", ParseKind, None) == Accepted(Update(m, body).doc.kind)
    ensures "description" in body ==> RequiredText(body, "description") == Accepted(Update(m, body).doc.description)
    ensures "date" in body ==> Timestamp(body, "date", m.date) == Accepted(Update(m, body).doc.date)
    ensures "status" in body ==> Choice(body, "status", ParseStatus, None) == Accepted(Update(m, body).doc.status)
    ensures "cost" in body ==> Number(body, "cost", 0, None) == Accepted(Update(m, body).doc.cost)
    ensures "notes" in body ==> OptionalText(body, "notes") == Accepted(Update(m, body).doc.notes)
  {
  }

  /** An accepted update stores, at every path the body names, the body's
      value: the reference as sent (never looked up), enum names parsed,
      texts trimmed, null notes cleared. */
  lemma UpdateStores(m: Maintenance, body: Payload)
    requires Update(m, body).Passed?
    ensures "equipmentId" in body ==>
      body["equipmentId"].Oid? && Update(m, body).doc.equipmentId == body["equipmentId"].id
    ensures "type" in body ==> IsText(body["type"]) && ParseKind(TextOf(body["type"])) == Some(Update(m, body).doc.kind)
    ensures "description" in body ==>
      IsText(body["description"]) && Update(m, body).doc.description == Trim(TextOf(body["description"]))
    ensures "date" in body ==> body["date"].Num? && Update(m, body).doc.date == body["date"].n
    ensures "status" in body ==>
      IsText(body["status"]) && ParseStatus(TextOf(body["status"])) == Some(Update(m, body).doc.status)
    ensures "cost" in body ==> body["cost"].Num? && Update(m, body).doc.cost == body["cost"].n
    ensures "notes" in body && body["notes"] == Null ==> Update(m, body).doc.notes == None
    ensures "notes" in body && body["notes"] != Null ==>
      IsText(body["notes"]) && Update(m, body).doc.notes == Some(Trim(TextOf(body["notes"])))
  {
    UpdateReadsPaths(m, body);
    var doc := Update(m, body).doc;
    if "equipmentId" in body { ReferenceStored(body, "equipmentId", doc.equipmentId); }
    if "type" in body { ChoiceStored(body, "type", ParseKind, None, doc.kind); }
    if "description" in body { TextStored(body, "description", doc.description); }
    if "date" in body { TimestampStored(body, "date", m.date, doc.date); }
    if "status" in body { ChoiceStored(body, "status", ParseStatus, None, doc.status); }
    if "cost" in body { NumberStored(body, "cost", 0, None, doc.cost); }
    if "notes" in body { OptionalStored(body, "notes", doc.notes); }
  }

  /** The JSON a client sends to store exactly `m` (null notes clear them on
      update). */
  function ToPayload(m: Maintenance): (body: Payload)
    ensures "equipmentId" in body && body["equipmentId"] == Oid(m.equipmentId)
    ensures "type" in body && body["type"] == Str(KindName(m.kind))
    ensures "description" in body && body["description"] == Str(m.description)
    ensures "date" in body && body["date"] == Num(m.date)
    ensures "status" in body && body["status"] == Str(StatusName(m.status))
    ensures "cost" in body && body["cost"] == Num(m.cost)
    ensures "notes" in body && body["notes"] == if m.notes.Some? then Str(m.notes.value) else Null
  {
    map[
      "equipmentId" := Oid(m.equipmentId),
      "type" := Str(KindName(m.kind)),
      "description" := Str(m.description),
      "date" := Num(m.date),
      "status" := Str(StatusName(m.status)),
      "cost" := Num(m.cost),
      "notes" := if m.notes.Some? then Str(m.notes.value) else Null]
  }

  /** Every valid record can be created from its own JSON, whatever the
      clock says, and the same JSON turns any stored record into it. */
  lemma RoundTrip(stored: Maintenance, m: Maintenance, now: int)
    requires Valid(m)
    ensures FromBody(ToPayload(m), now) == Passed(m)
    ensures Update(stored, ToPayload(m)) == Passed(m)
  {
    var body := ToPayload(m);
    RequiredTextOf(body, "description", m.description);
    OptionalTextOf(body, "notes", m.notes);
    NamesRoundTrip(m.kind, m.status);
    ChoiceOf(body, "type", ParseKind, None, KindName(m.kind), m.kind);
    ChoiceOf(body, "status", ParseStatus, Some(DefaultStatus), StatusName(m.status), m.status);
    ChoiceOf(body, "status", ParseStatus, None, StatusName(m.status), m.status);
    NumberOf(body, "cost", 0, None, m.cost);
    assert Reference(body, "equipmentId") == Accepted(m.equipmentId);
    assert Timestamp(body, "date", now) == Accepted(m.date);
    assert Timestamp(body, "date", stored.date) == Accepted(m.date);
    assert FromBody(body, now) == Assemble(Accepted(m.equipmentId), Accepted(m.kind), Accepted(m.description),
      Accepted(m.date), Accepted(m.status), Accepted(m.cost), Accepted(m.notes));
    assert Update(stored, body) == Assemble(Accepted(m.equipmentId), Accepted(m.kind), Accepted(m.description),
      Accepted(m.date), Accepted(m.status), Accepted(m.cost), Accepted(m.notes));
  }

  /** Absent status and date take their defaults: Scheduled, and the
      creation time. */
  lemma Defaults(body: Payload, now: int)
    requires "status" !in body && "date" !in body
    requires FromBody(body, now).Passed?
    ensures FromBody(body, now).doc.status == Scheduled
    ensures FromBody(body, now).doc.date == now
  {
  }

  /** A record needs an equipment reference and a cost, and a negative cost
      is rejected. */
  lemma RequiredReferenceAndCost(body: Payload, now: int)
    ensures Unset(body, "equipmentId") ==> Required("equipmentId") in FromBody(body, now).errors
    ensures "cost" !in body ==> Required("cost") in FromBody(body, now).errors
    ensures "cost" in body && body["cost"].Num? && body["cost"].n < 0 ==>
      BelowMin("cost", body["cost"].n, 0) in FromBody(body, now).errors
  {
  }
}
