/** The Equipment schema (backend/src/models/Equipment.js): three required
    trimmed strings and two required enums without defaults. */
module EquipmentModel {
  import opened Json
  import opened Schema

  datatype Category = Tractor | Harvester | Planter | Tillage | Application | GrainHandling

  datatype Status = Active | InMaintenance | OutOfService | Retired

  function CategoryName(c: Category): string {
    match c
    case Tractor => "Tractor"
    case Harvester => "Harvester"
    case Planter => "Planter"
    case Tillage => "Tillage"
    case Application => "Application"
    case GrainHandling => "Grain Handling"
  }

  function StatusName(s: Status): string {
    match s
    case Active => "Active"
    case InMaintenance => "In Maintenance"
    case OutOfService => "Out of Service"
    case Retired => "Retired"
  }

  /** The category `enum` validator. */
  function ParseCategory(s: string): (r: Option<Category>)
    ensures r.Some? ==> CategoryName(r.value) == s
  {
    if s == "Tractor" then Some(Tractor)
    else if s == "Harvester" then Some(Harvester)
    else if s == "Planter" then Some(Planter)
    else if s == "Tillage" then Some(Tillage)
    else if s == "Application" then Some(Application)
    else if s == "Grain Handling" then Some(GrainHandling)
    else None
  }

  /** The status `enum` validator. */
  function ParseStatus(s: string): (r: Option<Status>)
    ensures r.Some? ==> StatusName(r.value) == s
  {
    if s == "Active" then Some(Active)
    else if s == "In Maintenance" then Some(InMaintenance)
    else if s == "Out of Service" then Some(OutOfService)
    else if s == "Retired" then Some(Retired)
    else None
  }

  lemma NamesRoundTrip(c: Category, s: Status)
    ensures ParseCategory(CategoryName(c)) == Some(c) && CategoryName(c) != []
    ensures ParseStatus(StatusName(s)) == Some(s) && StatusName(s) != []
  {
    match c
    case Tractor =>
    case Harvester =>
    case Planter =>
    case Tillage =>
    case Application =>
    case GrainHandling =>
  }

  datatype Equipment = Equipment(
    name: string,
    manufacturer: string,
    model: string,
    category: Category,
    status: Status)

  /** The schema's constraints on stored equipment. */
  predicate Valid(e: Equipment) {
    && e.name != [] && IsTrimmed(e.name)
    && e.manufacturer != [] && IsTrimmed(e.manufacturer)
    && e.model != [] && IsTrimmed(e.model)
  }

  /** Combines the five path outcomes, in schema order. */
  function Assemble(
    name: Checked<string>, manufacturer: Checked<string>, model: Checked<string>,
    category: Checked<Category>, status: Checked<Status>): (r: Validated<Equipment>)
    ensures r.Passed? <==>
      name.Accepted? && manufacturer.Accepted? && model.Accepted? && category.Accepted? && status.Accepted?
    ensures r.Passed? ==>
      r.doc == Equipment(name.value, manufacturer.value, model.value, category.value, status.value)
    ensures r.Failed? ==>
      r.errors == Errors(name) + Errors(manufacturer) + Errors(model) + Errors(category) + Errors(status)
  {
    var errors := Errors(name) + Errors(manufacturer) + Errors(model) + Errors(category) + Errors(status);
    if errors == [] then
      Passed(Equipment(name.value, manufacturer.value, model.value, category.value, status.value))
    else Failed(errors)
  }

  /** `new Equipment(body)` followed by validation on save. */
  function FromBody(body: Payload): (r: Validated<Equipment>)
    ensures r.Passed? ==> Valid(r.doc)
    ensures r.Failed? ==> r.errors != []
  {
    Assemble(
      RequiredText(body, "name"),
      RequiredText(body, "manufacturer"),
      RequiredText(body, "model"),
      Choice(body, "category", ParseCategory, None),
      Choice(body, "status", ParseStatus, None))
  }

  /** The five paths of created equipment are what their readers accept. */
  lemma CreateReadsPaths(body: Payload)
    requires FromBody(body).Passed?
    ensures RequiredText(body, "name") == Accepted(FromBody(body).doc.name)
    ensures RequiredText(body, "manufacturer") == Accepted(FromBody(body).doc.manufacturer)
    ensures RequiredText(body, "model") == Accepted(FromBody(body).doc.model)
    ensures Choice(body, "category", ParseCategory, None) == Accepted(FromBody(body).doc.category)
    ensures Choice(body, "status", ParseStatus, None) == Accepted(FromBody(body).doc.status)
  {
  }

  /** Created equipment stores the submitted texts trimmed and the submitted
      category and status; every path must be in the body. */
  lemma CreateStores(body: Payload)
    requires FromBody(body).Passed?
    ensures "name" in body && IsText(body["name"]) && FromBody(body).doc.name == Trim(TextOf(body["name"]))
    ensures "manufacturer" in body && IsText(body["manufacturer"])
      && FromBody(body).doc.manufacturer == Trim(TextOf(body["manufacturer"]))
    ensures "model" in body && IsText(body["model"]) && FromBody(body).doc.model == Trim(TextOf(body["model"]))
    ensures "category" in body && IsText(body["category"])
      && ParseCategory(TextOf(body["category"])) == Some(FromBody(body).doc.category)
    ensures "status" in body && IsText(body["status"])
      && ParseStatus(TextOf(body["status"])) == Some(FromBody(body).doc.status)
  {
    CreateReadsPaths(body);
    var doc := FromBody(body).doc;
    TextStored(body, "name", doc.name);
    TextStored(body, "manufacturer", doc.manufacturer);
    TextStored(body, "model", doc.model);
    ChoiceStored(body, "category", ParseCategory, None, doc.category);
    ChoiceStored(body, "status", ParseStatus, None, doc.status);
  }

  /** The violations `runValidators` finds in an update body, before any
      document is looked up: those of the paths the body names, in schema
      order. */
  function UpdateViolations(body: Payload): seq<Violation> {
    Supplied(body, "name", RequiredText(body, "name"))
    + Supplied(body, "manufacturer", RequiredText(body, "manufacturer"))
    + Supplied(body, "model", RequiredText(body, "model"))
    + Supplied(body, "category", Choice(body, "category", ParseCategory, None))
    + Supplied(body, "status", Choice(body, "status", ParseStatus, None))
  }

  /** `findByIdAndUpdate(id, body, { runValidators: true })`: only the paths
      the body names are cast and validated. */
  function Update(e: Equipment, body: Payload): (r: Validated<Equipment>)
    ensures Valid(e) && r.Passed? ==> Valid(r.doc)
    ensures r.Passed? ==>
      && ("name" !in body ==> r.doc.name == e.name)
      && ("manufacturer" !in body ==> r.doc.manufacturer == e.manufacturer)
      && ("model" !in body ==> r.doc.model == e.model)
      && ("category" !in body ==> r.doc.category == e.category)
      && ("status" !in body ==> r.doc.status == e.status)
    ensures r.Failed? <==> UpdateViolations(body) != []
    ensures r.Failed? ==> r.errors == UpdateViolations(body)
  {
    Assemble(
      Keep(body, "name", e.name, RequiredText(body, "name")),
      Keep(body, "manufacturer", e.manufacturer, RequiredText(body, "manufacturer")),
      Keep(body, "model", e.model, RequiredText(body, "model")),
      Keep(body, "category", e.category, Choice(body, "category", ParseCategory, None)),
      Keep(body, "status", e.status, Choice(body, "status", ParseStatus, None)))
  }

  /** Each path an accepted update names holds what its reader accepts. */
  lemma UpdateReadsPaths(e: Equipment, body: Payload)
    requires Update(e, body).Passed?
    ensures "name" in body ==> RequiredText(body, "name") == Accepted(Update(e, body).doc.name)
    ensures "manufacturer" in body ==> RequiredText(body, "manufacturer") == Accepted(Update(e, body).doc.manufacturer)
    ensures "model" in body ==> RequiredText(body, "model") == Accepted(Update(e, body).doc.model)
    ensures "category" in body ==> Choice(body, "category", ParseCategory, None) == Accepted(Update(e, body).doc.category)
    ensures "status" in body ==> Choice(body, "status", ParseStatus, None) == Accepted(Update(e, body).doc.status)
  {
  }

  /** An accepted update stores, at every path the body names, the body's
      value: texts trimmed, enum names parsed. */
  lemma UpdateStores(e: Equipment, body: Payload)
    requires Update(e, body).Passed?
    ensures "name" in body ==> IsText(body["name"]) && Update(e, body).doc.name == Trim(TextOf(body["name"]))
    ensures "manufacturer" in body ==>
      IsText(body["manufacturer"]) && Update(e, body).doc.manufacturer == Trim(TextOf(body["manufacturer"]))
    ensures "model" in body ==> IsText(body["model"]) && Update(e, body).doc.model == Trim(TextOf(body["model"]))
    ensures "category" in body ==>
      IsText(body["category"]) && ParseCategory(TextOf(body["category"])) == Some(Update(e, body).doc.category)
    ensures "status" in body ==>
      IsText(body["status"]) && ParseStatus(TextOf(body["status"])) == Some(Update(e, body).doc.status)
  {
    UpdateReadsPaths(e, body);
    var doc := Update(e, body).doc;
    if "name" in body { TextStored(body, "name", doc.name); }
    if "manufacturer" in body { TextStored(body, "manufacturer", doc.manufacturer); }
    if "model" in body { TextStored(body, "model", doc.model); }
    if "category" in body { ChoiceStored(body, "category", ParseCategory, None, doc.category); }
    if "status" in body { ChoiceStored(body, "status", ParseStatus, None, doc.status); }
  }

  /** The JSON a client sends to store exactly `e`. */
  function ToPayload(e: Equipment): (body: Payload)
    ensures "name" in body && body["name"] == Str(e.name)
    ensures "manufacturer" in body && body["manufacturer"] == Str(e.manufacturer)
    ensures "model" in body && body["model"] == Str(e.model)
    ensures "category" in body && body["category"] == Str(CategoryName(e.category))
    ensures "status" in body && body["status"] == Str(StatusName(e.status))
  {
    map[
      "name" := Str(e.name),
      "manufacturer" := Str(e.manufacturer),
      "model" := Str(e.model),
      "category" := Str(CategoryName(e.category)),
      "status" := Str(StatusName(e.status))]
  }

  /** Every valid record can be created from its own JSON and comes back
      unchanged; the same JSON turns any stored record into it. */
  lemma RoundTrip(stored: Equipment, e: Equipment)
    requires Valid(e)
    ensures FromBody(ToPayload(e)) == Passed(e)
    ensures Update(stored, ToPayload(e)) == Passed(e)
  {
    var body := ToPayload(e);
    RequiredTextOf(body, "name", e.name);
    RequiredTextOf(body, "manufacturer", e.manufacturer);
    RequiredTextOf(body, "model", e.model);
    NamesRoundTrip(e.category, e.status);
    ChoiceOf(body, "category", ParseCategory, None, CategoryName(e.category), e.category);
    ChoiceOf(body, "status", ParseStatus, None, StatusName(e.status), e.status);
  }

  /** Category and status have no default: a body without either is
      rejected with a `required` violation for it. */
  lemma NoDefaults(body: Payload)
    ensures "category" !in body ==> FromBody(body).Failed? && Required("category") in FromBody(body).errors
    ensures "status" !in body ==> FromBody(body).Failed? && Required("status") in FromBody(body).errors
  {
    AssembleReports(
      RequiredText(body, "name"),
      RequiredText(body, "manufacturer"),
      RequiredText(body, "model"),
      Choice(body, "category", ParseCategory, None),
      Choice(body, "status", ParseStatus, None));
  }

  /** A rejected category or status is among the reported violations. */
  lemma AssembleReports(
    name: Checked<string>, manufacturer: Checked<string>, model: Checked<string>,
    category: Checked<Category>, status: Checked<Status>)
    ensures category.Rejected? ==> var r := Assemble(name, manufacturer, model, category, status);
      r.Failed? && category.violation in r.errors
    ensures status.Rejected? ==> var r := Assemble(name, manufacturer, model, category, status);
      r.Failed? && status.violation in r.errors
  {
    var errors := Errors(name) + Errors(manufacturer) + Errors(model) + Errors(category) + Errors(status);
    if category.Rejected? {
      assert errors[|errors| - |Errors(status)| - 1] == category.violation;
    }
    if status.Rejected? {
      assert errors[|errors| - 1] == status.violation;
    }
  }

  /** A status outside the four listed ones is rejected on create and on
      update, and named in the violation. */
  lemma UnknownStatusRejected(e: Equipment, body: Payload)
    requires "status" in body && IsText(body["status"]) && TextOf(body["status"]) != []
    requires ParseStatus(TextOf(body["status"])) == None
    ensures NotInEnum("status", TextOf(body["status"])) in FromBody(body).errors
    ensures NotInEnum("status", TextOf(body["status"])) in Update(e, body).errors
  {
  }
}
