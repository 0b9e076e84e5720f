/** The Part schema (backend/src/models/Part.js): required trimmed text,
    non-negative numbers with defaults, the category enum and the
    `needsReorder` virtual. */
module PartModel {
  import opened Json
  import opened Schema

  datatype Category = Engine | Transmission | Electrical | Hydraulic | Body | Other

  function CategoryName(c: Category): string {
    match c
    case Engine => "Engine"
    case Transmission => "Transmission"
    case Electrical => "Electrical"
    case Hydraulic => "Hydraulic"
    case Body => "Body"
    case Other => "Other"
  }

  /** The `enum` validator: exactly the six listed names are accepted. */
  function ParseCategory(s: string): (r: Option<Category>)
    ensures r.Some? ==> CategoryName(r.value) == s
  {
    if s == "Engine" then Some(Engine)
    else if s == "Transmission" then Some(Transmission)
    else if s == "Electrical" then Some(Electrical)
    else if s == "Hydraulic" then Some(Hydraulic)
    else if s == "Body" then Some(Body)
    else if s == "Other" then Some(Other)
    else None
  }

  lemma CategoryRoundTrip(c: Category)
    ensures ParseCategory(CategoryName(c)) == Some(c)
    ensures CategoryName(c) != []
  {
    match c
    case Engine =>
    case Transmission =>
    case Electrical =>
    case Hydraulic =>
    case Body =>
    case Other =>
  }

  /** A stored part. Prices are in cents. */
  datatype Part = Part(
    name: string,
    partNumber: string,
    manufacturer: string,
    quantity: int,
    minimumQuantity: int,
    price: int,
    location: string,
    description: Option<string>,
    category: Category)

  /** The schema's constraints on a stored part. */
  predicate Valid(p: Part) {
    && p.name != [] && IsTrimmed(p.name)
    && p.partNumber != [] && IsTrimmed(p.partNumber)
    && p.manufacturer != [] && IsTrimmed(p.manufacturer)
    && p.quantity >= 0
    && p.minimumQuantity >= 0
    && p.price >= 0
    && p.location != [] && IsTrimmed(p.location)
    && (p.description.Some? ==> IsTrimmed(p.description.value))
  }

  /** The `needsReorder` virtual: stock at or below the threshold. */
  predicate NeedsReorder(p: Part) {
    p.quantity <= p.minimumQuantity
  }

  const DefaultQuantity: int := 0
  const DefaultMinimumQuantity: int := 1
  const DefaultCategory: Category := Other

  /** Combines the nine path outcomes, in schema order. */
  function Assemble(
    name: Checked<string>, partNumber: Checked<string>, manufacturer: Checked<string>,
    quantity: Checked<int>, minimumQuantity: Checked<int>, price: Checked<int>,
    location: Checked<string>, description: Checked<Option<string>>, category: Checked<Category>): (r: Validated<Part>)
    ensures r.Passed? <==>
      name.Accepted? && partNumber.Accepted? && manufacturer.Accepted? && quantity.Accepted?
      && minimumQuantity.Accepted? && price.Accepted? && location.Accepted? && description.Accepted?
      && category.Accepted?
    ensures r.Passed? ==> r.doc == Part(name.value, partNumber.value, manufacturer.value, quantity.value,
      minimumQuantity.value, price.value, location.value, description.value, category.value)
    ensures r.Failed? ==>
      r.errors == Errors(name) + Errors(partNumber) + Errors(manufacturer)
        + Errors(quantity) + Errors(minimumQuantity) + Errors(price) + Errors(location)
        + Errors(description) + Errors(category)
  {
    var errors := Errors(name) + Errors(partNumber) + Errors(manufacturer)
      + Errors(quantity) + Errors(minimumQuantity) + Errors(price) + Errors(location)
      + Errors(description) + Errors(category);
    if errors == [] then
      Passed(Part(name.value, partNumber.value, manufacturer.value, quantity.value,
        minimumQuantity.value, price.value, location.value, description.value, category.value))
    else Failed(errors)
  }

  /** `new Part(body)` followed by validation on save. */
  function FromBody(body: Payload): (r: Validated<Part>)
    ensures r.Passed? ==> Valid(r.doc)
    ensures r.Failed? ==> r.errors != []
  {
    Assemble(
      RequiredText(body, "name"),
      RequiredText(body, "partNumber"),
      RequiredText(body, "manufacturer"),
      Number(body, "quantity", 0, Some(DefaultQuantity)),
      Number(body, "minimumQuantity", 0, Some(DefaultMinimumQuantity)),
      Number(body, "price", 0, None),
      RequiredText(body, "location"),
      OptionalText(body, "description"),
      Choice(body, "category", ParseCategory, Some(DefaultCategory)))
  }

  /** A created part stores the submitted text trimmed and the submitted
      price. */
  lemma CreateStoresText(body: Payload)
    requires FromBody(body).Passed?
    ensures "name" in body && IsText(body["name"]) && FromBody(body).doc.name == Trim(TextOf(body["name"]))
    ensures "partNumber" in body && IsText(body["partNumber"]) && FromBody(body).doc.partNumber == Trim(TextOf(body["partNumber"]))
    ensures "manufacturer" in body && IsText(body["manufacturer"]) && FromBody(body).doc.manufacturer == Trim(TextOf(body["manufacturer"]))
    ensures "location" in body && IsText(body["location"]) && FromBody(body).doc.location == Trim(TextOf(body["location"]))
    ensures "price" in body && body["price"].Num? && FromBody(body).doc.price == body["price"].n
    ensures Unset(body, "description") ==> FromBody(body).doc.description == None
    ensures !Unset(body, "description") ==>
      IsText(body["description"]) && FromBody(body).doc.description == Some(Trim(TextOf(body["description"])))
  {
    CreateReadsText(body);
    CreateReadsNumbers(body);
    var doc := FromBody(body).doc;
    TextStored(body, "name", doc.name);
    TextStored(body, "partNumber", doc.partNumber);
    TextStored(body, "manufacturer", doc.manufacturer);
    TextStored(body, "location", doc.location);
    OptionalStored(body, "description", doc.description);
    NumberStored(body, "price", 0, None, doc.price);
  }

  /** The text paths of a created part are what their path readers
      accept. */
  lemma CreateReadsText(body: Payload)
    requires FromBody(body).Passed?
    ensures RequiredText(body, "name") == Accepted(FromBody(body).doc.name)
    ensures RequiredText(body, "partNumber") == Accepted(FromBody(body).doc.partNumber)
    ensures RequiredText(body, "manufacturer") == Accepted(FromBody(body).doc.manufacturer)
    ensures RequiredText(body, "location") == Accepted(FromBody(body).doc.location)
    ensures OptionalText(body, "description") == Accepted(FromBody(body).doc.description)
  {
  }

  /** A created part stores the submitted quantities and category, or the
      schema defaults for absent ones. */
  lemma CreateStoresOrDefaults(body: Payload)
    requires FromBody(body).Passed?
    ensures if "quantity" in body then body["quantity"].Num? && FromBody(body).doc.quantity == body["quantity"].n
      else FromBody(body).doc.quantity == DefaultQuantity
    ensures if "minimumQuantity" in body
      then body["minimumQuantity"].Num? && FromBody(body).doc.minimumQuantity == body["minimumQuantity"].n
      else FromBody(body).doc.minimumQuantity == DefaultMinimumQuantity
    ensures if "category" in body
      then IsText(body["category"]) && ParseCategory(TextOf(body["category"])) == Some(FromBody(body).doc.category)
      else FromBody(body).doc.category == DefaultCategory
  {
    CreateReadsNumbers(body);
    var doc := FromBody(body).doc;
    NumberStored(body, "quantity", 0, Some(DefaultQuantity), doc.quantity);
    NumberStored(body, "minimumQuantity", 0, Some(DefaultMinimumQuantity), doc.minimumQuantity);
    ChoiceStored(body, "category", ParseCategory, Some(DefaultCategory), doc.category);
  }

  /** The three numbers of a created part are what their path readers
      accept. */
  lemma CreateReadsNumbers(body: Payload)
    requires FromBody(body).Passed?
    ensures Number(body, "quantity", 0, Some(DefaultQuantity)) == Accepted(FromBody(body).doc.quantity)
    ensures Number(body, "minimumQuantity", 0, Some(DefaultMinimumQuantity)) == Accepted(FromBody(body).doc.minimumQuantity)
    ensures Number(body, "price", 0, None) == Accepted(FromBody(body).doc.price)
    ensures Choice(body, "category", ParseCategory, Some(DefaultCategory)) == Accepted(FromBody(body).doc.category)
  {
  }

  /** Truthy quantities and prices are stored as positive numbers. */
  lemma TruthyNumbersPositive(body: Payload)
    requires FromBody(body).Passed?
    requires Present(body, "quantity") && Present(body, "minimumQuantity") && Present(body, "price")
    ensures FromBody(body).doc.quantity > 0
    ensures FromBody(body).doc.minimumQuantity > 0
    ensures FromBody(body).doc.price > 0
  {
    CreateReadsNumbers(body);
    TruthyNumberPositive(body, "quantity", Some(DefaultQuantity));
    TruthyNumberPositive(body, "minimumQuantity", Some(DefaultMinimumQuantity));
    TruthyNumberPositive(body, "price", None);
  }

  /** The violations `runValidators` finds in an update body, before any
      document is looked up: those of the paths the body names, in schema
      order. */
  function UpdateViolations(body: Payload): seq<Violation> {
    Supplied(body, "name", RequiredText(body, "name"))
    + Supplied(body, "partNumber", RequiredText(body, "partNumber"))
    + Supplied(body, "manufacturer", RequiredText(body, "manufacturer"))
    + Supplied(body, "quantity", Number(body, "quantity", 0, None))
    + Supplied(body, "minimumQuantity", Number(body, "minimumQuantity", 0, None))
    + Supplied(body, "price", Number(body, "price", 0, None))
    + Supplied(body, "location", RequiredText(body, "location"))
    + Supplied(body, "description", OptionalText(body, "description"))
    + Supplied(body, "category", Choice(body, "category", ParseCategory, None))
  }

  /** `findByIdAndUpdate(id, body, { runValidators: true })` on a stored
      part: only the paths the body names are cast and validated. */
  function Update(p: Part, body: Payload): (r: Validated<Part>)
    ensures Valid(p) && r.Passed? ==> Valid(r.doc)
    ensures r.Passed? ==>
      && ("name" !in body ==> r.doc.name == p.name)
      && ("partNumber" !in body ==> r.doc.partNumber == p.partNumber)
      && ("manufacturer" !in body ==> r.doc.manufacturer == p.manufacturer)
      && ("quantity" !in body ==> r.doc.quantity == p.quantity)
      && ("minimumQuantity" !in body ==> r.doc.minimumQuantity == p.minimumQuantity)
      && ("price" !in body ==> r.doc.price == p.price)
      && ("location" !in body ==> r.doc.location == p.location)
      && ("description" !in body ==> r.doc.description == p.description)
      && ("category" !in body ==> r.doc.category == p.category)
    ensures r.Failed? ==> r.errors != []
  {
    Assemble(
      Keep(body, "name", p.name, RequiredText(body, "name")),
      Keep(body, "partNumber", p.partNumber, RequiredText(body, "partNumber")),
      Keep(body, "manufacturer", p.manufacturer, RequiredText(body, "manufacturer")),
      Keep(body, "quantity", p.quantity, Number(body, "quantity", 0, None)),
      Keep(body, "minimumQuantity", p.minimumQuantity, Number(body, "minimumQuantity", 0, None)),
      Keep(body, "price", p.price, Number(body, "price", 0, None)),
      Keep(body, "location", p.location, RequiredText(body, "location")),
      Keep(body, "description", p.description, OptionalText(body, "description")),
      Keep(body, "category", p.category, Choice(body, "category", ParseCategory, None)))
  }

  /** Each text path an accepted update names holds what its reader
      accepts. */
  lemma UpdateReadsText(p: Part, body: Payload)
    requires Update(p, body).Passed?
    ensures "name" in body ==> RequiredText(body, "name") == Accepted(Update(p, body).doc.name)
    ensures "partNumber" in body ==> RequiredText(body, "partNumber") == Accepted(Update(p, body).doc.partNumber)
    ensures "manufacturer" in body ==> RequiredText(body, "manufacturer") == Accepted(Update(p, body).doc.manufacturer)
    ensures "location" in body ==> RequiredText(body, "location") == Accepted(Update(p, body).doc.location)
    ensures "description" in body ==> OptionalText(body, "description") == Accepted(Update(p, body).doc.description)
  {
  }

  /** Each number and the category an accepted update names hold what their
      readers accept. */
  lemma UpdateReadsNumbers(p: Part, body: Payload)
    requires Update(p, body).Passed?
    ensures "quantity" in body ==> Number(body, "quantity", 0, None) == Accepted(Update(p, body).doc.quantity)
    ensures "minimumQuantity" in body ==>
      Number(body, "minimumQuantity", 0, None) == Accepted(Update(p, body).doc.minimumQuantity)
    ensures "price" in body ==> Number(body, "price", 0, None) == Accepted(Update(p, body).doc.price)
    ensures "category" in body ==>
      Choice(body, "category", ParseCategory, None) == Accepted(Update(p, body).doc.category)
  {
  }

  /** An accepted update stores, at every path the body names, the body's
      value: texts trimmed, numbers as sent, a null description cleared. */
  lemma UpdateStores(p: Part, body: Payload)
    requires Update(p, body).Passed?
    ensures "name" in body ==> IsText(body["name"]) && Update(p, body).doc.name == Trim(TextOf(body["name"]))
    ensures "partNumber" in body ==>
      IsText(body["partNumber"]) && Update(p, body).doc.partNumber == Trim(TextOf(body["partNumber"]))
    ensures "manufacturer" in body ==>
      IsText(body["manufacturer"]) && Update(p, body).doc.manufacturer == Trim(TextOf(body["manufacturer"]))
    ensures "quantity" in body ==> body["quantity"].Num? && Update(p, body).doc.quantity == body["quantity"].n
    ensures "minimumQuantity" in body ==>
      body["minimumQuantity"].Num? && Update(p, body).doc.minimumQuantity == body["minimumQuantity"].n
    ensures "price" in body ==> body["price"].Num? && Update(p, body).doc.price == body["price"].n
    ensures "location" in body ==> IsText(body["location"]) && Update(p, body).doc.location == Trim(TextOf(body["location"]))
    ensures "description" in body && body["description"] == Null ==> Update(p, body).doc.description == None
    ensures "description" in body && body["description"] != Null ==>
      IsText(body["description"]) && Update(p, body).doc.description == Some(Trim(TextOf(body["description"])))
    ensures "category" in body ==>
      IsText(body["category"]) && ParseCategory(TextOf(body["category"])) == Some(Update(p, body).doc.category)
  {
    UpdateReadsText(p, body);
    UpdateReadsNumbers(p, body);
    var doc := Update(p, body).doc;
    if "name" in body { TextStored(body, "name", doc.name); }
    if "partNumber" in body { TextStored(body, "partNumber", doc.partNumber); }
    if "manufacturer" in body { TextStored(body, "manufacturer", doc.manufacturer); }
    if "quantity" in body { NumberStored(body, "quantity", 0, None, doc.quantity); }
    if "minimumQuantity" in body { NumberStored(body, "minimumQuantity", 0, None, doc.minimumQuantity); }
    if "price" in body { NumberStored(body, "price", 0, None, doc.price); }
    if "location" in body { TextStored(body, "location", doc.location); }
    if "description" in body { OptionalStored(body, "description", doc.description); }
    if "category" in body { ChoiceStored(body, "category", ParseCategory, None, doc.category); }
  }

  /** An update fails exactly when the paths it names have violations, and
      reports those, whatever part it is applied to. */
  lemma UpdateFailsOnViolations(p: Part, body: Payload)
    ensures Update(p, body).Failed? <==> UpdateViolations(body) != []
    ensures Update(p, body).Failed? ==> Update(p, body).errors == UpdateViolations(body)
  {
    var name := Keep(body, "name", p.name, RequiredText(body, "name"));
    var partNumber := Keep(body, "partNumber", p.partNumber, RequiredText(body, "partNumber"));
    var manufacturer := Keep(body, "manufacturer", p.manufacturer, RequiredText(body, "manufacturer"));
    var quantity := Keep(body, "quantity", p.quantity, Number(body, "quantity", 0, None));
    var minimumQuantity := Keep(body, "minimumQuantity", p.minimumQuantity, Number(body, "minimumQuantity", 0, None));
    var price := Keep(body, "price", p.price, Number(body, "price", 0, None));
    var location := Keep(body, "location", p.location, RequiredText(body, "location"));
    var description := Keep(body, "description", p.description, OptionalText(body, "description"));
    var category := Keep(body, "category", p.category, Choice(body, "category", ParseCategory, None));
    KeepErrors(body, "name", p.name, RequiredText(body, "name"));
    KeepErrors(body, "partNumber", p.partNumber, RequiredText(body, "partNumber"));
    KeepErrors(body, "manufacturer", p.manufacturer, RequiredText(body, "manufacturer"));
    KeepErrors(body, "quantity", p.quantity, Number(body, "quantity", 0, None));
    KeepErrors(body, "minimumQuantity", p.minimumQuantity, Number(body, "minimumQuantity", 0, None));
    KeepErrors(body, "price", p.price, Number(body, "price", 0, None));
    KeepErrors(body, "location", p.location, RequiredText(body, "location"));
    KeepErrors(body, "description", p.description, OptionalText(body, "description"));
    KeepErrors(body, "category", p.category, Choice(body, "category", ParseCategory, None));
    assert Update(p, body) == Assemble(name, partNumber, manufacturer, quantity, minimumQuantity, price,
      location, description, category);
  }

  /** The JSON a client sends to store exactly `p` (a null description
      clears one on update). */
  function ToPayload(p: Part): (body: Payload)
    ensures "name" in body && body["name"] == Str(p.name)
    ensures "partNumber" in body && body["partNumber"] == Str(p.partNumber)
    ensures "manufacturer" in body && body["manufacturer"] == Str(p.manufacturer)
    ensures "quantity" in body && body["quantity"] == Num(p.quantity)
    ensures "minimumQuantity" in body && body["minimumQuantity"] == Num(p.minimumQuantity)
    ensures "price" in body && body["price"] == Num(p.price)
    ensures "location" in body && body["location"] == Str(p.location)
    ensures "category" in body && body["category"] == Str(CategoryName(p.category))
    ensures "description" in body
    ensures body["description"] == if p.description.Some? then Str(p.description.value) else Null
  {
    var fields := map[
      "name" := Str(p.name),
      "partNumber" := Str(p.partNumber),
      "manufacturer" := Str(p.manufacturer),
      "quantity" := Num(p.quantity),
      "minimumQuantity" := Num(p.minimumQuantity),
      "price" := Num(p.price),
      "location" := Str(p.location),
      "category" := Str(CategoryName(p.category)),
      "description" := if p.description.Some? then Str(p.description.value) else Null];
    fields
  }

  /** Every valid part can be created from its own JSON, and comes back
      unchanged. */
  lemma CreateRoundTrip(p: Part)
    requires Valid(p)
    ensures FromBody(ToPayload(p)) == Passed(p)
  {
    var body := ToPayload(p);
    PayloadFields(p);
    ChoiceOf(body, "category", ParseCategory, Some(DefaultCategory), CategoryName(p.category), p.category);
    NumberOf(body, "quantity", 0, Some(DefaultQuantity), p.quantity);
    NumberOf(body, "minimumQuantity", 0, Some(DefaultMinimumQuantity), p.minimumQuantity);
    assert FromBody(body) == Assemble(Accepted(p.name), Accepted(p.partNumber), Accepted(p.manufacturer),
      Accepted(p.quantity), Accepted(p.minimumQuantity), Accepted(p.price), Accepted(p.location),
      Accepted(p.description), Accepted(p.category));
  }

  /** Updating any stored part with the JSON of a valid part stores exactly
      that part: an update can reach every valid state. */
  lemma UpdateRoundTrip(stored: Part, p: Part)
    requires Valid(p)
    ensures Update(stored, ToPayload(p)) == Passed(p)
  {
    var body := ToPayload(p);
    PayloadFields(p);
    ChoiceOf(body, "category", ParseCategory, None, CategoryName(p.category), p.category);
    NumberOf(body, "quantity", 0, None, p.quantity);
    NumberOf(body, "minimumQuantity", 0, None, p.minimumQuantity);
    assert Update(stored, body) == Assemble(Accepted(p.name), Accepted(p.partNumber), Accepted(p.manufacturer),
      Accepted(p.quantity), Accepted(p.minimumQuantity), Accepted(p.price), Accepted(p.location),
      Accepted(p.description), Accepted(p.category));
  }

  /** Each text path and the price of a valid part's JSON read back as
      stored. */
  lemma PayloadFields(p: Part)
    requires Valid(p)
    ensures RequiredText(ToPayload(p), "name") == Accepted(p.name)
    ensures RequiredText(ToPayload(p), "partNumber") == Accepted(p.partNumber)
    ensures RequiredText(ToPayload(p), "manufacturer") == Accepted(p.manufacturer)
    ensures RequiredText(ToPayload(p), "location") == Accepted(p.location)
    ensures OptionalText(ToPayload(p), "description") == Accepted(p.description)
    ensures Number(ToPayload(p), "price", 0, None) == Accepted(p.price)
    ensures ParseCategory(CategoryName(p.category)) == Some(p.category) && CategoryName(p.category) != []
  {
    var body := ToPayload(p);
    RequiredTextOf(body, "name", p.name);
    RequiredTextOf(body, "partNumber", p.partNumber);
    RequiredTextOf(body, "manufacturer", p.manufacturer);
    RequiredTextOf(body, "location", p.location);
    OptionalTextOf(body, "description", p.description);
    NumberOf(body, "price", 0, None, p.price);
    CategoryRoundTrip(p.category);
  }

  /** No category is named by hex digits alone. */
  lemma HexNamesNoCategory(t: string)
    requires forall i :: 0 <= i < |t| ==> IsHexDigit(t[i])
    ensures ParseCategory(t) == None
  {
    // every category name starts with a capital letter
    if |t| > 0 {
      assert IsHexDigit(t[0]);
    }
  }

  /** A description in ObjectId form is text: an update stores it. */
  lemma ObjectIdShapedDescription(p: Part, id: nat)
    requires Valid(p)
    ensures Update(p, map["description" := Oid(id)]) == Passed(p.(description := Some(OidText(id))))
  {
    var body := map["description" := Oid(id)];
    var t := OidText(id);
    ObjectIdShapedText(body, "description", id);
    assert UpdateViolations(body) == [] by {
      assert Supplied(body, "description", OptionalText(body, "description")) == [];
    }
    UpdateFailsOnViolations(p, body);
    UpdateReadsText(p, body);
    assert Update(p, body).doc == p.(description := Some(t));
  }

  /** A category in ObjectId form is a string no category is named by: an
      enum violation, not a cast failure. */
  lemma ObjectIdShapedCategory(p: Part, id: nat)
    requires Valid(p)
    ensures Update(p, map["category" := Oid(id)]) == Failed([NotInEnum("category", OidText(id))])
  {
    var body := map["category" := Oid(id)];
    HexNamesNoCategory(OidText(id));
    ObjectIdShapedChoice(body, "category", ParseCategory, None, id);
    var category := Keep(body, "category", p.category, Choice(body, "category", ParseCategory, None));
    assert category == Rejected(NotInEnum("category", OidText(id)));
    assert Update(p, body) == Assemble(Accepted(p.name), Accepted(p.partNumber), Accepted(p.manufacturer),
      Accepted(p.quantity), Accepted(p.minimumQuantity), Accepted(p.price), Accepted(p.location),
      Accepted(p.description), category);
  }

  /** A name that is blank after trimming fails `required`, which is a
      validation error, not a cast failure. */
  lemma BlankNameRequired(p: Part, pad: string)
    requires forall i :: 0 <= i < |pad| ==> IsSpace(pad[i])
    ensures UpdateViolations(map["name" := Str(pad)]) == [Required("name")]
    ensures CastFailures(UpdateViolations(map["name" := Str(pad)])) == []
  {
    var body := map["name" := Str(pad)];
    TrimSpec(pad);
    assert Trim(TextOf(body["name"])) == [];
    assert Supplied(body, "name", RequiredText(body, "name")) == [Required("name")];
    assert UpdateViolations(body) == [Required("name")];
    assert CastFailures([Required("name")]) == [];
  }

  /** An update that names no schema path leaves the part as it was. */
  lemma UpdateNothing(p: Part, body: Payload)
    requires forall k :: k in body ==> k !in {"name", "partNumber", "manufacturer", "quantity",
      "minimumQuantity", "price", "location", "description", "category"}
    ensures Update(p, body) == Passed(p)
  {
  }

  /** A negative price is a validation error on create and on update, never
      clamped. */
  lemma NegativePriceRejected(p: Part, body: Payload)
    requires "price" in body && body["price"].Num? && body["price"].n < 0
    ensures FromBody(body).Failed? && BelowMin("price", body["price"].n, 0) in FromBody(body).errors
    ensures Update(p, body).Failed? && BelowMin("price", body["price"].n, 0) in Update(p, body).errors
  {
  }

  /** A negative quantity is rejected on update. */
  lemma NegativeQuantityRejected(p: Part, body: Payload)
    requires "quantity" in body && body["quantity"].Num? && body["quantity"].n < 0
    ensures Update(p, body).Failed? && BelowMin("quantity", body["quantity"].n, 0) in Update(p, body).errors
  {
  }

  /** "Mechanical", which the parts page offers, is not a schema category. */
  lemma MechanicalRejected(body: Payload)
    requires "category" in body && body["category"] == Str("Mechanical")
    ensures FromBody(body).Failed?
    ensures NotInEnum("category", "Mechanical") in FromBody(body).errors
  {
    assert ParseCategory("Mechanical") == None;
  }

  /** Defaults apply to absent paths: quantity 0, minimumQuantity 1 (so a
      defaulted part needs reorder) and category Other. */
  lemma DefaultsNeedReorder(body: Payload)
    requires "quantity" !in body && "minimumQuantity" !in body && "category" !in body
    requires FromBody(body).Passed?
    ensures FromBody(body).doc.quantity == 0 && FromBody(body).doc.minimumQuantity == 1
    ensures FromBody(body).doc.category == Other
    ensures NeedsReorder(FromBody(body).doc)
  {
  }
}
