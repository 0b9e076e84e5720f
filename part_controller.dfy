/** The part handlers (backend/src/controllers/partController.js) over an
    in-memory Part collection. */
module PartController {
  import opened Json
  import opened Schema
  import opened Http
  import opened PartModel

  /** `requiredFields` of `createPart`, in its order. */
  const RequiredFields: seq<string> :=
    ["name", "partNumber", "manufacturer", "quantity", "minimumQuantity", "price", "location", "category"]

  /** The Part collection: stored parts by id, and the id the next save gets. */
  class PartCollection {
    var parts: map<Id, Part>
    var nextId: Id

    /** Every stored part satisfies the schema and ids are never reused. */
    ghost predicate Valid()
      reads this
    {
      forall id :: id in parts ==> id < nextId && PartModel.Valid(parts[id])
    }

    constructor ()
      ensures Valid() && parts == map[]
    {
      parts := map[];
      nextId := 0;
    }

    /** `getAllParts`: every stored part once, oldest first. */
    method GetAll() returns (r: Reply<seq<Doc<Part>>>)
      requires Valid()
      ensures r.Ok?
      ensures forall i, j :: 0 <= i < j < |r.value| ==> r.value[i].id < r.value[j].id
      ensures forall i :: 0 <= i < |r.value| ==> r.value[i].id in parts && parts[r.value[i].id] == r.value[i].record
      ensures forall id :: id in parts ==> Doc(id, parts[id]) in r.value
    {
      ListingSpec(parts, 0, nextId);
      r := Ok(Listing(parts, 0, nextId));
    }

    /** `getPartById`. */
    method GetById(id: Id) returns (r: Reply<Doc<Part>>)
      ensures id in parts ==> r == Ok(Doc(id, parts[id]))
      ensures id !in parts ==> r == NotFound("Part not found")
    {
      if id in parts {
        r := Ok(Doc(id, parts[id]));
      } else {
        r := NotFound("Part not found");
      }
    }

    /** `createPart`: the falsy-field filter, then `new Part(body).save()`. */
    method Create(body: Payload) returns (r: Reply<Doc<Part>>)
      requires Valid()
      modifies this
      ensures Valid()
      ensures MissingFields(RequiredFields, body) != [] ==>
        r == BadRequest(MissingMessage(MissingFields(RequiredFields, body))) && parts == old(parts)
      ensures MissingFields(RequiredFields, body) == [] && FromBody(body).Failed? ==>
        r == Invalid(FromBody(body).errors) && parts == old(parts)
      ensures MissingFields(RequiredFields, body) == [] && FromBody(body).Passed? ==>
        && old(nextId) !in old(parts)
        && r == Created(Doc(old(nextId), FromBody(body).doc))
        && parts == old(parts)[old(nextId) := FromBody(body).doc]
    {
      var missing := MissingFields(RequiredFields, body);
      if missing != [] {
        r := BadRequest(MissingMessage(missing));
        return;
      }
      var built := FromBody(body);
      if built.Failed? {
        r := Invalid(built.errors);
        return;
      }
      var id := Insert(built.doc);
      r := Created(Doc(id, built.doc));
    }

    /** `save()` of a new document: it gets a fresh id. */
    method Insert(doc: Part) returns (id: Id)
      requires Valid() && PartModel.Valid(doc)
      modifies this
      ensures Valid()
      ensures id == old(nextId) && id !in old(parts)
      ensures parts == old(parts)[id := doc] && nextId == old(nextId) + 1
    {
      id := nextId;
      parts := parts[id := doc];
      nextId := nextId + 1;
    }

    /** `updatePart`: cast failures (500), then validators (400), then the id
        lookup (404); the reply carries the updated part. */
    method Update(id: Id, body: Payload) returns (r: Reply<Doc<Part>>)
      requires Valid()
      modifies this
      ensures Valid() && nextId == old(nextId)
      ensures CastFailures(UpdateViolations(body)) != [] ==>
        r == ServerError("Error updating part") && parts == old(parts)
      ensures CastFailures(UpdateViolations(body)) == [] && UpdateViolations(body) != [] ==>
        r == Invalid(UpdateViolations(body)) && parts == old(parts)
      ensures UpdateViolations(body) == [] && id !in old(parts) ==>
        r == NotFound("Part not found") && parts == old(parts)
      ensures UpdateViolations(body) == [] && id in old(parts) ==>
        && PartModel.Update(old(parts)[id], body).Passed?
        && parts == old(parts)[id := PartModel.Update(old(parts)[id], body).doc]
        && r == Ok(Doc(id, parts[id]))
    {
      var errors := UpdateViolations(body);
      if CastFailures(errors) != [] {
        r := ServerError("Error updating part");
      } else if errors != [] {
        r := Invalid(errors);
      } else if id !in parts {
        r := NotFound("Part not found");
      } else {
        UpdateFailsOnViolations(parts[id], body);
        var updated := PartModel.Update(parts[id], body).doc;
        Replace(id, updated);
        r := Ok(Doc(id, updated));
      }
    }

    /** `findByIdAndUpdate` writing the updated document back under its id. */
    method Replace(id: Id, doc: Part)
      requires Valid() && id in parts && PartModel.Valid(doc)
      modifies this
      ensures Valid() && nextId == old(nextId)
      ensures parts == old(parts)[id := doc]
    {
      parts := parts[id := doc];
    }

    /** `deletePart`: removes only the named part. */
    method Delete(id: Id) returns (r: Reply<Doc<Part>>)
      requires Valid()
      modifies this
      ensures Valid() && nextId == old(nextId)
      ensures id in old(parts) ==> r == Removed("Part deleted successfully") && parts == old(parts) - {id}
      ensures id !in old(parts) ==> r == NotFound("Part not found") && parts == old(parts)
    {
      if id in parts {
        parts := parts - {id};
        r := Removed("Part deleted successfully");
      } else {
        r := NotFound("Part not found");
      }
    }
  }

  /** The falsiness quirk: a part the create handler accepts never has a
      zero quantity, threshold or price, although the schema allows 0. */
  lemma {:induction false} CreatedPartsArePositive(body: Payload)
    requires MissingFields(RequiredFields, body) == []
    requires FromBody(body).Passed?
    ensures FromBody(body).doc.quantity > 0
    ensures FromBody(body).doc.minimumQuantity > 0
    ensures FromBody(body).doc.price > 0
  {
    FilteredNumbersPresent(body);
    TruthyNumbersPositive(body);
  }

  lemma FilteredNumbersPresent(body: Payload)
    requires MissingFields(RequiredFields, body) == []
    ensures Present(body, "quantity") && Present(body, "minimumQuantity") && Present(body, "price")
  {
    PresentWhenNoneMissing(RequiredFields, body, 3);
    PresentWhenNoneMissing(RequiredFields, body, 4);
    PresentWhenNoneMissing(RequiredFields, body, 5);
  }

  /** Zero counts as missing: a body with quantity, minimumQuantity or price
      0 is answered with the missing-field message naming it. */
  lemma ZeroIsMissing(body: Payload, field: string)
    requires field in ["quantity", "minimumQuantity", "price"]
    requires field in body && body[field] == Num(0)
    ensures field in MissingFields(RequiredFields, body)
  {
  }

  /** The missing-field message lists exactly the falsy required fields, in
      the handler's order: for a body missing only the price it reads
      "Missing required fields: price". */
  lemma OnlyPriceMissing(body: Payload)
    requires Present(body, "name") && Present(body, "partNumber") && Present(body, "manufacturer")
    requires Present(body, "quantity") && Present(body, "minimumQuantity")
    requires Present(body, "location") && Present(body, "category")
    requires !Present(body, "price")
    ensures MissingMessage(MissingFields(RequiredFields, body)) == "Missing required fields: price"
  {
    OnlyMissing(RequiredFields, body, 5);
  }

  /** The message for a body missing the quantity and the price. */
  lemma QuantityAndPriceMessage()
    ensures MissingMessage(["quantity", "price"]) == "Missing required fields: quantity, price"
  {
    assert ["quantity", "price"][1..] == ["price"];
  }

  /** With two required fields falsy the message names both, joined by
      ", " in the handler's order. */
  lemma QuantityAndPriceMissing(body: Payload)
    requires Present(body, "name") && Present(body, "partNumber") && Present(body, "manufacturer")
    requires Present(body, "minimumQuantity") && Present(body, "location") && Present(body, "category")
    requires !Present(body, "quantity") && !Present(body, "price")
    ensures MissingFields(RequiredFields, body) == ["quantity", "price"]
    ensures MissingMessage(MissingFields(RequiredFields, body)) == "Missing required fields: quantity, price"
  {
    forall k | 0 <= k < |RequiredFields| && k != 3 && k != 5 ensures Present(body, RequiredFields[k]) {
      if k == 0 { assert RequiredFields[k] == "name"; }
      else if k == 1 { assert RequiredFields[k] == "partNumber"; }
      else if k == 2 { assert RequiredFields[k] == "manufacturer"; }
      else if k == 4 { assert RequiredFields[k] == "minimumQuantity"; }
      else if k == 6 { assert RequiredFields[k] == "location"; }
      else { assert RequiredFields[k] == "category"; }
    }
    assert MissingFields(RequiredFields, body) == ["quantity", "price"] by {
      OnlyTwoMissing(RequiredFields, body, 3, 5);
    }
    QuantityAndPriceMessage();
  }

  /** A valid part with non-zero quantity, threshold and price passes the
      filter and is created from its own JSON as exactly that part; with
      any of the three zero it is refused (see `ZeroIsMissing`). */
  lemma CreateRoundTrip(p: Part)
    requires PartModel.Valid(p)
    requires p.quantity > 0 && p.minimumQuantity > 0 && p.price > 0
    ensures MissingFields(RequiredFields, ToPayload(p)) == []
    ensures FromBody(ToPayload(p)) == Passed(p)
  {
    PartModel.CreateRoundTrip(p);
    PayloadPassesFilter(p);
  }

  lemma PayloadPassesFilter(p: Part)
    requires PartModel.Valid(p)
    requires p.quantity > 0 && p.minimumQuantity > 0 && p.price > 0
    ensures MissingFields(RequiredFields, ToPayload(p)) == []
  {
    var body := ToPayload(p);
    CategoryRoundTrip(p.category);
    assert Present(body, "name") && Present(body, "partNumber") && Present(body, "manufacturer");
    assert Present(body, "quantity") && Present(body, "minimumQuantity") && Present(body, "price");
    assert Present(body, "location") && Present(body, "category");
    NoneMissing(RequiredFields, body);
  }
}
