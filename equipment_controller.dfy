/** The equipment handlers (backend/src/controllers/equipmentController.js)
    over an in-memory Equipment collection. */
module EquipmentController {
  import opened Json
  import opened Schema
  import opened Http
  import opened EquipmentModel

  /** `requiredFields` of `createEquipment`, in its order. */
  const RequiredFields: seq<string> := ["name", "manufacturer", "model", "category", "status"]

  /** The Equipment collection: stored equipment by id, and the id the next
      save gets. */
  class EquipmentCollection {
    var items: map<Id, Equipment>
    var nextId: Id

    /** Every stored item satisfies the schema and ids are never reused. */
    ghost predicate Valid()
      reads this
    {
      forall id :: id in items ==> id < nextId && EquipmentModel.Valid(items[id])
    }

    constructor ()
      ensures Valid() && items == map[]
    {
      items := map[];
      nextId := 0;
    }

    /** `getAllEquipment`: every stored item once, oldest first. */
    method GetAll() returns (r: Reply<seq<Doc<Equipment>>>)
      requires Valid()
      ensures r.Ok?
      ensures forall i, j :: 0 <= i < j < |r.value| ==> r.value[i].id < r.value[j].id
      ensures forall i :: 0 <= i < |r.value| ==> r.value[i].id in items && items[r.value[i].id] == r.value[i].record
      ensures forall id :: id in items ==> Doc(id, items[id]) in r.value
    {
      ListingSpec(items, 0, nextId);
      r := Ok(Listing(items, 0, nextId));
    }

    /** `getEquipmentById`. */
    method GetById(id: Id) returns (r: Reply<Doc<Equipment>>)
      ensures id in items ==> r == Ok(Doc(id, items[id]))
      ensures id !in items ==> r == NotFound("Equipment not found")
    {
      if id in items {
        r := Ok(Doc(id, items[id]));
      } else {
        r := NotFound("Equipment not found");
      }
    }

    /** `createEquipment`: the falsy-field filter, then
        `new Equipment(body).save()`. */
    method Create(body: Payload) returns (r: Reply<Doc<Equipment>>)
      requires Valid()
      modifies this
      ensures Valid()
      ensures MissingFields(RequiredFields, body) != [] ==>
        r == BadRequest(MissingMessage(MissingFields(RequiredFields, body))) && items == old(items)
      ensures MissingFields(RequiredFields, body) == [] && FromBody(body).Failed? ==>
        r == Invalid(FromBody(body).errors) && items == old(items)
      ensures MissingFields(RequiredFields, body) == [] && FromBody(body).Passed? ==>
        && old(nextId) !in old(items)
        && r == Created(Doc(old(nextId), FromBody(body).doc))
        && items == old(items)[old(nextId) := FromBody(body).doc]
    {
      var missing := MissingFields(RequiredFields, body);
      if missing != [] {
        r := BadRequest(MissingMessage(missing));
        return;
      }
      var built := FromBody(body);
      if built.Failed? {
        r := Invalid(built.errors);
        return;
      }
      var id := Insert(built.doc);
      r := Created(Doc(id, built.doc));
    }

    /** `save()` of a new document: it gets a fresh id. */
    method Insert(doc: Equipment) returns (id: Id)
      requires Valid() && EquipmentModel.Valid(doc)
      modifies this
      ensures Valid()
      ensures id == old(nextId) && id !in old(items)
      ensures items == old(items)[id := doc] && nextId == old(nextId) + 1
    {
      id := nextId;
      items := items[id := doc];
      nextId := nextId + 1;
    }

    /** `updateEquipment`: cast failures (500), then validators (400), then
        the id lookup (404); the reply carries the updated item. */
    method Update(id: Id, body: Payload) returns (r: Reply<Doc<Equipment>>)
      requires Valid()
      modifies this
      ensures Valid() && nextId == old(nextId)
      ensures CastFailures(UpdateViolations(body)) != [] ==>
        r == ServerError("Error updating equipment") && items == old(items)
      ensures CastFailures(UpdateViolations(body)) == [] && UpdateViolations(body) != [] ==>
        r == Invalid(UpdateViolations(body)) && items == old(items)
      ensures UpdateViolations(body) == [] && id !in old(items) ==>
        r == NotFound("Equipment not found") && items == old(items)
      ensures UpdateViolations(body) == [] && id in old(items) ==>
        && EquipmentModel.Update(old(items)[id], body).Passed?
        && items == old(items)[id := EquipmentModel.Update(old(items)[id], body).doc]
        && r == Ok(Doc(id, items[id]))
    {
      var errors := UpdateViolations(body);
      if CastFailures(errors) != [] {
        r := ServerError("Error updating equipment");
      } else if errors != [] {
        r := Invalid(errors);
      } else if id !in items {
        r := NotFound("Equipment not found");
      } else {
        var updated := EquipmentModel.Update(items[id], body).doc;
        Replace(id, updated);
        r := Ok(Doc(id, updated));
      }
    }

    /** `findByIdAndUpdate` writing the updated document back under its id. */
    method Replace(id: Id, doc: Equipment)
      requires Valid() && id in items && EquipmentModel.Valid(doc)
      modifies this
      ensures Valid() && nextId == old(nextId)
      ensures items == old(items)[id := doc]
    {
      items := items[id := doc];
    }

    /** `deleteEquipment`: removes only the named item; maintenance records
        that refer to it are left in place. */
    method Delete(id: Id) returns (r: Reply<Doc<Equipment>>)
      requires Valid()
      modifies this
      ensures Valid() && nextId == old(nextId)
      ensures id in old(items) ==> r == Removed("Equipment deleted successfully") && items == old(items) - {id}
      ensures id !in old(items) ==> r == NotFound("Equipment not found") && items == old(items)
    {
      if id in items {
        items := items - {id};
        r := Removed("Equipment deleted successfully");
      } else {
        r := NotFound("Equipment not found");
      }
    }
  }

  /** The handler's filter names a missing field before the schema is
      consulted: a body without a status is refused with the message, and
      an empty-string category is reported missing rather than outside the
      enum. */
  lemma MissingBeforeSchema(body: Payload)
    requires "status" !in body
    ensures "status" in MissingFields(RequiredFields, body)
    ensures "category" in body && body["category"] == Str("") ==>
      "category" in MissingFields(RequiredFields, body)
  {
  }

  /** A body that passes the filter and names every field with the JSON of a
      valid item is created as exactly that item. */
  lemma CreateRoundTrip(e: Equipment)
    requires EquipmentModel.Valid(e)
    ensures MissingFields(RequiredFields, ToPayload(e)) == []
    ensures FromBody(ToPayload(e)) == Passed(e)
  {
    RoundTrip(e, e);
    PayloadPassesFilter(e);
  }

  lemma PayloadPassesFilter(e: Equipment)
    requires EquipmentModel.Valid(e)
    ensures MissingFields(RequiredFields, ToPayload(e)) == []
  {
    var body := ToPayload(e);
    NamesRoundTrip(e.category, e.status);
    assert Present(body, "name") && Present(body, "manufacturer") && Present(body, "model");
    assert Present(body, "category") && Present(body, "status");
    NoneMissing(RequiredFields, body);
  }
}
