/** The maintenance handlers
    (backend/src/controllers/maintenanceController.js) over an in-memory
    Maintenance collection. Replies show the referenced equipment through
    `populate('equipmentId', 'name model manufacturer')`. */
module MaintenanceController {
  import opened Json
  import opened Schema
  import opened Http
  import opened MaintenanceModel
  import EquipmentModel
  import EquipmentController

  /** `requiredFields` of `createMaintenance`, in its order. */
  const RequiredFields: seq<string> := ["equipmentId", "type", "description", "date", "status", "cost"]

  /** The fields `populate` selects from the referenced equipment (its id is
      always included). */
  datatype EquipmentSummary = EquipmentSummary(id: Id, name: string, model: string, manufacturer: string)

  /** A record as replies show it: `equipmentId` replaced by the summary of
      the equipment it names, or by null when that equipment is gone. */
  datatype Populated = Populated(record: Maintenance, equipment: Option<EquipmentSummary>)

  /** `populate('equipmentId', 'name model manufacturer')` on one record. */
  function Populate(m: Maintenance, items: map<Id, EquipmentModel.Equipment>): (p: Populated)
    ensures p.record == m
    ensures p.equipment.Some? <==> m.equipmentId in items
    ensures p.equipment.Some? ==>
      && p.equipment.value.id == m.equipmentId
      && p.equipment.value.name == items[m.equipmentId].name
      && p.equipment.value.model == items[m.equipmentId].model
      && p.equipment.value.manufacturer == items[m.equipmentId].manufacturer
  {
    if m.equipmentId in items then
      var e := items[m.equipmentId];
      Populated(m, Some(EquipmentSummary(m.equipmentId, e.name, e.model, e.manufacturer)))
    else Populated(m, None)
  }

  /** `populate` over a listing, document by document. */
  function PopulateAll(list: seq<Doc<Maintenance>>, items: map<Id, EquipmentModel.Equipment>): (r: seq<Doc<Populated>>)
    ensures |r| == |list|
    ensures forall i :: 0 <= i < |list| ==> r[i] == Doc(list[i].id, Populate(list[i].record, items))
  {
    seq(|list|, i requires 0 <= i < |list| => Doc(list[i].id, Populate(list[i].record, items)))
  }

  /** The Maintenance collection: stored records by id, and the id the next
      save gets. */
  class MaintenanceCollection {
    var records: map<Id, Maintenance>
    var nextId: Id

    /** Every stored record satisfies the schema and ids are never reused.
        Whether its equipment still exists is not part of this. */
    ghost predicate Valid()
      reads this
    {
      forall id :: id in records ==> id < nextId && MaintenanceModel.Valid(records[id])
    }

    constructor ()
      ensures Valid() && records == map[]
    {
      records := map[];
      nextId := 0;
    }

    /** `getAllMaintenance`: every stored record once, oldest first, each
        with its equipment populated. */
    method GetAll(equipment: EquipmentController.EquipmentCollection) returns (r: Reply<seq<Doc<Populated>>>)
      requires Valid()
      ensures r.Ok?
      ensures forall i, j :: 0 <= i < j < |r.value| ==> r.value[i].id < r.value[j].id
      ensures forall i :: 0 <= i < |r.value| ==>
        && r.value[i].id in records
        && r.value[i].record == Populate(records[r.value[i].id], equipment.items)
      ensures forall id :: id in records ==> Doc(id, Populate(records[id], equipment.items)) in r.value
    {
      var list := Listing(records, 0, nextId);
      ListingSpec(records, 0, nextId);
      var shown := PopulateAll(list, equipment.items);
      forall id | id in records
        ensures Doc(id, Populate(records[id], equipment.items)) in shown
      {
        var k :| 0 <= k < |list| && list[k] == Doc(id, records[id]);
        assert shown[k] == Doc(id, Populate(records[id], equipment.items));
      }
      r := Ok(shown);
    }

    /** `getMaintenanceById`. */
    method GetById(id: Id, equipment: EquipmentController.EquipmentCollection) returns (r: Reply<Doc<Populated>>)
      ensures id in records ==> r == Ok(Doc(id, Populate(records[id], equipment.items)))
      ensures id !in records ==> r == NotFound("Maintenance record not found")
    {
      if id in records {
        r := Ok(Doc(id, Populate(records[id], equipment.items)));
      } else {
        r := NotFound("Maintenance record not found");
      }
    }

    /** `createMaintenance`: the falsy-field filter, the equipment lookup
        (a reference that is not an id makes the lookup throw), then
        `new Maintenance(body).save()`; `now` is the clock. */
    method Create(body: Payload, equipment: EquipmentController.EquipmentCollection, now: int)
      returns (r: Reply<Doc<Populated>>)
      requires Valid()
      modifies this
      ensures Valid()
      ensures MissingFields(RequiredFields, body) != [] ==>
        r == BadRequest(MissingMessage(MissingFields(RequiredFields, body))) && records == old(records)
      ensures MissingFields(RequiredFields, body) == [] && !body["equipmentId"].Oid? ==>
        r == ServerError("Error creating maintenance record") && records == old(records)
      ensures (MissingFields(RequiredFields, body) == [] && body["equipmentId"].Oid?
        && body["equipmentId"].id !in equipment.items) ==>
        r == NotFound("Equipment not found") && records == old(records)
      ensures (MissingFields(RequiredFields, body) == [] && body["equipmentId"].Oid?
        && body["equipmentId"].id in equipment.items && FromBody(body, now).Failed?) ==>
        r == Invalid(FromBody(body, now).errors) && records == old(records)
      ensures (MissingFields(RequiredFields, body) == [] && body["equipmentId"].Oid?
        && body["equipmentId"].id in equipment.items && FromBody(body, now).Passed?) ==>
        && old(nextId) !in old(records)
        && records == old(records)[old(nextId) := FromBody(body, now).doc]
        && r == Created(Doc(old(nextId), Populate(FromBody(body, now).doc, equipment.items)))
        && r.value.record.equipment.Some?
    {
      var missing := MissingFields(RequiredFields, body);
      if missing != [] {
        r := BadRequest(MissingMessage(missing));
      } else {
        PresentWhenNoneMissing(RequiredFields, body, 0);
        var reference := body["equipmentId"];
        if !reference.Oid? {
          r := ServerError("Error creating maintenance record");
        } else if reference.id !in equipment.items {
          r := NotFound("Equipment not found");
        } else {
          var built := FromBody(body, now);
          if built.Failed? {
            r := Invalid(built.errors);
          } else {
            CreateReadsPaths(body, now);
            var id := Insert(built.doc);
            r := Created(Doc(id, Populate(built.doc, equipment.items)));
          }
        }
      }
    }

    /** `save()` of a new document: it gets a fresh id. */
    method Insert(doc: Maintenance) returns (id: Id)
      requires Valid() && MaintenanceModel.Valid(doc)
      modifies this
      ensures Valid()
      ensures id == old(nextId) && id !in old(records)
      ensures records == old(records)[id := doc] && nextId == old(nextId) + 1
    {
      id := nextId;
      records := records[id := doc];
      nextId := nextId + 1;
    }

    /** `updateMaintenance`: cast failures (500), then validators (400),
        then the id lookup (404). A new `equipmentId` is not looked up. */
    method Update(id: Id, body: Payload, equipment: EquipmentController.EquipmentCollection)
      returns (r: Reply<Doc<Populated>>)
      requires Valid()
      modifies this
      ensures Valid() && nextId == old(nextId)
      ensures CastFailures(UpdateViolations(body)) != [] ==>
        r == ServerError("Error updating maintenance record") && records == old(records)
      ensures CastFailures(UpdateViolations(body)) == [] && UpdateViolations(body) != [] ==>
        r == Invalid(UpdateViolations(body)) && records == old(records)
      ensures UpdateViolations(body) == [] && id !in old(records) ==>
        r == NotFound("Maintenance record not found") && records == old(records)
      ensures UpdateViolations(body) == [] && id in old(records) ==>
        && MaintenanceModel.Update(old(records)[id], body).Passed?
        && records == old(records)[id := MaintenanceModel.Update(old(records)[id], body).doc]
        && r == Ok(Doc(id, Populate(records[id], equipment.items)))
    {
      var errors := UpdateViolations(body);
      if CastFailures(errors) != [] {
        r := ServerError("Error updating maintenance record");
      } else if errors != [] {
        r := Invalid(errors);
      } else if id !in records {
        r := NotFound("Maintenance record not found");
      } else {
        UpdateFailsOnViolations(records[id], body);
        var updated := MaintenanceModel.Update(records[id], body).doc;
        Replace(id, updated);
        r := Ok(Doc(id, Populate(updated, equipment.items)));
      }
    }

    /** `findByIdAndUpdate` writing the updated document back under its id. */
    method Replace(id: Id, doc: Maintenance)
      requires Valid() && id in records && MaintenanceModel.Valid(doc)
      modifies this
      ensures Valid() && nextId == old(nextId)
      ensures records == old(records)[id := doc]
    {
      records := records[id := doc];
    }

    /** `deleteMaintenance`: removes only the named record. */
    method Delete(id: Id) returns (r: Reply<Doc<Populated>>)
      requires Valid()
      modifies this
      ensures Valid() && nextId == old(nextId)
      ensures id in old(records) ==> r == Removed("Maintenance record deleted successfully") && records == old(records) - {id}
      ensures id !in old(records) ==> r == NotFound("Maintenance record not found") && records == old(records)
    {
      if id in records {
        records := records - {id};
        r := Removed("Maintenance record deleted successfully");
      } else {
        r := NotFound("Maintenance record not found");
      }
    }
  }

  /** The filter makes `date` and `status` required, so their schema
      defaults never apply to a record the handler creates, and a zero cost
      or a zero timestamp counts as missing. */
  lemma CreatedFromBody(body: Payload, now: int)
    requires MissingFields(RequiredFields, body) == []
    requires FromBody(body, now).Passed?
    ensures "date" in body && body["date"].Num? && FromBody(body, now).doc.date == body["date"].n != 0
    ensures "status" in body && IsText(body["status"])
      && ParseStatus(TextOf(body["status"])) == Some(FromBody(body, now).doc.status)
    ensures FromBody(body, now).doc.cost > 0
  {
    FilteredPresent(body);
    CreateReadsPaths(body, now);
    ChoiceStored(body, "status", ParseStatus, Some(DefaultStatus), FromBody(body, now).doc.status);
    TruthyNumberPositive(body, "cost", None);
  }

  lemma FilteredPresent(body: Payload)
    requires MissingFields(RequiredFields, body) == []
    ensures Present(body, "date") && Present(body, "status") && Present(body, "cost")
  {
    PresentWhenNoneMissing(RequiredFields, body, 3);
    PresentWhenNoneMissing(RequiredFields, body, 4);
    PresentWhenNoneMissing(RequiredFields, body, 5);
  }

  /** An update may point a record at any id: the handler does not check
      that the equipment exists, so a record can end up with none. */
  lemma UpdateAcceptsAnyReference(m: Maintenance, target: Id, items: map<Id, EquipmentModel.Equipment>)
    requires target !in items
    ensures UpdateViolations(map["equipmentId" := Oid(target)]) == []
    ensures MaintenanceModel.Update(m, map["equipmentId" := Oid(target)]) == Passed(m.(equipmentId := target))
    ensures Populate(m.(equipmentId := target), items).equipment == None
  {
  }

  /** Deleting equipment leaves the records that name it in place; they are
      then shown with a null equipment. */
  lemma DeletedEquipmentLeavesOrphans(m: Maintenance, items: map<Id, EquipmentModel.Equipment>)
    requires m.equipmentId in items
    ensures Populate(m, items).equipment.Some?
    ensures Populate(m, items - {m.equipmentId}).equipment == None
    ensures Populate(m, items - {m.equipmentId}).record == m
  {
  }
}
