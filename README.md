# Farm equipment manager: a Dafny model of the record store and its rules

The farm equipment manager is an Express/MongoDB application. It keeps an
inventory of parts, a list of farm equipment and the maintenance records
kept on that equipment. Sign-up works by invitation code. A React dashboard
summarises the data. This project models its core as an in-memory document
store with one map from id to record per collection, and proves properties
of that model:

- **Schemas** (`part_model.dfy`, `equipment_model.dfy`,
  `maintenance_model.dfy`, `invitation_model.dfy`, built on `schema.dfy`).
  Each Mongoose path is modelled with its cast, `trim`, `default`,
  `required`, `enum` and `min` rules. Creating a document validates every
  path. An update validates only the paths its body names. Either way each
  path reports at most one violation, and a rejected document reports them
  all (the model lists them in schema order; the order the source replies
  in is listed under "Left out"). Every valid record round-trips through
  its own JSON.
- **Resource handlers** (`part_controller.dfy`, `equipment_controller.dfy`,
  `maintenance_controller.dfy`). Each collection is a class holding a map
  and an id counter. Its methods are `getAll`, `getById`, `create`,
  `update` and `delete`, and each states its reply and the new state for
  every outcome. The missing-field filter of the create handlers uses
  JavaScript falsiness (`json.dfy`), so a `0` counts as missing. A
  maintenance record is created only when its equipment exists. An update
  may later point it at equipment that does not exist. Deleting equipment
  leaves the records that name it in place.
- **Accounts** (`auth_controller.dfy`). The class holds users and
  invitation codes. Only an admin can generate a code. Registration uses
  up an unused code exactly once and links it to the new user. Used codes
  never change again. Login returns the same 400 for an unknown user and
  for a wrong password. A profile update is all or nothing against an
  allow-list.
- **Dashboard** (`dashboard.dfy`). The page computes counts, the alert
  total and the first-five lists from the three list replies. If any of
  the three fetches fails, it stays at its initial zeros.

Request bodies are maps from keys to JSON values (`Json.Value`). An absent
key is a key missing from the map. A string shaped like an ObjectId is
`Oid(id)`; it is still a string, and a text or enum path reads it as its
24 hex digits (`Json.TextOf`). Replies are `Http.Reply` values, which carry the status code
and message that `res.status(...).json(...)` sends. bcrypt, the JWT token,
`Math.random` and the clock are not modelled as code. The clock reading,
the password digest and the generated code text are parameters, and
bcrypt's `compare` is an uninterpreted function that `AuthService` holds.

Where the source and the behaviour one might expect differ, the model
follows the code:

- `findByIdAndUpdate(..., { runValidators: true })` casts and validates the
  body before it looks up the id. So an update whose body is invalid gets
  its 400 (or, for a cast failure, a 500) even when the id does not exist.
  Only a valid body on an absent id gives 404.
- The dashboard counts maintenance as pending when its status is "Pending"
  or "In Progress". "Pending" is not a maintenance status, so only
  "In Progress" records are counted (`Dashboard.PendingIsInProgress`).
- The maintenance create handler lists `date` and `status` as required
  fields. So the schema defaults for those two (the creation time and
  Scheduled) never apply to a record it creates. A cost of 0 and a
  timestamp of 0 count as missing (`MaintenanceController.CreatedFromBody`).

## Model

| member | source | states |
|---|---|---|
| Json.MissingFields | backend/src/controllers/partController.js:36-37 | the result holds exactly the required fields whose body value is absent or falsy (null, false, 0, ""), and is no longer than the list |
| Json.MissingFieldsConcat | backend/src/controllers/partController.js:37 | the filter keeps list order: the missing fields of a concatenation are those of the first part followed by those of the second |
| Json.NoneMissing | backend/src/controllers/partController.js:37-39 | when every listed field is truthy, nothing is reported missing |
| Json.PresentWhenNoneMissing | backend/src/controllers/partController.js:36-39 | when the filter reports nothing, every listed field is in the body with a truthy value |
| Json.OnlyTwoMissing | backend/src/controllers/partController.js:36-37 | when exactly two listed fields are falsy, the filter reports exactly those two, in list order |
| Json.OnlyMissing | backend/src/controllers/partController.js:36-42 | when exactly one listed field is falsy, the filter reports exactly that field |
| Json.Join | backend/src/controllers/partController.js:41 | joining no parts gives "", one part gives that part, and the result always starts with the first part |
| Json.JoinSnoc | backend/src/controllers/partController.js:41 | joining one more part appends the separator and that part, so the parts appear in order separated by the separator |
| Json.MissingMessage | backend/src/controllers/partController.js:40-42 | the 400 message is "Missing required fields: " followed by the missing fields joined by ", " |
| Json.TrimStart | backend/src/models/Part.js:7 | the result is a suffix of the input, starts with a non-space, and only spaces were removed |
| Json.TrimEnd | backend/src/models/Part.js:7 | the result is a prefix of the input, ends with a non-space, and only spaces were removed |
| Json.TrimSpec | backend/src/models/Part.js:7 | `trim` yields a trimmed slice of its input, empty exactly when the input is all whitespace |
| Json.TrimEnds | backend/src/models/Part.js:7 | the trimmed string starts and ends with a non-space character, or is empty |
| Json.TrimMiddle | backend/src/models/Part.js:7 | the trimmed string is the slice of the input that starts after the leading whitespace |
| Json.TrimTrimmed | backend/src/models/Part.js:7 | trimming is idempotent: a trimmed string is stored as it is |
| Json.TrimPadding | backend/src/models/Part.js:7 | whitespace added around a trimmed string is removed again |
| Json.TrimStartPadding | backend/src/models/Part.js:7 | leading whitespace added before a string is removed by the start trim |
| Json.TrimEndPadding | backend/src/models/Part.js:7 | trailing whitespace added after a string is removed by the end trim |
| Json.TextOf | backend/src/models/Part.js:4-8 | a string in ObjectId form read by a text path is 24 characters with nothing to trim |
| Json.HexRoundTrip | backend/src/models/Maintenance.js:4-8 | the fixed-width lower-case hex text of a number below 16 to the width reads back as that number |
| Json.OidText | backend/src/models/Maintenance.js:4-8 | the text of an ObjectId is 24 lower-case hex digits, none of them whitespace |
| Json.OidTextRoundTrip | backend/src/models/Maintenance.js:4-8 | the text of an ObjectId below 16^24 reads back as that ObjectId |
| Schema.Errors | backend/src/controllers/partController.js:55 | a path reports at most one violation, and none exactly when it is accepted |
| Schema.RequiredText | backend/src/models/Part.js:4-8 | a required trimmed string is accepted exactly when it is a string (an ObjectId-shaped one included) that is not blank after trimming; it is stored trimmed; absent, null or blank after trimming is a `required` violation; any other value is a cast failure |
| Schema.OptionalText | backend/src/models/Part.js:41-44 | an optional trimmed string is accepted when unset (stored as none) or a string, an ObjectId-shaped one included (stored trimmed); any other value is a cast failure |
| Schema.Number | backend/src/models/Part.js:19-35 | an absent number takes its default or fails `required`; a number below the minimum is a `min` violation, never clamped; null fails `required`; any other non-number is a cast failure |
| Schema.NumberOf | backend/src/models/Part.js:19-35 | a number at or above the minimum is stored as given |
| Schema.ObjectIdShapedText | backend/src/models/Part.js:4-8 | a string in ObjectId form given for a required or optional text path is stored as its 24 hex digits |
| Schema.ObjectIdShapedChoice | backend/src/models/Part.js:45-50 | a string in ObjectId form that the enum does not list is an enum violation carrying that text, not a cast failure |
| Schema.Choice | backend/src/models/Part.js:45-50 | an enum path is accepted exactly when it is a non-empty string the enum lists; an unlisted string, ObjectId-shaped or not, is an enum violation carrying its value; null or the empty string is a `required` violation; any other value is a cast failure; absent takes the default or fails `required` |
| Schema.Timestamp | backend/src/models/Maintenance.js:19-23 | an absent date takes the clock reading; a present one is accepted exactly when it is a number; null is a `required` violation and any other value a cast failure |
| Schema.Reference | backend/src/models/Maintenance.js:4-8 | a reference is accepted exactly when it is an id; unset is a `required` violation; any other value is a cast failure |
| Schema.RequiredTextOf | backend/src/models/Part.js:4-8 | a non-empty trimmed string is stored unchanged |
| Schema.OptionalTextOf | backend/src/models/Part.js:41-44 | null leaves an optional string unset; a trimmed string is stored unchanged |
| Schema.ChoiceOf | backend/src/models/Part.js:45-50 | a listed enum name is stored as the value it names |
| Schema.KeepErrors | backend/src/controllers/partController.js:68-72 | an update path reports its reader's violation exactly when the body names it |
| Schema.TimestampErrors | backend/src/models/Maintenance.js:19-23 | whether a given date is accepted does not depend on the clock reading |
| Schema.TextStored | backend/src/models/Part.js:4-8 | an accepted required text was given as a string and is stored trimmed |
| Schema.NumberStored | backend/src/models/Part.js:19-35 | an accepted number is the number given, or the default when the path is absent |
| Schema.OptionalStored | backend/src/models/Part.js:41-44 | an accepted optional text stores nothing when unset, otherwise the body's string trimmed |
| Schema.TimestampStored | backend/src/models/Maintenance.js:19-23 | an accepted date stores the body's timestamp, or the creation time when absent |
| Schema.ReferenceStored | backend/src/models/Maintenance.js:4-8 | an accepted reference stores the body's object id |
| Schema.ChoiceStored | backend/src/models/Part.js:45-50 | an accepted enum value is what the given name parses to, or the default when the path is absent |
| Schema.TruthyNumberPositive | backend/src/models/Part.js:19-35 | a truthy value accepted by a `min: 0` number path is positive |
| Schema.CastFailures | backend/src/controllers/partController.js:80-88 | selects exactly the cast failures among the violations |
| Http.Reply.Status | backend/src/controllers/partController.js:39-58 | every reply has a status in 200..599, and 200/201 exactly for the success replies |
| Http.ListingSpec | backend/src/controllers/partController.js:5-6 | `find({})` lists each stored document in the id range exactly once, by ascending id, and nothing else |
| PartModel.ParseCategory | backend/src/models/Part.js:45-50 | an accepted category name is the name of the category it yields |
| PartModel.CategoryRoundTrip | backend/src/models/Part.js:48 | each of the six categories is accepted by its own name |
| PartModel.Assemble | backend/src/models/Part.js:3-53 | a part is built exactly when all nine paths are accepted; otherwise the violations of exactly the rejected paths are reported (listed in schema order) |
| PartModel.FromBody | backend/src/models/Part.js:3-53 | every part built from a body satisfies the schema; a rejected body has at least one violation (what each path stores: `CreateStoresText`, `CreateStoresOrDefaults`) |
| PartModel.CreateStoresText | backend/src/models/Part.js:4-44 | a created part has name, part number, manufacturer and location given as strings and stored trimmed, a price given as a number and stored as given, and the description trimmed or none when unset |
| PartModel.CreateStoresOrDefaults | backend/src/models/Part.js:19-50 | a created part stores the given quantity, minimum quantity and category, or 0, 1 and Other when they are absent |
| PartModel.CreateReadsNumbers | backend/src/models/Part.js:19-50 | a created part's quantity, minimum quantity, price and category are the values their path readers accept |
| PartModel.CreateReadsText | backend/src/models/Part.js:4-44 | a created part's name, part number, manufacturer, location and description are the values their path readers accept |
| PartModel.TruthyNumbersPositive | backend/src/models/Part.js:19-35 | a created part whose body gives truthy quantity, minimum quantity and price stores all three as positive numbers |
| PartModel.Update | backend/src/models/Part.js:3-53 | an accepted update keeps the part valid and leaves every path the body does not name unchanged; a rejected one reports violations (named paths: `UpdateStores`) |
| PartModel.HexNamesNoCategory | backend/src/models/Part.js:48 | no category is named by lower-case hex digits alone |
| PartModel.ObjectIdShapedDescription | backend/src/models/Part.js:41-44 | an update whose only path is a description in ObjectId form passes and stores that text, nothing else changing |
| PartModel.ObjectIdShapedCategory | backend/src/models/Part.js:45-50 | an update whose only path is a category in ObjectId form fails with exactly one enum violation for that text |
| PartModel.UpdateReadsText | backend/src/models/Part.js:4-44 | each text path an accepted update names holds what its reader accepts |
| PartModel.UpdateReadsNumbers | backend/src/models/Part.js:19-50 | each number and the category an accepted update names hold what their readers accept |
| PartModel.UpdateStores | backend/src/models/Part.js:3-53 | an accepted update stores, at every path the body names, the body's value: texts trimmed, numbers as sent, the category parsed, a null description cleared |
| PartModel.UpdateFailsOnViolations | backend/src/controllers/partController.js:68-87 | an update fails exactly when the paths the body names have violations, and reports exactly those, whatever part it is applied to |
| PartModel.BlankNameRequired | backend/src/models/Part.js:4-8 | an update whose only path is a whitespace-only name reports exactly one `required` violation, which is not a cast failure (so the update handler answers 400, not 500) |
| PartModel.CreateRoundTrip | backend/src/models/Part.js:3-53 | every valid part is created unchanged from its own JSON |
| PartModel.UpdateRoundTrip | backend/src/models/Part.js:3-53 | updating any stored part with the JSON of a valid part stores exactly that part |
| PartModel.PayloadFields | backend/src/models/Part.js:4-44 | each text path of a valid part's JSON reads back as stored |
| PartModel.UpdateNothing | backend/src/models/Part.js:3-53 | an update naming no schema path leaves the part as it was |
| PartModel.NegativePriceRejected | backend/src/models/Part.js:31-35 | a negative price is a `min` violation on create and on update |
| PartModel.NegativeQuantityRejected | backend/src/models/Part.js:19-24 | a negative quantity is a `min` violation on update |
| PartModel.MechanicalRejected | backend/src/models/Part.js:45-50 | the category "Mechanical" is rejected as outside the enum |
| PartModel.DefaultsNeedReorder | backend/src/models/Part.js:19-61 | absent quantity, minimum and category default to 0, 1 and Other, and such a part needs reorder |
| EquipmentModel.ParseCategory | backend/src/models/Equipment.js:19-23 | an accepted category name is the name of the category it yields |
| EquipmentModel.ParseStatus | backend/src/models/Equipment.js:24-28 | an accepted status name is the name of the status it yields |
| EquipmentModel.NamesRoundTrip | backend/src/models/Equipment.js:19-28 | each category and status is accepted by its own name |
| EquipmentModel.Assemble | backend/src/models/Equipment.js:3-29 | equipment is built exactly when all five paths are accepted; otherwise the violations of exactly the rejected paths are reported (listed in schema order) |
| EquipmentModel.FromBody | backend/src/models/Equipment.js:3-29 | equipment built from a body satisfies the schema; a rejected body has at least one violation (what each path stores: `CreateStores`) |
| EquipmentModel.CreateReadsPaths | backend/src/models/Equipment.js:3-29 | the five paths of created equipment are the values their readers accept |
| EquipmentModel.CreateStores | backend/src/models/Equipment.js:3-29 | created equipment has every path in the body: the texts stored trimmed, the category and status parsed from their names |
| EquipmentModel.Update | backend/src/models/Equipment.js:3-29 | an accepted update keeps the record valid and unnamed paths unchanged; it fails exactly when the named paths have violations, and reports those (named paths: `UpdateStores`) |
| EquipmentModel.UpdateReadsPaths | backend/src/models/Equipment.js:3-29 | each path an accepted update names holds what its reader accepts |
| EquipmentModel.UpdateStores | backend/src/models/Equipment.js:3-29 | an accepted update stores, at every path the body names, the body's text trimmed or its enum name parsed |
| EquipmentModel.RoundTrip | backend/src/models/Equipment.js:3-29 | every valid record is created from its own JSON, and that JSON updates any stored record to it |
| EquipmentModel.NoDefaults | backend/src/models/Equipment.js:19-28 | a body without category or status is rejected with a `required` violation for it |
| EquipmentModel.AssembleReports | backend/src/models/Equipment.js:19-28 | a rejected category or status makes the whole record fail, and its violation is among those reported |
| EquipmentModel.UnknownStatusRejected | backend/src/models/Equipment.js:24-28 | an unlisted status is rejected on create and on update, and named in the violation |
| MaintenanceModel.ParseKind | backend/src/models/Maintenance.js:9-13 | an accepted type name is the name of the type it yields |
| MaintenanceModel.ParseStatus | backend/src/models/Maintenance.js:24-29 | an accepted status name is the name of the status it yields |
| MaintenanceModel.NamesRoundTrip | backend/src/models/Maintenance.js:9-29 | each type and status is accepted by its own name |
| MaintenanceModel.Assemble | backend/src/models/Maintenance.js:3-39 | a record is built exactly when all seven paths are accepted; otherwise the violations of exactly the rejected paths are reported (listed in schema order) |
| MaintenanceModel.FromBody | backend/src/models/Maintenance.js:3-39 | a record built from a body satisfies the schema; a rejected body has at least one violation (what each path stores: `CreateStores`) |
| MaintenanceModel.Update | backend/src/models/Maintenance.js:3-39 | an accepted update keeps the record valid and leaves every path the body does not name unchanged; a rejected one reports violations (named paths: `UpdateStores`) |
| MaintenanceModel.UpdateReadsPaths | backend/src/models/Maintenance.js:3-39 | each path an accepted update names holds what its reader accepts |
| MaintenanceModel.UpdateStores | backend/src/models/Maintenance.js:3-39 | an accepted update stores, at every path the body names, the body's value: the reference as sent, enum names parsed, texts trimmed, the date and cost as sent, null notes cleared |
| MaintenanceModel.UpdateFailsOnViolations | backend/src/controllers/maintenanceController.js:83-101 | an update fails exactly when the paths the body names have violations, and reports exactly those, whatever record it is applied to |
| MaintenanceModel.CreateReadsPaths | backend/src/models/Maintenance.js:4-34 | a created record's equipment reference, date, status and cost are the values their path readers accept |
| MaintenanceModel.CreateReadsText | backend/src/models/Maintenance.js:9-38 | a created record's type, description and notes are the values their path readers accept |
| MaintenanceModel.CreateStores | backend/src/models/Maintenance.js:3-39 | a created record stores the given reference, type, description and cost, the given date and status or the creation time and Scheduled, and the notes trimmed or none |
| MaintenanceModel.RoundTrip | backend/src/models/Maintenance.js:3-39 | every valid record is created from its own JSON at any clock reading, and that JSON updates any stored record to it |
| MaintenanceModel.Defaults | backend/src/models/Maintenance.js:19-29 | absent status and date become Scheduled and the creation time |
| MaintenanceModel.RequiredReferenceAndCost | backend/src/models/Maintenance.js:4-34 | an unset equipment reference or an absent cost fails `required`; a negative cost is a `min` violation |
| InvitationModel.New | backend/src/models/InvitationCode.js:4-23 | a new code is stored trimmed, unused, with no user and the creation time; a blank code fails `required` |
| InvitationModel.NewCodeExpiry | backend/src/models/InvitationCode.js:19-23 | a new code is not expired when created, and is expired exactly from 604800 seconds (seven days) after its creation |
| PartController.PartCollection.GetAll | backend/src/controllers/partController.js:4-13 | the reply lists every stored part once, by ascending id, and nothing else |
| PartController.PartCollection.GetById | backend/src/controllers/partController.js:15-28 | the stored part, or 404 "Part not found" |
| PartController.PartCollection.Create | backend/src/controllers/partController.js:31-60 | a body with falsy required fields gets 400 naming them; one failing the schema gets 400 with its violations; either way nothing is stored. Otherwise 201 and exactly one new part under a fresh id |
| PartController.PartCollection.Insert | backend/src/controllers/partController.js:45-46 | a save stores the document under a fresh id and changes nothing else |
| PartController.PartCollection.Replace | backend/src/controllers/partController.js:68-72 | an update writes the new document under its id, keeps the store valid and changes nothing else |
| PartController.PartCollection.Update | backend/src/controllers/partController.js:63-90 | a cast failure gives 500 and violations give 400, both with the store unchanged; an absent id gives 404 unchanged; otherwise only that part is replaced by its update and returned |
| PartController.PartCollection.Delete | backend/src/controllers/partController.js:93-109 | removes only the named part, or gives 404 with the store unchanged |
| PartController.CreatedPartsArePositive | backend/src/controllers/partController.js:36-37 | a part the handler creates never has a zero quantity, minimum quantity or price |
| PartController.FilteredNumbersPresent | backend/src/controllers/partController.js:36-39 | a body that passes the filter has truthy quantity, minimum quantity and price |
| PartController.ZeroIsMissing | backend/src/controllers/partController.js:37 | a quantity, minimum quantity or price of 0 is reported missing |
| PartController.OnlyPriceMissing | backend/src/controllers/partController.js:36-42 | a body lacking only the price gets exactly "Missing required fields: price" |
| PartController.QuantityAndPriceMissing | backend/src/controllers/partController.js:36-42 | a body lacking only the quantity and the price reports exactly those two, with the message "Missing required fields: quantity, price" |
| PartController.CreateRoundTrip | backend/src/controllers/partController.js:36-49 | a valid part whose quantity, minimum and price are non-zero passes the filter and is created unchanged from its JSON |
| PartController.PayloadPassesFilter | backend/src/controllers/partController.js:36-39 | such a part's JSON has no missing fields |
| EquipmentController.EquipmentCollection.GetAll | backend/src/controllers/equipmentController.js:5-13 | the reply lists every stored item once, by ascending id, and nothing else |
| EquipmentController.EquipmentCollection.GetById | backend/src/controllers/equipmentController.js:16-29 | the stored item, or 404 "Equipment not found" |
| EquipmentController.EquipmentCollection.Create | backend/src/controllers/equipmentController.js:32-61 | falsy required fields give 400 naming them; schema violations give 400 with the list; either way nothing is stored. Otherwise 201 and exactly one new item |
| EquipmentController.PayloadPassesFilter | backend/src/controllers/equipmentController.js:36-37 | the JSON of a valid equipment record has no missing required fields |
| EquipmentController.EquipmentCollection.Insert | backend/src/controllers/equipmentController.js:46-48 | a save stores the document under a fresh id and changes nothing else |
| EquipmentController.EquipmentCollection.Replace | backend/src/controllers/equipmentController.js:69-73 | an update writes the new document under its id, keeps the store valid and changes nothing else |
| EquipmentController.EquipmentCollection.Update | backend/src/controllers/equipmentController.js:64-91 | a cast failure gives 500 and violations give 400, both unchanged; an absent id gives 404; otherwise only that item is updated and the updated item is returned |
| EquipmentController.EquipmentCollection.Delete | backend/src/controllers/equipmentController.js:94-110 | removes only the named item, with no check of maintenance records, or gives 404 unchanged |
| EquipmentController.MissingBeforeSchema | backend/src/controllers/equipmentController.js:37-44 | an absent status or an empty category is reported by the filter before the schema sees it |
| EquipmentController.CreateRoundTrip | backend/src/controllers/equipmentController.js:37-50 | the JSON of any valid item passes the filter and is created as that item |
| MaintenanceController.Populate | backend/src/controllers/maintenanceController.js:21-22 | the reply shows the referenced equipment's id, name, model and manufacturer when it exists, and null otherwise |
| MaintenanceController.MaintenanceCollection.GetAll | backend/src/controllers/maintenanceController.js:7-16 | the reply lists every stored record once, by ascending id, each populated |
| MaintenanceController.MaintenanceCollection.GetById | backend/src/controllers/maintenanceController.js:19-33 | the populated record, or 404 "Maintenance record not found" |
| MaintenanceController.MaintenanceCollection.Create | backend/src/controllers/maintenanceController.js:36-75 | falsy fields give 400 before any lookup; a reference that is not an id gives 500; unknown equipment gives 404; schema violations give 400; none of these stores anything. Otherwise 201 with one new record whose equipment exists |
| MaintenanceController.MaintenanceCollection.Insert | backend/src/controllers/maintenanceController.js:56-57 | a save stores the document under a fresh id and changes nothing else |
| MaintenanceController.MaintenanceCollection.Replace | backend/src/controllers/maintenanceController.js:83-87 | an update writes the new document under its id, keeps the store valid and changes nothing else |
| MaintenanceController.MaintenanceCollection.Update | backend/src/controllers/maintenanceController.js:78-105 | as for parts; a new equipment reference is only cast, never looked up |
| MaintenanceController.MaintenanceCollection.Delete | backend/src/controllers/maintenanceController.js:108-124 | removes only the named record, or gives 404 unchanged |
| MaintenanceController.CreatedFromBody | backend/src/controllers/maintenanceController.js:41-48 | a created record takes its non-zero date and its status from the body, never the defaults, and has a positive cost |
| MaintenanceController.FilteredPresent | backend/src/controllers/maintenanceController.js:41-48 | a body that passes the filter has truthy date, status and cost |
| MaintenanceController.UpdateAcceptsAnyReference | backend/src/controllers/maintenanceController.js:83-87 | an update may point a record at equipment that does not exist; the record is then shown with null equipment |
| MaintenanceController.DeletedEquipmentLeavesOrphans | backend/src/controllers/equipmentController.js:98-105 | after its equipment is deleted, a record is unchanged and shown with null equipment |
| AuthController.First | backend/src/controllers/authController.js:91-96 | `findOne` yields the first matching user in insertion order, or none when no user matches |
| AuthController.CodeKeyIgnoresPadding | backend/src/controllers/authController.js:32 | a trimmed code sent with whitespace around it looks up the same stored code as the code alone |
| AuthController.NewUser | backend/src/controllers/authController.js:44-53 | a new user has role "user", the given email and name, and the hash as password, and no other field |
| AuthController.AuthService.GenerateInvitationCode | backend/src/controllers/authController.js:8-24 | a non-admin gets 403 and nothing is stored; a blank or duplicate code gives 500 and nothing is stored; otherwise 201 with the code, stored trimmed and unused. Used codes are kept |
| AuthController.AuthService.Register | backend/src/controllers/authController.js:27-83 | an absent or used code gives 400 "Invalid or used invitation code", a taken email gives 400 "User already exists", a password that is not a string gives 500 (an ObjectId-shaped password is a string and proceeds); none of these changes anything. Otherwise exactly one user is added and exactly that code becomes used by it. Uniqueness of codes, and used-exactly-when-linked, hold throughout |
| AuthController.AuthService.Enroll | backend/src/controllers/authController.js:55-61 | saving the user appends it, and the code is marked used by that user; the store stays valid and no other code changes |
| AuthController.AuthService.Login | backend/src/controllers/authController.js:86-128 | the first user whose email or username is the identifier is checked; an unknown identifier and a wrong password give the same 400 "Invalid credentials"; any string password, ObjectId-shaped or not, is compared |
| AuthController.AuthService.UpdateProfile | backend/src/controllers/authController.js:141-168 | any key outside the allow-list gives 400 with nothing changed; otherwise exactly the submitted keys are assigned to the caller and nothing else changes |
| AuthController.FirstAppend | backend/src/controllers/authController.js:91-96 | a new user does not change an earlier match, and is found only when no earlier user matches |
| AuthController.LoginAfterRegister | backend/src/controllers/authController.js:44-106 | a user just registered is the one login finds for that email when no earlier user matches it, and the hash it checks is the stored digest |
| AuthController.CodeUsedOnce | backend/src/controllers/authController.js:32-61 | once a registration has marked a code as used, no later registration can use it |
| AuthController.AllowList | backend/src/controllers/authController.js:143-147 | the check accepts exactly bodies whose keys are all allowed, so `role` can never be set |
| Dashboard.Filter | frontend/src/pages/Dashboard.tsx:96-97 | the filter keeps only items that pass, keeps all of them, and adds nothing |
| Dashboard.Take | frontend/src/pages/Dashboard.tsx:110 | `slice(0, n)` keeps the first min(n, length) items |
| Dashboard.Load | frontend/src/pages/Dashboard.tsx:70-120 | a failed fetch leaves the initial state; otherwise total equipment is the listing length, low and pending counts are the counts of the two tests, alerts are their sum, and the lists are the first five equipment items, the first five low-stock parts and the first five pending records, each of them low-stock or pending and taken from its listing |
| Dashboard.FilterCount | frontend/src/pages/Dashboard.tsx:96-99 | a filter's length is the position-by-position count |
| Dashboard.FilterConcat | frontend/src/pages/Dashboard.tsx:111-116 | the filter keeps order over concatenation |
| Dashboard.CountConcat | frontend/src/pages/Dashboard.tsx:96-99 | counts add over concatenation |
| Dashboard.CountSame | frontend/src/pages/Dashboard.tsx:97-99 | tests agreeing on every item count the same |
| Dashboard.LowStockIsNeedsReorder | frontend/src/pages/Dashboard.tsx:96 | the dashboard's low-stock test is the Part schema's `needsReorder` |
| Dashboard.PendingIsInProgress | frontend/src/pages/Dashboard.tsx:97-99 | the pending count is the number of In Progress records; Scheduled, Completed and Cancelled are never counted |
| Dashboard.LowStockPrefix | frontend/src/pages/Dashboard.tsx:111 | the low-stock list shows the low parts of a listing prefix first, in order |
| Dashboard.OneMoreLowPart | frontend/src/pages/Dashboard.tsx:96-107 | one more low part raises the low count and the alert total by one |

Helpers that only build inputs or read one field carry no row: the JSON
of a record (`ToPayload`), the per-path update selectors (`Schema.Keep`,
`Schema.Supplied`), `MaintenanceController.PopulateAll`, and
`AuthController.Field` and `CodeKey`. What they compute is stated by the
round-trip, update, listing and registration members above. The same goes
for `UpdateViolations` in `PartModel`, `EquipmentModel` and
`MaintenanceModel`, the validators that `runValidators` runs on the paths
an update names: `PartModel.UpdateFailsOnViolations`,
`MaintenanceModel.UpdateFailsOnViolations` and `EquipmentModel.Update`
(`Failed? <==> UpdateViolations(body) != []`, with those errors) state
what they mean, and the collections' `Update` methods state which of them
give 500 and which 400.

## Left out

- HTTP plumbing is not modelled: routing, CORS, static files, the database connection and server start. Replies are `Http.Reply` values.
- The route-level checks of the register route (email format, password length) are not modelled. The handler never reads their result, so `Register` has no such precondition.
- Malformed ids in the URL are not modelled. Mongoose answers them with a CastError, which gives 500. Ids in the model are natural numbers.
- Lenient casts are not modelled (a number given for a string path, a numeric string given for a number path). A value of the wrong JSON type is a cast failure.
- Validation messages are not modelled as text. A `Schema.Violation` names the path and the rule that failed.
- Prices and costs are integers (cents), and dates are integer timestamps. Floating point and date parsing are not modelled.
- Timestamps (`createdAt`/`updatedAt` of `timestamps: true`) are not modelled.
- The `needsReorder` virtual is a predicate on parts. The replies do not include it, because the schema does not enable virtuals in JSON.
- Reply projections are not modelled: the token, the selected user fields, and populate's field selection beyond the equipment summary.
- The User schema is not part of this model. User records hold untyped fields. Saving a user is assumed to succeed, and no pre-save hook is modelled. If such a hook hashes passwords, `register` would hash twice and `updateProfile` would store a hash; neither is shown here.
- Mongoose's treatment of undefined values in query filters is not modelled. An absent email or code is compared as "undefined" and matches only records that lack the field, not every record.
- bcrypt and JWT are not modelled: `passwordMatches` stands in for `compare`, and the hash is a parameter. `Math.random` is not modelled: the generated code is a parameter.
- The TTL purge of expired codes is not modelled. It is a background database process; `InvitationModel.Expired` states when a code becomes eligible for it, and `Register` does not look at expiry.
- The race between checking a code and marking it used during concurrent registrations is not modelled. The model is sequential.
- `addDocument` and `addImage` are not modelled. They are dead code, dropped by the `module.exports` reassignment.
- `getProfile`, the React pages other than the dashboard, and the admin scripts are not modelled.
- Assemble (in `PartModel`, `EquipmentModel` and `MaintenanceModel`): the order of the reported violations is not modelled. The handlers reply with `Object.values(error.errors)`, whose order is the order in which Mongoose recorded the errors, so on create the cast errors from construction come before the validator errors. The model lists one violation per rejected path in schema order; which violations are reported is modelled, their order is not.
- UpdateViolations: the order of an update's violations is not modelled. Mongoose records them in the order of the body's keys, and a `Payload` is a map with no key order, so the model lists them in schema order.
- Update (in `PartCollection`, `EquipmentCollection` and `MaintenanceCollection`): the error list of a 400 reply is `UpdateViolations` in schema order, not in the order of the body's keys.
- Dashboard.Load: does not model React state updates over time. The page loads once, so a failed fetch shows the initial state.
