# Office inventory: owner-scoped CRUD

A Dafny model of the `/offices` router of a small Express + Mongoose API
(`src/routes/officeRoutes.ts`) and of the `OfficeInventory` schema it stores
(`src/models/OfficeInventory.ts`).

Each inventory record has a name, a description, a quantity, a `dateAdded`
and the `userId` of its owner. Four handlers serve the authenticated caller:

- GET lists the caller's records.
- POST creates one record.
- PUT `/:id` replaces the four fields of one of the caller's records.
- DELETE `/:id` removes one of the caller's records.

Every query filters by the caller's `userId`. PUT and DELETE match on `_id`
and `userId` together, so another user's record answers exactly like a
missing one (404, "Record not found or unauthorized").

Files:

- `wrappers.dfy`: module `Wrappers`, the `Option` type used for body fields a
  client may leave out.
- `office_inventory.dfy`: module `OfficeInventory`, the schema. `Record` is a
  stored document without its `_id`; its owner field is `userId`. `Document` is a document before
  validation. `Validate` models the `required: true` validators: a required
  String rejects an unset value and "", while the Number, Date and ObjectId
  paths only reject an unset value. `Conforms` is what every stored record
  satisfies.
- `office_routes.dfy`: module `OfficeRoutes`, the router. It holds:
  - the request body (`Submission`);
  - JavaScript truthiness (`TruthyText`, `TruthyNumber`) and the shared
    required-field check `AllFieldsGiven`, under which an empty string, a
    missing value and quantity 0 all count as missing;
  - statuses and responses, including the three error bodies;
  - the caller's view `OwnedBy` and the answers to PUT and DELETE as
    functions of that view alone;
  - the class `OfficeCollection`, whose `records` map from `_id` to record is
    updated in place by `Create`, `Update` and `Delete`.
- `office_scenario.dfy`: module `OfficeScenario`, a client that takes one desk
  through its whole life while a second user tries to change it.

Conventions:

- The caller's user id is a trusted parameter. Token checking happens before
  the handlers and is not modelled.
- A failing database call is the parameter `storeFails`. It also stands for
  the cast failures the model leaves out. A handler that reaches the store
  answers 500 `Server error` when it is set, and the store is unchanged.
- A new `_id` is any id the collection does not yet hold.

Validation comes first in POST and PUT. The model states this as: a falsy
field answers 400 whatever the store holds and whatever `storeFails` says.
PUT and DELETE are specified by `UpdateAnswer` and `DeleteAnswer`, which take
the caller's own records only. The methods' postconditions equate their
responses with these functions. That is the non-disclosure guarantee: a store
where the id belongs to someone else and a store without that id give the
caller the same answer.

## Model

| member | source | states |
|---|---|---|
| `OfficeInventory.Validate` | src/models/OfficeInventory.ts:3-25 | A document passes validation exactly when name and description are set and non-empty and quantity, dateAdded and userId are set. The accepted record conforms and carries exactly the document's values. |
| `OfficeInventory.ValidateAcceptsConforming` | src/models/OfficeInventory.ts:3-25 | Every conforming record passes validation unchanged: the round trip from record to document and back. |
| `OfficeRoutes.FalsyFieldsAreMissing` | src/routes/officeRoutes.ts:27-30 | The shared required-field check (`AllFieldsGiven`, also used at line 47) passes exactly when no field is falsy: an unset value, "" for name, description or dateAdded, or quantity 0 counts as missing. A negative quantity passes. |
| `OfficeRoutes.CheckedDraftIsValid` | src/routes/officeRoutes.ts:27-34 | A body that passed the required-field check builds a document, owned by the caller, that the schema's required validators accept. In the model POST answers 500 only when `storeFails` holds; `storeFails` also stands for the cast failures that make `save` fail in the program. |
| `OfficeRoutes.ZeroQuantityRejectedOnlyByHandler` | src/routes/officeRoutes.ts:27-30 | A body whose only defect is quantity 0 fails the handler's check, although the schema would accept the record with quantity 0. |
| `OfficeRoutes.Replaced` | src/routes/officeRoutes.ts:53-57 | The update document replaces name, description, quantity and dateAdded with the body's values. It keeps the owner, and the result still conforms to the schema. |
| `OfficeRoutes.UpperBound` | src/routes/officeRoutes.ts:33-34 | Some id is larger than every id in use, so a fresh `_id` for a new record always exists. |
| `OfficeRoutes.OthersSeeNoChange` | src/routes/officeRoutes.ts:53-57 | A change confined to one user's records leaves every other user's view exactly as it was. |
| `OfficeRoutes.AnswersDependOnlyOnView` | src/routes/officeRoutes.ts:53-62 | The answers to PUT and DELETE depend only on the caller's own records. Two stores the caller sees alike give identical answers. |
| `OfficeRoutes.ForeignUpdateLooksAbsent` | src/routes/officeRoutes.ts:53-62 | PUT on a record owned by another user answers exactly as PUT on a missing id, and never 200. |
| `OfficeRoutes.ForeignDeleteLooksAbsent` | src/routes/officeRoutes.ts:76-80 | DELETE on a record owned by another user answers exactly as DELETE on a missing id, and never 204. |
| `OfficeRoutes.OfficeCollection.List` | src/routes/officeRoutes.ts:11-21 | The `{ userId }` filter (`OwnedBy`): answers 200 with exactly the stored records whose userId is the caller, each with its `_id`, and no others; every record listed conforms to the schema. A store failure answers 500 `Server error`. The store is not modified. |
| `OfficeRoutes.OfficeCollection.Create` | src/routes/officeRoutes.ts:23-40 | A falsy field answers 400 `All fields are required` and inserts nothing. A store failure answers 500 and inserts nothing. Otherwise exactly one record is inserted under an `_id` not in use before; it is the validated document of the four submitted fields with userId = caller, and the answer is 201 with that record. No other user's record changes, and the store keeps conforming to the schema. |
| `OfficeRoutes.OfficeCollection.Update` | src/routes/officeRoutes.ts:42-69 | The answer is `UpdateAnswer` of the caller's own records. In order: 400 for a falsy field whether or not the id exists; 500 on store failure; 404 `Record not found or unauthorized` when no record matches id and caller; otherwise 200 with the record after the update (`new: true`). Only on 200 does the store change, and only at that id. No other user's record changes. |
| `OfficeRoutes.OfficeCollection.Delete` | src/routes/officeRoutes.ts:71-86 | No body check. The answer is `DeleteAnswer` of the caller's own records: 500 on store failure, 404 when no record matches id and caller, otherwise 204 with an empty body. Only on 204 is the record at that id removed, and nothing else changes. |
| `OfficeScenario.DeskLifecycle` | src/routes/officeRoutes.ts:11-86 | User A creates a desk (201) with the submitted fields and owner A, and A's list then holds exactly that record (200). User B's PUT on it answers 404. A's PUT raising quantity to 3 answers 200 with the record changed only in quantity. A's DELETE answers 204. A's list is then empty (200). |

## Left out

- Token verification (`authenticateToken`) and the `/auth` routes are not part of this model. The caller's user id is a trusted parameter, so the 401 answers are not modelled.
- `src/app.ts` (Express, CORS, body parsing, environment loading) is plumbing with no behaviour to state.
- Mongoose casting is not modelled. That covers turning the `:id` string into an ObjectId, coercing body values to the schema types, and parsing `dateAdded` into a Date. A failed cast answers 500 in the source; here it is covered by `storeFails`. `dateAdded` is kept as the submitted text.
- Quantities are integers. Fractional numbers and `NaN`, which is falsy in JavaScript, are not modelled.
- A store failure is a boolean parameter and leaves the store unchanged. A failure reported after the database has already applied a write is not modelled.
- The GET answer is a set of records. The backing store's order is not guaranteed, and the model does not state one.
- Asynchronous execution and concurrent requests are not modelled, so neither is last-write-wins between concurrent updates. Each handler runs as one atomic step.
- `console.error` logging and JSON serialisation have no functional content and are not modelled.
- An unset `userId` on the request is not modelled. The middleware always sets it before a handler runs.
- PUT runs no schema validators, which matches Mongoose's default for `findOneAndUpdate`. The schema invariant `OfficeCollection.Valid` holds because of the handler's own field check.
