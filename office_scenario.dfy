/**
 * A client of the router: one desk through its whole life, with a second
 * user trying to change it on the way.
 */
module OfficeScenario {

  import opened Wrappers
  import opened OfficeInventory
  import opened OfficeRoutes

  /**
   * User `a` creates a desk (201) and then finds it, alone, in `a`'s list;
   * user `b` cannot update it (404); `a`
   * raises its quantity to 3 (200); `a` deletes it (204); `a`'s list is then
   * empty again (200).
   */
  method DeskLifecycle(a: ObjectId, b: ObjectId) returns (codes: seq<int>, created: Doc, listedAfterCreate: set<Doc>, updated: Record, listedAfter: set<Doc>)
    requires a != b
    ensures codes == [201, 200, 404, 200, 204, 200]
    ensures created.record == Record("Desk", "Standing desk", 2, "2024-01-01", a)
    ensures listedAfterCreate == {created}
    ensures updated == created.record.(quantity := 3)
    ensures listedAfter == {}
  {
    var store := new OfficeCollection();
    var desk := Submission(Some("Desk"), Some("Standing desk"), Some(2), Some("2024-01-01"));
    var more := desk.(quantity := Some(3));

    var posted := store.Create(a, desk, false);
    created := posted.body.doc;
    var id := created.id;
    assert store.records == map[id := Record("Desk", "Standing desk", 2, "2024-01-01", a)];

    var firstListing := store.List(a, false);
    listedAfterCreate := firstListing.body.docs;
    assert created in listedAfterCreate;

    var intruder := store.Update(b, id, more, false);
    assert intruder == NotFoundOrUnauthorized;

    var owner := store.Update(a, id, more, false);
    updated := owner.body.doc.record;

    var deleted := store.Delete(a, id, false);
    assert store.records == map[];

    var listing := store.List(a, false);
    listedAfter := listing.body.docs;
    codes := [posted.status.Code(), firstListing.status.Code(), intruder.status.Code(), owner.status.Code(),
              deleted.status.Code(), listing.status.Code()];
  }
}
