/** The notifications collection: the stored documents, the lookups the handlers make,
    and the invariant every handler and the crawler keep. */
module NotificationStore {
  import opened Common
  import opened Models
  import Query

  /** `Notification.findById(id)`. */
  function FindById(items: seq<Notification>, id: Id): (r: Option<Notification>)
    ensures r.Some? ==> r.value in items && r.value.id == id
    ensures r.None? ==> forall n :: n in items ==> n.id != id
  {
    Query.FindOne(items, (n: Notification) => n.id == id)
  }

  /** `Notification.findOne({ org, externalId })` finds something. */
  predicate HasKey(items: seq<Notification>, org: Id, externalId: string) {
    exists i :: 0 <= i < |items| && items[i].org == org && items[i].externalId == Some(externalId)
  }

  /** `save()` of a loaded document: the stored record with its id takes its new value. */
  function Save(items: seq<Notification>, n: Notification): (r: seq<Notification>)
    ensures |r| == |items|
    ensures forall i :: 0 <= i < |items| ==> r[i] == if items[i].id == n.id then n else items[i]
  {
    Query.ReplaceWhere(items, (m: Notification) => m.id == n.id, n)
  }

  /** `deleteOne()`: the records with that id are gone, the others stay in order. */
  function Remove(items: seq<Notification>, id: Id): (r: seq<Notification>)
    ensures forall n :: n in r <==> n in items && n.id != id
  {
    Query.Filter(items, (n: Notification) => n.id != id)
  }

  /** A record is approved exactly when it names its approver and its approval time. */
  predicate ApprovalConsistent(n: Notification) {
    (n.status == Approved <==> n.approvedBy.Some?) && (n.status == Approved <==> n.approvedAt.Some?)
  }

  /** No two different records share an id. */
  ghost predicate IdsDistinct(items: seq<Notification>) {
    forall a, b :: a in items && b in items && a.id == b.id ==> a == b
  }

  /** No two records of one organisation carry the same external id. The schema does not
      enforce it (the index on `externalId` is not unique); the crawler's check before
      inserting does. */
  ghost predicate ExternalKeysUnique(items: seq<Notification>) {
    forall a, b :: a in items && b in items && a.org == b.org && a.externalId.Some? && a.externalId == b.externalId
      ==> a == b
  }

  /** The collection's invariant: ids below the next fresh id and distinct, required
      fields present, approval fields consistent with the status, `deletedBy` never set,
      and external ids unique per organisation. */
  ghost predicate Consistent(items: seq<Notification>, nextId: Id) {
    (forall n :: n in items ==> n.id < nextId && n.SchemaValid() && ApprovalConsistent(n) && n.deletedBy.None?)
    && IdsDistinct(items) && ExternalKeysUnique(items)
  }

  /** A record that may be inserted: fresh id, valid, pending and carrying an external id
      only when the organisation does not have it yet. */
  ghost predicate Insertable(items: seq<Notification>, nextId: Id, n: Notification) {
    n.id == nextId && n.SchemaValid() && ApprovalConsistent(n) && n.deletedBy.None? &&
    (n.externalId.Some? ==> !HasKey(items, n.org, n.externalId.value))
  }

  lemma InsertPreserves(items: seq<Notification>, nextId: Id, n: Notification)
    requires Consistent(items, nextId) && Insertable(items, nextId, n)
    ensures Consistent(items + [n], nextId + 1)
  {
  }

  /** Saving a record under an existing id, with its organisation and external id
      unchanged, keeps the invariant. */
  lemma SavePreserves(items: seq<Notification>, nextId: Id, old_: Notification, n: Notification)
    requires Consistent(items, nextId) && old_ in items
    requires n.id == old_.id && n.org == old_.org && n.externalId == old_.externalId
    requires n.SchemaValid() && ApprovalConsistent(n) && n.deletedBy.None?
    ensures Consistent(Save(items, n), nextId)
  {
  }

  lemma RemovePreserves(items: seq<Notification>, nextId: Id, id: Id)
    requires Consistent(items, nextId)
    ensures Consistent(Remove(items, id), nextId)
  {
  }

  /** The collection, updated in place by the handlers and the crawler. */
  class Store {
    var items: seq<Notification>
    var nextId: Id

    ghost predicate Valid()
      reads this
    {
      Consistent(items, nextId)
    }

    constructor ()
      ensures Valid() && items == [] && nextId == 0
    {
      items := [];
      nextId := 0;
    }
  }
}
