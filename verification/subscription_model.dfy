/**
 * The subscription relation record (apps/api/src/db/models/subscription.ts):
 * one record per (tenant, subscriber) pair, a four-valued status, and the
 * audit timestamps.
 */
module SubscriptionModel {
  import opened Wrappers
  import opened Models

  /** `SUBSCRIPTION_STATUSES`: a record's status is always one of these by construction. */
  datatype Status = Pending | Active | Rejected | Canceled

  function StatusName(s: Status): string {
    match s
    case Pending => "PENDING"
    case Active => "ACTIVE"
    case Rejected => "REJECTED"
    case Canceled => "CANCELED"
  }

  datatype Relation = Relation(
    id: string, tenantId: string, subscriberUserId: string, status: Status,
    decidedAt: Option<Time>, canceledAt: Option<Time>, createdAt: Time, updatedAt: Time)

  /** What a `create` call may leave out: the required ids, and the status the schema defaults. */
  datatype NewFields = NewFields(tenantId: Option<string>, subscriberUserId: Option<string>, status: Option<Status>)

  /**
   * `SubscriptionModel.create(fields)` with the schema applied: a missing
   * required id is a validation error (None); the status defaults to
   * PENDING and both audit stamps to null; `timestamps` sets both dates.
   */
  function CreateRecord(id: string, f: NewFields, now: Time): (r: Option<Relation>)
    ensures r.Some? <==> f.tenantId.Some? && f.subscriberUserId.Some?
    ensures r.Some? ==> r.value.id == id && r.value.tenantId == f.tenantId.value
    ensures r.Some? ==> r.value.subscriberUserId == f.subscriberUserId.value
    ensures r.Some? ==> r.value.status == f.status.GetOr(Pending)
    ensures r.Some? ==> r.value.decidedAt.None? && r.value.canceledAt.None?
    ensures r.Some? ==> r.value.createdAt == now == r.value.updatedAt
  {
    if f.tenantId.None? || f.subscriberUserId.None? then None
    else Some(Relation(id, f.tenantId.value, f.subscriberUserId.value, f.status.GetOr(Pending), None, None, now, now))
  }

  predicate SamePair(a: Relation, b: Relation) {
    a.tenantId == b.tenantId && a.subscriberUserId == b.subscriberUserId
  }

  /** The unique index on (tenantId, subscriberUserId), and unique `_id`s. */
  ghost predicate StoreValid(rels: seq<Relation>) {
    forall i, j :: 0 <= i < j < |rels| ==> !SamePair(rels[i], rels[j]) && rels[i].id != rels[j].id
  }

  /** The records of one pair: at most one in a valid store. */
  function RecordsOfPair(rels: seq<Relation>, tenantId: string, subscriberUserId: string): (r: seq<Relation>)
    ensures forall x :: x in r ==> x in rels && x.tenantId == tenantId && x.subscriberUserId == subscriberUserId
  {
    if rels == [] then []
    else
      (if rels[0].tenantId == tenantId && rels[0].subscriberUserId == subscriberUserId then [rels[0]] else [])
      + RecordsOfPair(rels[1..], tenantId, subscriberUserId)
  }

  lemma {:induction false} AtMostOnePerPair(rels: seq<Relation>, tenantId: string, subscriberUserId: string)
    requires StoreValid(rels)
    ensures |RecordsOfPair(rels, tenantId, subscriberUserId)| <= 1
    decreases |rels|
  {
    if rels != [] {
      AtMostOnePerPair(rels[1..], tenantId, subscriberUserId);
      if rels[0].tenantId == tenantId && rels[0].subscriberUserId == subscriberUserId {
        NoneOfPair(rels[1..], rels[0]);
      }
    }
  }

  lemma {:induction false} NoneOfPair(rels: seq<Relation>, r: Relation)
    requires forall x :: x in rels ==> !SamePair(x, r)
    ensures RecordsOfPair(rels, r.tenantId, r.subscriberUserId) == []
    decreases |rels|
  {
    if rels != [] {
      assert rels[0] in rels;
      NoneOfPair(rels[1..], r);
    }
  }
}
