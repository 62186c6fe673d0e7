/**
 * The subscription routes (apps/api/src/routes/subscriptions.ts): the
 * request / cancel / decide transitions, which load one relation record,
 * change it in place and save it, and the three listings over the
 * relation collection.
 *
 * Every handler runs after `requireAuth`, so the caller's id is given.
 * `isObjectId` stands for `Types.ObjectId.isValid`, `now` for `new Date()`,
 * and `newId` for the `_id` the database assigns to a created record.
 */
module Subscriptions {
  import opened Wrappers
  import opened Text
  import opened Queries
  import opened Models
  import opened SubscriptionModel

  // ---------------------------------------------------------------------
  // safeStatus

  datatype StatusFilter = All | Only(status: Status)

  function FilterName(f: StatusFilter): string {
    match f
    case All => "ALL"
    case Only(s) => StatusName(s)
  }

  function StatusNamed(v: string): Option<Status> {
    if v == "PENDING" then Some(Pending)
    else if v == "ACTIVE" then Some(Active)
    else if v == "REJECTED" then Some(Rejected)
    else if v == "CANCELED" then Some(Canceled)
    else None
  }

  /** `safeStatus(x)`: the upper-cased value when it names a status or ALL, otherwise (and when missing) ALL. */
  function SafeStatus(x: Option<string>): (f: StatusFilter)
    ensures f.Only? <==> Truthy(x) && StatusNamed(ToUpper(x.value)).Some?
    ensures f.Only? ==> ToUpper(x.value) == StatusName(f.status)
  {
    var v := ToUpper(OrElse(x, "ALL"));
    match StatusNamed(v)
    case Some(s) => Only(s)
    case None => All
  }

  lemma StatusNamesAreUpperCase(f: StatusFilter)
    ensures ToUpper(FilterName(f)) == FilterName(f)
  {
    UpperOfNoLower(FilterName(f));
  }

  /** Feeding the result of `safeStatus` back to it gives the same filter. */
  lemma SafeStatusIdempotent(x: Option<string>)
    ensures SafeStatus(Some(FilterName(SafeStatus(x)))) == SafeStatus(x)
  {
    StatusNamesAreUpperCase(SafeStatus(x));
  }

  /** Any spelling whose upper-case form is a status name selects that status. */
  lemma SafeStatusIgnoresCase(x: string, s: Status)
    requires ToUpper(x) == StatusName(s)
    ensures SafeStatus(Some(x)) == Only(s)
  {
    assert x != "";
  }

  // ---------------------------------------------------------------------
  // Errors

  datatype Failure =
    | InvalidTenantId | TenantNotFound | CannotSubscribeOwnTenant
    | NotFound | Forbidden | InvalidAction | AlreadyCanceled
  {
    function Status(): nat {
      match this
      case InvalidTenantId => 400
      case InvalidAction => 400
      case Forbidden => 403
      case TenantNotFound => 404
      case NotFound => 404
      case CannotSubscribeOwnTenant => 409
      case AlreadyCanceled => 409
    }
  }

  // ---------------------------------------------------------------------
  // The lifecycle, status by status

  datatype Action = RequestAccess | Withdraw | Approve | Reject

  /**
   * The status a record has after an action by a caller who is entitled to
   * it (None: no record). A refused action leaves the status as it was.
   */
  function Step(s: Option<Status>, a: Action): (r: Option<Status>)
    ensures r.None? <==> s.None? && a != RequestAccess
    ensures s.Some? && a == Withdraw ==> r == Some(Canceled)
    ensures r == Some(Active) ==> s == Some(Active) || a == Approve
    ensures s == Some(Canceled) ==> (r == s <==> a != RequestAccess)
  {
    match a
    case RequestAccess => if s == Some(Pending) || s == Some(Active) then s else Some(Pending)
    case Withdraw => if s.None? then s else Some(Canceled)
    case Approve => if s.None? || s == Some(Canceled) then s else Some(Active)
    case Reject => if s.None? || s == Some(Canceled) then s else Some(Rejected)
  }

  /** The status after a sequence of actions; without a request no record comes into being. */
  function Run(s: Option<Status>, actions: seq<Action>): (r: Option<Status>)
    ensures s.None? && (forall k :: 0 <= k < |actions| ==> actions[k] != RequestAccess) ==> r.None?
    decreases |actions|
  {
    if actions == [] then s else Run(Step(s, actions[0]), actions[1..])
  }

  predicate OwnerDecision(a: Action) {
    a == Approve || a == Reject
  }

  /** Only a fresh request brings a canceled record back: owner decisions never do. */
  lemma {:induction false} DecisionsKeepCanceled(actions: seq<Action>)
    requires forall k :: 0 <= k < |actions| ==> OwnerDecision(actions[k])
    ensures Run(Some(Canceled), actions) == Some(Canceled)
    decreases |actions|
  {
    if actions != [] {
      DecisionsKeepCanceled(actions[1..]);
    }
  }

  /** A record only becomes ACTIVE through an approval. */
  lemma {:induction false} ActiveNeedsApproval(s: Option<Status>, actions: seq<Action>)
    requires s != Some(Active)
    requires Run(s, actions) == Some(Active)
    ensures Approve in actions
    decreases |actions|
  {
    if actions == [] {
    } else if actions[0] == Approve {
    } else {
      assert Step(s, actions[0]) != Some(Active);
      ActiveNeedsApproval(Step(s, actions[0]), actions[1..]);
    }
  }

  /** Records are never deleted: once a pair has a record it keeps one. */
  lemma {:induction false} RecordPersists(s: Status, actions: seq<Action>)
    ensures Run(Some(s), actions).Some?
    decreases |actions|
  {
    if actions != [] {
      RecordPersists(Step(Some(s), actions[0]).value, actions[1..]);
    }
  }

  /** Requesting twice is requesting once; after a request the record is PENDING or ACTIVE. */
  lemma RequestIdempotent(s: Option<Status>)
    ensures Step(Step(s, RequestAccess), RequestAccess) == Step(s, RequestAccess)
    ensures Step(s, RequestAccess) == Some(Pending) || Step(s, RequestAccess) == Some(Active)
  {
  }

  /** The looser-than-pending-only rules of the code: cancel from any status, decide from any but CANCELED. */
  lemma LooseTransitions(s: Status)
    ensures Step(Some(s), Withdraw) == Some(Canceled)
    ensures s != Canceled ==> Step(Some(s), Approve) == Some(Active) && Step(Some(s), Reject) == Some(Rejected)
  {
  }

  // ---------------------------------------------------------------------
  // Record updates made by the handlers before `save()`

  /** Re-request after REJECTED or CANCELED: back to PENDING with both audit stamps cleared. */
  function Rerequested(r: Relation, now: Time): Relation {
    r.(status := Pending, decidedAt := None, canceledAt := None, updatedAt := now)
  }

  function CanceledAt(r: Relation, now: Time): Relation {
    r.(status := Canceled, canceledAt := Some(now), updatedAt := now)
  }

  function DecidedAt(r: Relation, approve: bool, now: Time): Relation {
    r.(status := if approve then Active else Rejected, decidedAt := Some(now), updatedAt := now)
  }

  function IsPair(tenantId: string, subscriberUserId: string): Relation -> bool {
    (r: Relation) => r.tenantId == tenantId && r.subscriberUserId == subscriberUserId
  }

  function HasId(id: string): Relation -> bool {
    (r: Relation) => r.id == id
  }

  /** `findOne({ tenantId, subscriberUserId })`. */
  function PairIndex(rels: seq<Relation>, tenantId: string, subscriberUserId: string): Option<nat> {
    FindIndex(rels, IsPair(tenantId, subscriberUserId))
  }

  /** `findById(id)`. */
  function IdIndex(rels: seq<Relation>, id: string): Option<nat> {
    FindIndex(rels, HasId(id))
  }

  function StatusAt(rels: seq<Relation>, i: Option<nat>): Option<Status>
  {
    if i.Some? && i.value < |rels| then Some(rels[i.value].status) else None
  }

  // ---------------------------------------------------------------------
  // Guards, in the order the handlers check them

  /** POST /subscriptions/request: 400, then 404, then 409, before any relation is read. */
  function RequestRefusal(callerId: string, tenantIdParam: Option<string>, tenants: seq<Tenant>, isObjectId: string -> bool): (f: Option<Failure>)
    ensures f.None? ==> tenantIdParam.Some? && isObjectId(tenantIdParam.value)
    ensures f.None? ==> exists t :: t in tenants && t.id == tenantIdParam.value && t.status == TenantActive && t.ownerUserId != callerId
    ensures tenantIdParam.None? || !isObjectId(tenantIdParam.value) ==> f == Some(InvalidTenantId)
    ensures tenantIdParam.Some? && isObjectId(tenantIdParam.value) ==>
      var t := ActiveTenantById(tenants, tenantIdParam.value);
      (t.None? ==> f == Some(TenantNotFound))
      && (t.Some? ==> (f.None? <==> t.value.ownerUserId != callerId) && (f.Some? ==> f == Some(CannotSubscribeOwnTenant)))
  {
    if tenantIdParam.None? || !isObjectId(tenantIdParam.value) then Some(InvalidTenantId)
    else
      match ActiveTenantById(tenants, tenantIdParam.value)
      case None => Some(TenantNotFound)
      case Some(t) => if t.ownerUserId == callerId then Some(CannotSubscribeOwnTenant) else None
  }

  /** Whatever the role or tier, a caller who owns the (active) tenant is refused with 409. */
  lemma NoSelfSubscription(callerId: string, tenantId: string, tenants: seq<Tenant>, isObjectId: string -> bool)
    requires isObjectId(tenantId)
    requires ActiveTenantById(tenants, tenantId).Some?
    requires ActiveTenantById(tenants, tenantId).value.ownerUserId == callerId
    ensures RequestRefusal(callerId, Some(tenantId), tenants, isObjectId) == Some(CannotSubscribeOwnTenant)
  {
  }

  /** POST /subscriptions/:id/cancel: 404 record, 404 tenant, then 403 unless subscriber or owner. */
  function CancelRefusal(rels: seq<Relation>, callerId: string, id: string, tenants: seq<Tenant>): (f: Option<Failure>)
    ensures f.None? ==> IdIndex(rels, id).Some?
    ensures IdIndex(rels, id).None? ==> f == Some(NotFound)
    ensures IdIndex(rels, id).Some? ==>
      var r := rels[IdIndex(rels, id).value];
      var t := TenantById(tenants, r.tenantId);
      (t.None? ==> f == Some(TenantNotFound))
      && (t.Some? ==> (f.None? <==> r.subscriberUserId == callerId || t.value.ownerUserId == callerId)
                      && (f.Some? ==> f == Some(Forbidden)))
  {
    match IdIndex(rels, id)
    case None => Some(NotFound)
    case Some(i) =>
      match TenantById(tenants, rels[i].tenantId)
      case None => Some(TenantNotFound)
      case Some(t) =>
        if rels[i].subscriberUserId != callerId && t.ownerUserId != callerId then Some(Forbidden) else None
  }

  /** The `action` body field: Some(true) for APPROVE, Some(false) for REJECT. */
  function ParseAction(action: Option<string>): Option<bool> {
    if action == Some("APPROVE") then Some(true)
    else if action == Some("REJECT") then Some(false)
    else None
  }

  /** POST /subscriptions/:id/decide: 400 action, 404 record, 404 tenant, 403 not owner, 409 canceled. */
  function DecideRefusal(rels: seq<Relation>, callerId: string, id: string, action: Option<string>, tenants: seq<Tenant>): (f: Option<Failure>)
    ensures ParseAction(action).None? ==> f == Some(InvalidAction)
    ensures f.None? ==> ParseAction(action).Some? && IdIndex(rels, id).Some?
    ensures f.None? ==> rels[IdIndex(rels, id).value].status != Canceled
    ensures ParseAction(action).Some? && IdIndex(rels, id).None? ==> f == Some(NotFound)
    ensures ParseAction(action).Some? && IdIndex(rels, id).Some? ==>
      var r := rels[IdIndex(rels, id).value];
      var t := TenantById(tenants, r.tenantId);
      (t.None? ==> f == Some(TenantNotFound))
      && (t.Some? && t.value.ownerUserId != callerId ==> f == Some(Forbidden))
      && (t.Some? && t.value.ownerUserId == callerId ==>
            (f.None? <==> r.status != Canceled) && (f.Some? ==> f == Some(AlreadyCanceled)))
  {
    if ParseAction(action).None? then Some(InvalidAction)
    else
      match IdIndex(rels, id)
      case None => Some(NotFound)
      case Some(i) =>
        match TenantById(tenants, rels[i].tenantId)
        case None => Some(TenantNotFound)
        case Some(t) =>
          if t.ownerUserId != callerId then Some(Forbidden)
          else if rels[i].status == Canceled then Some(AlreadyCanceled)
          else None
  }

  /** A canceled record can never be approved or rejected: the owner gets 409 (or an earlier refusal). */
  lemma CanceledIsNotDecided(rels: seq<Relation>, callerId: string, id: string, action: Option<string>, tenants: seq<Tenant>)
    requires IdIndex(rels, id).Some? && rels[IdIndex(rels, id).value].status == Canceled
    ensures DecideRefusal(rels, callerId, id, action, tenants).Some?
    ensures ParseAction(action).Some? && TenantById(tenants, rels[IdIndex(rels, id).value].tenantId).Some?
      && TenantById(tenants, rels[IdIndex(rels, id).value].tenantId).value.ownerUserId == callerId
      ==> DecideRefusal(rels, callerId, id, action, tenants) == Some(AlreadyCanceled)
  {
  }

  // ---------------------------------------------------------------------
  // The relation collection

  class SubscriptionStore {
    var rels: seq<Relation>

    ghost predicate Valid()
      reads this
    {
      StoreValid(rels)
    }

    constructor ()
      ensures Valid() && rels == []
    {
      rels := [];
    }

    /** POST /subscriptions/request. */
    method Request(callerId: string, tenantIdParam: Option<string>, tenants: seq<Tenant>, newId: string, now: Time, isObjectId: string -> bool)
      returns (res: Result<Relation, Failure>)
      requires Valid()
      requires forall r :: r in rels ==> r.id != newId
      modifies this
      ensures Valid()
      ensures res.Failure? <==> RequestRefusal(callerId, tenantIdParam, tenants, isObjectId).Some?
      ensures res.Failure? ==> res.error == RequestRefusal(callerId, tenantIdParam, tenants, isObjectId).value && rels == old(rels)
      ensures res.Success? ==> tenantIdParam.Some? && res.value in rels
      ensures res.Success? ==> res.value.tenantId == tenantIdParam.value && res.value.subscriberUserId == callerId
      ensures res.Success? ==>
        var i := PairIndex(old(rels), tenantIdParam.value, callerId);
        Some(res.value.status) == Step(StatusAt(old(rels), i), RequestAccess)
        && (i.None? ==> rels == old(rels) + [res.value] && res.value.id == newId
                        && res.value.decidedAt.None? && res.value.canceledAt.None?)
        && (i.Some? ==> |rels| == |old(rels)| && rels == old(rels)[i.value := res.value]
                        && (old(rels)[i.value].status in {Pending, Active} ==> res.value == old(rels)[i.value])
                        && (old(rels)[i.value].status in {Rejected, Canceled} ==> res.value == Rerequested(old(rels)[i.value], now)))
    {
      var refusal := RequestRefusal(callerId, tenantIdParam, tenants, isObjectId);
      if refusal.Some? {
        return Failure(refusal.value);
      }
      var tenantId := tenantIdParam.value;
      var i := PairIndex(rels, tenantId, callerId);
      if i.None? {
        var created := CreateRecord(newId, NewFields(Some(tenantId), Some(callerId), Some(Pending)), now).value;
        forall k | 0 <= k < |rels| ensures !SamePair(rels[k], created) && rels[k].id != created.id {
          assert rels[k] in rels;
        }
        rels := rels + [created];
        return Success(created);
      }
      var existing := rels[i.value];
      if existing.status == Active || existing.status == Pending {
        return Success(existing);
      }
      var reset := Rerequested(existing, now);
      rels := rels[i.value := reset];
      assert rels[i.value] == reset;
      return Success(reset);
    }

    /** POST /subscriptions/:id/cancel. */
    method Cancel(callerId: string, id: string, tenants: seq<Tenant>, now: Time) returns (res: Result<Relation, Failure>)
      requires Valid()
      modifies this
      ensures Valid()
      ensures res.Failure? <==> CancelRefusal(old(rels), callerId, id, tenants).Some?
      ensures res.Failure? ==> res.error == CancelRefusal(old(rels), callerId, id, tenants).value && rels == old(rels)
      ensures res.Success? ==>
        var i := IdIndex(old(rels), id).value;
        rels == old(rels)[i := res.value] && res.value == CanceledAt(old(rels)[i], now)
        && Some(res.value.status) == Step(Some(old(rels)[i].status), Withdraw)
        && TenantById(tenants, old(rels)[i].tenantId).Some?
        && (old(rels)[i].subscriberUserId == callerId || TenantById(tenants, old(rels)[i].tenantId).value.ownerUserId == callerId)
    {
      var refusal := CancelRefusal(rels, callerId, id, tenants);
      if refusal.Some? {
        return Failure(refusal.value);
      }
      var i := IdIndex(rels, id).value;
      var sub := CanceledAt(rels[i], now);
      rels := rels[i := sub];
      return Success(sub);
    }

    /** POST /subscriptions/:id/decide. */
    method Decide(callerId: string, id: string, action: Option<string>, tenants: seq<Tenant>, now: Time) returns (res: Result<Relation, Failure>)
      requires Valid()
      modifies this
      ensures Valid()
      ensures res.Failure? <==> DecideRefusal(old(rels), callerId, id, action, tenants).Some?
      ensures res.Failure? ==> res.error == DecideRefusal(old(rels), callerId, id, action, tenants).value && rels == old(rels)
      ensures res.Success? ==>
        var i := IdIndex(old(rels), id).value;
        var approve := ParseAction(action).value;
        rels == old(rels)[i := res.value] && res.value == DecidedAt(old(rels)[i], approve, now)
        && Some(res.value.status) == Step(Some(old(rels)[i].status), if approve then Approve else Reject)
        && TenantById(tenants, old(rels)[i].tenantId).Some?
        && TenantById(tenants, old(rels)[i].tenantId).value.ownerUserId == callerId
    {
      var refusal := DecideRefusal(rels, callerId, id, action, tenants);
      if refusal.Some? {
        return Failure(refusal.value);
      }
      var i := IdIndex(rels, id).value;
      var sub := DecidedAt(rels[i], ParseAction(action).value, now);
      rels := rels[i := sub];
      return Success(sub);
    }
  }

  // ---------------------------------------------------------------------
  // Listings

  /** `.sort({ updatedAt: -1 })`. */
  function UpdatedLater(a: Relation, b: Relation): bool {
    a.updatedAt >= b.updatedAt
  }

  lemma UpdatedLaterIsTotalPreorder()
    ensures Total(UpdatedLater) && Transitive(UpdatedLater)
  {
  }

  function MatchesFilter(s: Status, f: StatusFilter): bool {
    f == All || f == Only(s)
  }

  function SubscribedBy(callerId: string, f: StatusFilter): Relation -> bool {
    (r: Relation) => r.subscriberUserId == callerId && MatchesFilter(r.status, f)
  }

  datatype MineRow = MineRow(
    subscriptionId: string, status: Status, tenantId: string, tenantName: string,
    owner: Option<User>, createdAt: Time, updatedAt: Time)

  /** One row of GET /subscriptions/mine: the relation, its tenant, and the owner's email and tier when the owner exists. */
  function RowFor(s: Relation, t: Tenant, users: seq<User>): MineRow {
    MineRow(s.id, s.status, t.id, t.name, UserById(users, t.ownerUserId), s.createdAt, s.updatedAt)
  }

  /** The `.map(...).filter(Boolean)` of GET /subscriptions/mine: rows whose tenant is missing are dropped. */
  function MineRows(subs: seq<Relation>, tenants: seq<Tenant>, users: seq<User>): (rows: seq<MineRow>)
    ensures |rows| <= |subs|
    ensures forall w :: w in rows ==>
      exists s :: s in subs && TenantById(tenants, s.tenantId).Some? && w == RowFor(s, TenantById(tenants, s.tenantId).value, users)
  {
    if subs == [] then []
    else
      var rest := MineRows(subs[1..], tenants, users);
      match TenantById(tenants, subs[0].tenantId)
      case None => rest
      case Some(t) => [RowFor(subs[0], t, users)] + rest
  }

  /** No relation whose tenant exists is lost from /mine. */
  lemma {:induction false} MineRowsComplete(subs: seq<Relation>, tenants: seq<Tenant>, users: seq<User>)
    ensures forall s :: s in subs && TenantById(tenants, s.tenantId).Some? ==>
      RowFor(s, TenantById(tenants, s.tenantId).value, users) in MineRows(subs, tenants, users)
    decreases |subs|
  {
    if subs != [] {
      MineRowsComplete(subs[1..], tenants, users);
      assert forall s :: s in subs ==> s == subs[0] || s in subs[1..];
    }
  }

  predicate NewestFirst(rows: seq<MineRow>) {
    forall i, j :: 0 <= i < j < |rows| ==> rows[i].updatedAt >= rows[j].updatedAt
  }

  /** A row is never newer than the newest relation it could come from. */
  lemma RowsNoNewerThan(subs: seq<Relation>, tenants: seq<Tenant>, users: seq<User>, bound: Time)
    requires forall s :: s in subs ==> bound >= s.updatedAt
    ensures forall w :: w in MineRows(subs, tenants, users) ==> bound >= w.updatedAt
  {
    forall w | w in MineRows(subs, tenants, users) ensures bound >= w.updatedAt {
      var s :| s in subs && TenantById(tenants, s.tenantId).Some? && w == RowFor(s, TenantById(tenants, s.tenantId).value, users);
    }
  }

  /** Rows keep the order of the relations they come from: newest update first when those are. */
  lemma {:induction false} MineRowsNewestFirst(subs: seq<Relation>, tenants: seq<Tenant>, users: seq<User>)
    requires SortedPairwise(subs, UpdatedLater)
    ensures NewestFirst(MineRows(subs, tenants, users))
    decreases |subs|
  {
    if subs != [] {
      var rest := MineRows(subs[1..], tenants, users);
      MineRowsNewestFirst(subs[1..], tenants, users);
      forall s | s in subs[1..] ensures subs[0].updatedAt >= s.updatedAt {
        var k :| 0 <= k < |subs[1..]| && subs[1..][k] == s;
        assert UpdatedLater(subs[0], subs[k + 1]);
      }
      RowsNoNewerThan(subs[1..], tenants, users, subs[0].updatedAt);
      if TenantById(tenants, subs[0].tenantId).Some? {
        ConsKeepsNewestFirst(RowFor(subs[0], TenantById(tenants, subs[0].tenantId).value, users), rest);
      }
    }
  }

  lemma ConsKeepsNewestFirst(row: MineRow, rest: seq<MineRow>)
    requires NewestFirst(rest)
    requires forall w :: w in rest ==> row.updatedAt >= w.updatedAt
    ensures NewestFirst([row] + rest)
  {
    var rows := [row] + rest;
    forall i, j | 0 <= i < j < |rows| ensures rows[i].updatedAt >= rows[j].updatedAt {
      assert rows[j] == rest[j - 1];
      if i == 0 {
        assert rows[j] in rest;
      } else {
        assert rows[i] == rest[i - 1];
      }
    }
  }

  /** GET /subscriptions/mine?status=... */
  function Mine(callerId: string, statusParam: Option<string>, rels: seq<Relation>, tenants: seq<Tenant>, users: seq<User>): seq<MineRow>
  {
    MineRows(SortBy(Filter(rels, SubscribedBy(callerId, SafeStatus(statusParam))), UpdatedLater), tenants, users)
  }

  function MineSubscriptions(callerId: string, statusParam: Option<string>, rels: seq<Relation>): seq<Relation> {
    SortBy(Filter(rels, SubscribedBy(callerId, SafeStatus(statusParam))), UpdatedLater)
  }

  /** Every /mine row is one of the caller's relations, in the requested status, joined with its existing tenant. */
  lemma MineOnlyCallers(callerId: string, statusParam: Option<string>, rels: seq<Relation>, tenants: seq<Tenant>, users: seq<User>)
    ensures forall w :: w in Mine(callerId, statusParam, rels, tenants, users) ==>
      exists s :: (s in rels && s.subscriberUserId == callerId && MatchesFilter(s.status, SafeStatus(statusParam))
                   && TenantById(tenants, s.tenantId).Some? && w == RowFor(s, TenantById(tenants, s.tenantId).value, users))
  {
    var matching := Filter(rels, SubscribedBy(callerId, SafeStatus(statusParam)));
    SortByKeepsMembers(matching, UpdatedLater);
  }

  /** Every relation of the caller in the requested status whose tenant exists has its row in /mine. */
  lemma MineComplete(callerId: string, statusParam: Option<string>, rels: seq<Relation>, tenants: seq<Tenant>, users: seq<User>)
    ensures forall s ::
      (s in rels && s.subscriberUserId == callerId && MatchesFilter(s.status, SafeStatus(statusParam))
       && TenantById(tenants, s.tenantId).Some?)
      ==> RowFor(s, TenantById(tenants, s.tenantId).value, users) in Mine(callerId, statusParam, rels, tenants, users)
  {
    var matching := Filter(rels, SubscribedBy(callerId, SafeStatus(statusParam)));
    var subs := SortBy(matching, UpdatedLater);
    SortByKeepsMembers(matching, UpdatedLater);
    MineRowsComplete(subs, tenants, users);
    forall s | s in rels && s.subscriberUserId == callerId && MatchesFilter(s.status, SafeStatus(statusParam)) ensures s in subs {
      var k :| 0 <= k < |rels| && rels[k] == s;
    }
  }

  /** /mine lists the most recently updated relation first. */
  lemma MineNewestFirst(callerId: string, statusParam: Option<string>, rels: seq<Relation>, tenants: seq<Tenant>, users: seq<User>)
    ensures NewestFirst(Mine(callerId, statusParam, rels, tenants, users))
  {
    var matching := Filter(rels, SubscribedBy(callerId, SafeStatus(statusParam)));
    var subs := SortBy(matching, UpdatedLater);
    UpdatedLaterIsTotalPreorder();
    SortBySorted(matching, UpdatedLater);
    SortedIsPairwise(subs, UpdatedLater);
    MineRowsNewestFirst(subs, tenants, users);
  }

  /** `status=ALL` (or a missing or unknown status) lists ACTIVE relations on GET /subscriptions/my-tenants. */
  function EffectiveStatus(f: StatusFilter): Status {
    if f.Only? then f.status else Active
  }

  function RelatedTenantIds(callerId: string, s: Status, rels: seq<Relation>): seq<string> {
    var subs := Filter(rels, SubscribedBy(callerId, Only(s)));
    seq(|subs|, k requires 0 <= k < |subs| => subs[k].tenantId)
  }

  /** GET /subscriptions/my-tenants?status=...: the active tenants the caller holds a relation with, in collection order. */
  function MyTenants(callerId: string, statusParam: Option<string>, rels: seq<Relation>, tenants: seq<Tenant>): (r: seq<Tenant>)
    ensures forall t :: t in r ==> t in tenants && t.status == TenantActive
    ensures forall t :: t in r ==> exists x :: x in rels && x.subscriberUserId == callerId && x.tenantId == t.id && x.status == EffectiveStatus(SafeStatus(statusParam))
    ensures forall t, x ::
      (t in tenants && t.status == TenantActive && x in rels && x.subscriberUserId == callerId && x.tenantId == t.id
       && x.status == EffectiveStatus(SafeStatus(statusParam))) ==> t in r
  {
    var s := EffectiveStatus(SafeStatus(statusParam));
    var ids := RelatedTenantIds(callerId, s, rels);
    var subs := Filter(rels, SubscribedBy(callerId, Only(s)));
    assert forall x :: x in rels && x.subscriberUserId == callerId && x.status == s ==> x.tenantId in ids by {
      forall x | x in rels && x.subscriberUserId == callerId && x.status == s ensures x.tenantId in ids {
        var k :| 0 <= k < |rels| && rels[k] == x;
        assert x in subs;
        var j :| 0 <= j < |subs| && subs[j] == x;
        assert ids[j] == x.tenantId;
      }
    }
    assert forall id :: id in ids ==> exists x :: x in rels && x.subscriberUserId == callerId && x.tenantId == id && x.status == s by {
      forall id | id in ids ensures exists x :: x in rels && x.subscriberUserId == callerId && x.tenantId == id && x.status == s {
        var j :| 0 <= j < |ids| && ids[j] == id;
        assert subs[j] in subs;
      }
    }
    Filter(tenants, (t: Tenant) => t.id in ids && t.status == TenantActive)
  }

  datatype OwnerRow = OwnerRow(
    id: string, status: Status, tenant: Option<Tenant>, subscriber: Option<User>,
    createdAt: Time, updatedAt: Time)

  function RequestedFrom(ids: seq<string>, f: StatusFilter): Relation -> bool {
    (r: Relation) => r.tenantId in ids && MatchesFilter(r.status, f)
  }

  function OwnerRows(subs: seq<Relation>, myTenants: seq<Tenant>, users: seq<User>): (rows: seq<OwnerRow>)
    ensures |rows| == |subs|
    ensures forall k :: 0 <= k < |subs| ==>
      (rows[k].id == subs[k].id && rows[k].status == subs[k].status
       && rows[k].tenant == TenantById(myTenants, subs[k].tenantId)
       && rows[k].subscriber == UserById(users, subs[k].subscriberUserId))
  {
    seq(|subs|, k requires 0 <= k < |subs| =>
      OwnerRow(subs[k].id, subs[k].status, TenantById(myTenants, subs[k].tenantId),
               UserById(users, subs[k].subscriberUserId), subs[k].createdAt, subs[k].updatedAt))
  }

  /** An id taken from a list of tenants finds its tenant in that list. */
  lemma IdResolves(ts: seq<Tenant>, id: string)
    requires id in TenantIds(ts)
    ensures TenantById(ts, id).Some?
  {
    var j :| 0 <= j < |ts| && TenantIds(ts)[j] == id;
    assert ts[j] in ts;
  }

  /** The relations behind GET /subscriptions/owner/requests, once the caller owns a tenant. */
  function OwnerSubscriptions(statusParam: Option<string>, rels: seq<Relation>, myTenants: seq<Tenant>): seq<Relation> {
    SortBy(Filter(rels, RequestedFrom(TenantIds(myTenants), SafeStatus(statusParam))), UpdatedLater)
  }

  /** GET /subscriptions/owner/requests?status=...: relations on the caller's tenants, newest update first. */
  function OwnerRequests(callerId: string, statusParam: Option<string>, rels: seq<Relation>, tenants: seq<Tenant>, users: seq<User>): (rows: seq<OwnerRow>)
    ensures (forall t :: t in tenants ==> t.ownerUserId != callerId) ==> rows == []
  {
    var myTenants := Filter(tenants, OwnedBy(callerId));
    if |myTenants| == 0 then []
    else OwnerRows(OwnerSubscriptions(statusParam, rels, myTenants), myTenants, users)
  }

  lemma {:induction false} RowsResolveTenants(subs: seq<Relation>, myTenants: seq<Tenant>, users: seq<User>, f: StatusFilter)
    requires forall s :: s in subs ==> s.tenantId in TenantIds(myTenants) && MatchesFilter(s.status, f)
    ensures forall w :: w in OwnerRows(subs, myTenants, users) ==>
      w.tenant.Some? && w.tenant.value in myTenants && MatchesFilter(w.status, f)
  {
    var rows := OwnerRows(subs, myTenants, users);
    forall w | w in rows ensures w.tenant.Some? && w.tenant.value in myTenants && MatchesFilter(w.status, f) {
      var k :| 0 <= k < |rows| && rows[k] == w;
      assert subs[k] in subs;
      IdResolves(myTenants, subs[k].tenantId);
    }
  }

  /** Every row is a relation on a tenant the caller owns, in the requested status, with that tenant attached. */
  lemma OwnerRequestsOnOwnTenants(callerId: string, statusParam: Option<string>, rels: seq<Relation>, tenants: seq<Tenant>, users: seq<User>)
    ensures forall w :: w in OwnerRequests(callerId, statusParam, rels, tenants, users) ==>
      w.tenant.Some? && w.tenant.value in tenants && w.tenant.value.ownerUserId == callerId
      && MatchesFilter(w.status, SafeStatus(statusParam))
  {
    var myTenants := Filter(tenants, OwnedBy(callerId));
    if |myTenants| != 0 {
      var matching := Filter(rels, RequestedFrom(TenantIds(myTenants), SafeStatus(statusParam)));
      SortByKeepsMembers(matching, UpdatedLater);
      RowsResolveTenants(OwnerSubscriptions(statusParam, rels, myTenants), myTenants, users, SafeStatus(statusParam));
    }
  }

  /** No relation on a tenant the caller owns, in the requested status, is missing from the rows. */
  lemma OwnerRequestsComplete(callerId: string, statusParam: Option<string>, rels: seq<Relation>, tenants: seq<Tenant>, users: seq<User>, t: Tenant, r: Relation)
    requires t in tenants && t.ownerUserId == callerId
    requires r in rels && r.tenantId == t.id && MatchesFilter(r.status, SafeStatus(statusParam))
    ensures exists k ::
      (0 <= k < |OwnerRequests(callerId, statusParam, rels, tenants, users)|
       && OwnerRequests(callerId, statusParam, rels, tenants, users)[k].id == r.id)
  {
    var myTenants := Filter(tenants, OwnedBy(callerId));
    var i :| 0 <= i < |tenants| && tenants[i] == t;
    assert t in myTenants;
    var j :| 0 <= j < |myTenants| && myTenants[j] == t;
    assert TenantIds(myTenants)[j] == t.id;
    var matching := Filter(rels, RequestedFrom(TenantIds(myTenants), SafeStatus(statusParam)));
    var n :| 0 <= n < |rels| && rels[n] == r;
    assert r in matching;
    SortByKeepsMembers(matching, UpdatedLater);
    var subs := OwnerSubscriptions(statusParam, rels, myTenants);
    var k :| 0 <= k < |subs| && subs[k] == r;
    assert OwnerRequests(callerId, statusParam, rels, tenants, users)[k].id == r.id;
  }

  /** The rows come newest update first. */
  lemma OwnerRequestsNewestFirst(callerId: string, statusParam: Option<string>, rels: seq<Relation>, tenants: seq<Tenant>, users: seq<User>)
    ensures var rows := OwnerRequests(callerId, statusParam, rels, tenants, users);
      forall i, j :: 0 <= i < j < |rows| ==> rows[i].updatedAt >= rows[j].updatedAt
  {
    var myTenants := Filter(tenants, OwnedBy(callerId));
    if |myTenants| != 0 {
      var matching := Filter(rels, RequestedFrom(TenantIds(myTenants), SafeStatus(statusParam)));
      UpdatedLaterIsTotalPreorder();
      SortBySorted(matching, UpdatedLater);
      SortedIsPairwise(SortBy(matching, UpdatedLater), UpdatedLater);
    }
  }
}
