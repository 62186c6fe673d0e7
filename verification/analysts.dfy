/**
 * The subscribable-channel directory (apps/api/src/routes/analysts.ts):
 * active tenants, minus those the caller already holds an open (PENDING or
 * ACTIVE) relation with and those the caller owns, optionally narrowed by
 * name, newest update first, at most 50, each with its owner's public data.
 */
module Analysts {
  import opened Wrappers
  import opened Text
  import opened Queries
  import opened Models
  import opened SubscriptionModel

  const DIRECTORY_LIMIT: nat := 50

  datatype Entry = Entry(
    tenantId: string, tenantName: string, ownerUserId: string,
    ownerEmail: Option<string>, ownerPlanTier: Option<string>)

  /** `String(req.query.query || "").trim()`. */
  function NameQuery(query: Option<string>): string {
    Trim(OrElse(query, ""))
  }

  predicate IsOpen(s: Status) {
    s == Pending || s == Active
  }

  function OpenBy(callerId: string): Relation -> bool {
    (r: Relation) => r.subscriberUserId == callerId && IsOpen(r.status)
  }

  /** `finalExcluded`: the tenants of the caller's open relations, then the caller's own tenants. */
  function ExcludedIds(callerId: string, rels: seq<Relation>, tenants: seq<Tenant>): (ids: seq<string>)
    ensures forall r :: r in rels && r.subscriberUserId == callerId && IsOpen(r.status) ==> r.tenantId in ids
    ensures forall t :: t in tenants && t.ownerUserId == callerId ==> t.id in ids
  {
    var open := Filter(rels, OpenBy(callerId));
    var openIds := seq(|open|, k requires 0 <= k < |open| => open[k].tenantId);
    assert forall r :: r in rels && r.subscriberUserId == callerId && IsOpen(r.status) ==> r.tenantId in openIds by {
      forall r | r in rels && r.subscriberUserId == callerId && IsOpen(r.status) ensures r.tenantId in openIds {
        var i :| 0 <= i < |rels| && rels[i] == r;
        assert r in open;
        var j :| 0 <= j < |open| && open[j] == r;
        assert openIds[j] == r.tenantId;
      }
    }
    var owned := Filter(tenants, OwnedBy(callerId));
    assert forall t :: t in tenants && t.ownerUserId == callerId ==> t in owned by {
      forall t | t in tenants && t.ownerUserId == callerId ensures t in owned {
        var i :| 0 <= i < |tenants| && tenants[i] == t;
      }
    }
    openIds + TenantIds(owned)
  }

  /** The Mongo filter: active, name match when the query is not blank, `_id` not excluded. */
  function Eligible(q: string, excluded: seq<string>): Tenant -> bool {
    (t: Tenant) => t.status == TenantActive && (q == "" || ContainsIgnoringCase(t.name, q)) && t.id !in excluded
  }

  /** `.sort({ updatedAt: -1 })` on tenants. */
  function TenantUpdatedLater(a: Tenant, b: Tenant): bool {
    a.updatedAt >= b.updatedAt
  }

  lemma TenantUpdatedLaterIsTotalPreorder()
    ensures Total(TenantUpdatedLater) && Transitive(TenantUpdatedLater)
  {
  }

  function Candidates(callerId: string, query: Option<string>, rels: seq<Relation>, tenants: seq<Tenant>): seq<Tenant> {
    Filter(tenants, Eligible(NameQuery(query), ExcludedIds(callerId, rels, tenants)))
  }

  /** The tenants the query returns, before the owner annotation. */
  function Listed(callerId: string, query: Option<string>, rels: seq<Relation>, tenants: seq<Tenant>): (l: seq<Tenant>)
    ensures |l| <= DIRECTORY_LIMIT
  {
    TopK(Candidates(callerId, query, rels, tenants), TenantUpdatedLater, DIRECTORY_LIMIT)
  }

  /** One result: `owner?.email || null` and `owner?.planTier || null`. */
  function EntryFor(t: Tenant, users: seq<User>): (e: Entry)
    ensures e.tenantId == t.id && e.tenantName == t.name && e.ownerUserId == t.ownerUserId
    ensures UserById(users, t.ownerUserId).None? ==> e.ownerEmail.None? && e.ownerPlanTier.None?
    ensures UserById(users, t.ownerUserId).Some? ==>
      e.ownerEmail == OrNull(UserById(users, t.ownerUserId).value.email)
      && e.ownerPlanTier == OrNull(UserById(users, t.ownerUserId).value.planTier)
  {
    match UserById(users, t.ownerUserId)
    case None => Entry(t.id, t.name, t.ownerUserId, None, None)
    case Some(u) => Entry(t.id, t.name, t.ownerUserId, OrNull(u.email), OrNull(u.planTier))
  }

  /** GET /analysts?query=... */
  function Directory(callerId: string, query: Option<string>, rels: seq<Relation>, tenants: seq<Tenant>, users: seq<User>): (r: seq<Entry>)
    ensures |r| == |Listed(callerId, query, rels, tenants)| <= DIRECTORY_LIMIT
    ensures forall k :: 0 <= k < |r| ==> r[k] == EntryFor(Listed(callerId, query, rels, tenants)[k], users)
  {
    MapSeq(Listed(callerId, query, rels, tenants), (t: Tenant) => EntryFor(t, users))
  }

  /** Every listed tenant is active, matches a non-blank query, is not the caller's and has no open relation with the caller. */
  lemma ListedAreEligible(callerId: string, query: Option<string>, rels: seq<Relation>, tenants: seq<Tenant>, t: Tenant)
    requires t in Listed(callerId, query, rels, tenants)
    ensures t in tenants && t.status == TenantActive
    ensures t.ownerUserId != callerId
    ensures forall r :: r in rels && r.subscriberUserId == callerId && r.tenantId == t.id ==> !IsOpen(r.status)
    ensures NameQuery(query) != "" ==> ContainsIgnoringCase(t.name, NameQuery(query))
  {
    var excluded := ExcludedIds(callerId, rels, tenants);
    var cands := Candidates(callerId, query, rels, tenants);
    TopKMembers(cands, TenantUpdatedLater, DIRECTORY_LIMIT);
    assert t in cands;
    assert Eligible(NameQuery(query), excluded)(t);
    assert t.id !in excluded;
  }

  /** A REJECTED or CANCELED relation does not hide a tenant: it stays a candidate. */
  lemma ClosedRelationsDoNotExclude(callerId: string, query: Option<string>, rels: seq<Relation>, tenants: seq<Tenant>, t: Tenant)
    requires t in tenants && t.status == TenantActive
    requires NameQuery(query) == "" || ContainsIgnoringCase(t.name, NameQuery(query))
    requires forall o :: o in tenants && o.ownerUserId == callerId ==> o.id != t.id
    requires forall r :: r in rels && r.subscriberUserId == callerId && r.tenantId == t.id ==> r.status == Rejected || r.status == Canceled
    ensures t in Candidates(callerId, query, rels, tenants)
  {
    var excluded := ExcludedIds(callerId, rels, tenants);
    NotExcluded(callerId, rels, tenants, t.id);
    assert Eligible(NameQuery(query), excluded)(t);
    var i :| 0 <= i < |tenants| && tenants[i] == t;
  }

  /** An id that is neither the tenant of an open relation of the caller nor one of the caller's tenants is not excluded. */
  lemma NotExcluded(callerId: string, rels: seq<Relation>, tenants: seq<Tenant>, id: string)
    requires forall o :: o in tenants && o.ownerUserId == callerId ==> o.id != id
    requires forall r :: r in rels && r.subscriberUserId == callerId && r.tenantId == id ==> !IsOpen(r.status)
    ensures id !in ExcludedIds(callerId, rels, tenants)
  {
    var excluded := ExcludedIds(callerId, rels, tenants);
    var open := Filter(rels, OpenBy(callerId));
    var owned := Filter(tenants, OwnedBy(callerId));
    assert excluded == seq(|open|, k requires 0 <= k < |open| => open[k].tenantId) + TenantIds(owned);
    forall k | 0 <= k < |excluded| ensures excluded[k] != id {
      if k < |open| {
        assert open[k] in open;
      } else {
        assert owned[k - |open|] in owned;
      }
    }
  }

  /** With fewer than 50 candidates none is cut by the limit. */
  lemma SmallDirectoryIsComplete(callerId: string, query: Option<string>, rels: seq<Relation>, tenants: seq<Tenant>, t: Tenant)
    requires |Candidates(callerId, query, rels, tenants)| <= DIRECTORY_LIMIT
    requires t in Candidates(callerId, query, rels, tenants)
    ensures t in Listed(callerId, query, rels, tenants)
  {
    var cands := Candidates(callerId, query, rels, tenants);
    TopKUnderLimit(cands, TenantUpdatedLater, DIRECTORY_LIMIT);
    assert t in multiset(cands);
  }

  /** The result is the 50 most recently updated candidates, newest first. */
  lemma DirectoryIsNewestFifty(callerId: string, query: Option<string>, rels: seq<Relation>, tenants: seq<Tenant>)
    ensures IsTopK(Listed(callerId, query, rels, tenants), Candidates(callerId, query, rels, tenants), TenantUpdatedLater, DIRECTORY_LIMIT)
  {
    TenantUpdatedLaterIsTotalPreorder();
    TopKCorrect(Candidates(callerId, query, rels, tenants), TenantUpdatedLater, DIRECTORY_LIMIT);
  }

  /** A missing or blank query applies no name filter. */
  lemma BlankQueryMatchesAll(callerId: string, query: Option<string>, rels: seq<Relation>, tenants: seq<Tenant>, users: seq<User>)
    requires NameQuery(query) == ""
    ensures Directory(callerId, query, rels, tenants, users) == Directory(callerId, None, rels, tenants, users)
  {
    assert NameQuery(None) == "";
  }
}
