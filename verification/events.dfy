/**
 * Map events (apps/api/src/routes/events.ts): the `UpsertSchema` body
 * rules, the gated public read GET /events, and the analyst's own event
 * store under /events/me (list, create, update, soft delete).
 *
 * `isObjectId` stands for `mongoose.Types.ObjectId.isValid`; an id that
 * passes is used as its own string form. `now` is the clock, `newId` the
 * `_id` the database assigns.
 */
module Events {
  import opened Wrappers
  import opened Text
  import opened Queries
  import opened Tiers
  import opened Models
  import opened SubscriptionModel
  import opened OptionalAuth
  import opened AnalystGuard

  // ---------------------------------------------------------------------
  // UpsertSchema

  /** A geometry as received: its `type` and its `coordinates`, of which only the array shape matters. */
  datatype RawGeometry = RawGeometry(geoType: string, coordinates: Coordinates)

  /** A request body; None is a missing field. */
  datatype UpsertBody = UpsertBody(
    layerKey: Option<string>, kind: Option<string>, iso3: Option<string>, title: Option<string>,
    summary: Option<string>, visibility: Option<string>, tags: Option<seq<string>>,
    geometry: Option<RawGeometry>)

  /** `parsed.data`: a body that passed the schema; `iso3` is already trimmed. */
  datatype Upsert = Upsert(
    layerKey: string, kind: Kind, iso3: Option<string>, title: string, summary: Option<string>,
    visibility: Option<Visibility>, tags: Option<seq<string>>, geometry: Geometry)

  function ParseKind(s: string): Option<Kind> {
    if s == "POINT" then Some(PointKind) else if s == "LINE" then Some(LineKind) else None
  }

  function ParseVisibility(s: string): Option<Visibility> {
    if s == "FREE" then Some(Free) else if s == "PAID" then Some(Paid) else None
  }

  /** The geometry refinement: a position pair for a Point, two or more positions for a LineString. */
  predicate ValidGeometry(g: Geometry) {
    match g.geoType
    case Point => g.coordinates == ArrayOf(2)
    case LineString => g.coordinates.ArrayOf? && g.coordinates.length >= 2
  }

  function ParseGeometry(g: RawGeometry): (r: Option<Geometry>)
    ensures r.Some? ==> ValidGeometry(r.value) && r.value.coordinates == g.coordinates
    ensures r.Some? ==> (r.value.geoType == Point <==> g.geoType == "Point")
    ensures r.None? <==> !(g.geoType == "Point" && g.coordinates == ArrayOf(2))
                         && !(g.geoType == "LineString" && g.coordinates.ArrayOf? && g.coordinates.length >= 2)
  {
    var geoType := if g.geoType == "Point" then Some(Point) else if g.geoType == "LineString" then Some(LineString) else None;
    if geoType.Some? && ValidGeometry(Geometry(geoType.value, g.coordinates)) then Some(Geometry(geoType.value, g.coordinates))
    else None
  }

  /** `UpsertSchema.safeParse(body)`; None is a validation failure. */
  function Parse(b: UpsertBody): (r: Option<Upsert>)
    ensures r.Some? <==>
      && b.layerKey.Some? && |b.layerKey.value| >= 1
      && b.kind.Some? && ParseKind(b.kind.value).Some?
      && b.title.Some? && |b.title.value| >= 1
      && (b.visibility.None? || ParseVisibility(b.visibility.value).Some?)
      && b.geometry.Some? && ParseGeometry(b.geometry.value).Some?
    ensures r.Some? ==> r.value.layerKey == b.layerKey.value && r.value.title == b.title.value
    ensures r.Some? ==> r.value.iso3 == (if b.iso3.Some? then Some(Trim(b.iso3.value)) else None)
    ensures r.Some? ==> r.value.summary == b.summary && r.value.tags == b.tags
    ensures r.Some? ==> ValidGeometry(r.value.geometry)
    ensures r.Some? ==> r.value.kind == ParseKind(b.kind.value).value
    ensures r.Some? ==> r.value.visibility == (if b.visibility.Some? then ParseVisibility(b.visibility.value) else None)
    ensures r.Some? ==> r.value.geometry == ParseGeometry(b.geometry.value).value
  {
    if b.layerKey.None? || |b.layerKey.value| < 1 then None
    else if b.kind.None? || ParseKind(b.kind.value).None? then None
    else if b.title.None? || |b.title.value| < 1 then None
    else if b.visibility.Some? && ParseVisibility(b.visibility.value).None? then None
    else if b.geometry.None? || ParseGeometry(b.geometry.value).None? then None
    else
      Some(Upsert(
        b.layerKey.value, ParseKind(b.kind.value).value,
        if b.iso3.Some? then Some(Trim(b.iso3.value)) else None,
        b.title.value, b.summary,
        if b.visibility.Some? then ParseVisibility(b.visibility.value) else None,
        b.tags, ParseGeometry(b.geometry.value).value))
  }

  /** A Point with three numbers or a one-position LineString is refused. */
  lemma GeometryBoundaries(b: UpsertBody, n: nat)
    requires b.geometry.Some?
    requires b.geometry.value == RawGeometry("Point", ArrayOf(n)) || b.geometry.value == RawGeometry("LineString", ArrayOf(n))
    ensures b.geometry.value.geoType == "Point" && n != 2 ==> Parse(b).None?
    ensures b.geometry.value.geoType == "LineString" && n < 2 ==> Parse(b).None?
    ensures b.geometry.value.geoType == "Point" ==> ParseGeometry(b.geometry.value).Some? == (n == 2)
  {
  }

  /** `toObjectId`: a falsy value or an invalid id gives null. */
  function ToObjectId(id: Option<string>, isObjectId: string -> bool): (r: Option<string>)
    ensures r.Some? <==> Truthy(id) && isObjectId(id.value)
    ensures r.Some? ==> r == id
  {
    if !Truthy(id) then None else if isObjectId(id.value) then Some(id.value) else None
  }

  /** `.sort({ createdAt: -1 })`. */
  function CreatedLater(a: MapEvent, b: MapEvent): bool {
    a.createdAt >= b.createdAt
  }

  lemma CreatedLaterIsTotalPreorder()
    ensures Total(CreatedLater) && Transitive(CreatedLater)
  {
  }

  // ---------------------------------------------------------------------
  // GET /events?layer=...&iso3=...&tenantId=...

  datatype ReadRequest = ReadRequest(layer: Option<string>, iso3: Option<string>, tenantId: Option<string>)

  datatype ReadFailure =
    | LayerRequired | InvalidTenantId | LayerNotFound
    | PlanRequired(requiredTier: string, userTier: string)
    | AuthRequired | InvalidUserId | SubscriptionRequired
  {
    function Status(): nat {
      match this
      case LayerRequired => 400
      case InvalidTenantId => 400
      case LayerNotFound => 404
      case PlanRequired(_, _) => 403
      case AuthRequired => 401
      case InvalidUserId => 401
      case SubscriptionRequired => 403
    }
  }

  function LayerKeyOf(q: ReadRequest): string {
    Trim(OrElse(q.layer, ""))
  }

  function Iso3Of(q: ReadRequest): string {
    ToUpper(Trim(OrElse(q.iso3, "")))
  }

  function TenantRawOf(q: ReadRequest): string {
    Trim(OrElse(q.tenantId, ""))
  }

  /** `tenantObjectId`. */
  function TenantScope(q: ReadRequest, isObjectId: string -> bool): Option<string> {
    if TenantRawOf(q) != "" then ToObjectId(Some(TenantRawOf(q)), isObjectId) else None
  }

  function ActiveSubscriptionOf(me: string, tenantId: string): Relation -> bool {
    (r: Relation) => r.subscriberUserId == me && r.tenantId == tenantId && r.status == Active
  }

  /** The tenant-scoped check: 401 without a user id, 401 for an invalid one, then the owner bypass or an ACTIVE relation. */
  function ScopeRefusal(user: Option<Principal>, tenantId: string, rels: seq<Relation>, isObjectId: string -> bool): (f: Option<ReadFailure>)
    ensures f.None? ==> user.Some? && ToObjectId(user.value.id, isObjectId).Some?
    ensures f.None? ==>
      ToObjectId(user.value.tenantId, isObjectId) == Some(tenantId)
      || exists r :: r in rels && r.subscriberUserId == user.value.id.value && r.tenantId == tenantId && r.status == Active
    ensures user.None? ==> f == Some(AuthRequired)
    ensures user.None? || !Truthy(user.value.id) ==> f == Some(AuthRequired)
    ensures user.Some? && Truthy(user.value.id) && !isObjectId(user.value.id.value) ==> f == Some(InvalidUserId)
    ensures user.Some? && ToObjectId(user.value.id, isObjectId).Some? ==>
      && (ToObjectId(user.value.tenantId, isObjectId) == Some(tenantId) ==> f.None?)
      && ((exists r :: r in rels && r.subscriberUserId == user.value.id.value && r.tenantId == tenantId && r.status == Active) ==> f.None?)
      && (f.Some? ==> f == Some(SubscriptionRequired))
  {
    if user.None? || !Truthy(user.value.id) then Some(AuthRequired)
    else
      match ToObjectId(user.value.id, isObjectId)
      case None => Some(InvalidUserId)
      case Some(me) =>
        if ToObjectId(user.value.tenantId, isObjectId) == Some(tenantId) then None
        else if FindFirst(rels, ActiveSubscriptionOf(me, tenantId)).None? then Some(SubscriptionRequired)
        else None
  }

  /** The checks of GET /events, in the order the handler makes them. */
  function ReadRefusal(q: ReadRequest, user: Option<Principal>, layers: seq<Layer>, rels: seq<Relation>, isObjectId: string -> bool): (f: Option<ReadFailure>)
    ensures LayerKeyOf(q) == "" ==> f == Some(LayerRequired)
    ensures LayerKeyOf(q) != "" && TenantRawOf(q) != "" && TenantScope(q, isObjectId).None? ==> f == Some(InvalidTenantId)
    ensures f.None? ==> LayerKeyOf(q) != "" && ActiveLayer(layers, LayerKeyOf(q)).Some?
    ensures f.None? ==> LayerGate(ActiveLayer(layers, LayerKeyOf(q)).value.accessTier, UserTier(user))
    ensures f.None? && TenantScope(q, isObjectId).Some? ==> ScopeRefusal(user, TenantScope(q, isObjectId).value, rels, isObjectId).None?
    ensures f.Some? && f.value.PlanRequired? ==> f.value.userTier == UserTier(user)
    ensures LayerKeyOf(q) != "" && (TenantRawOf(q) == "" || TenantScope(q, isObjectId).Some?) ==>
      var layer := ActiveLayer(layers, LayerKeyOf(q));
      && (layer.None? ==> f == Some(LayerNotFound))
      && (layer.Some? && !LayerGate(layer.value.accessTier, UserTier(user)) ==>
            f == Some(PlanRequired(layer.value.accessTier, UserTier(user))))
      && (layer.Some? && LayerGate(layer.value.accessTier, UserTier(user)) ==>
            f == (if TenantScope(q, isObjectId).Some? then ScopeRefusal(user, TenantScope(q, isObjectId).value, rels, isObjectId) else None))
  {
    var layerKey := LayerKeyOf(q);
    if layerKey == "" then Some(LayerRequired)
    else if TenantRawOf(q) != "" && TenantScope(q, isObjectId).None? then Some(InvalidTenantId)
    else
      match ActiveLayer(layers, layerKey)
      case None => Some(LayerNotFound)
      case Some(layer) =>
        if !LayerGate(layer.accessTier, UserTier(user)) then Some(PlanRequired(layer.accessTier, UserTier(user)))
        else if TenantScope(q, isObjectId).Some? then ScopeRefusal(user, TenantScope(q, isObjectId).value, rels, isObjectId)
        else None
  }

  /** The event query: active events of the layer, of the iso3 when it has 3 characters, FREE only unless paid, of the tenant when scoped. */
  function ReadMatches(layerKey: string, iso3: string, allowPaid: bool, tenant: Option<string>): MapEvent -> bool {
    (e: MapEvent) =>
      && e.layerKey == layerKey && e.isActive
      && (|iso3| == 3 ==> e.iso3 == iso3)
      && (allowPaid || e.visibility == Free)
      && (tenant.Some? ==> e.tenantId == tenant.value)
  }

  const READ_LIMIT: nat := 1000

  function ReadCandidates(q: ReadRequest, user: Option<Principal>, events: seq<MapEvent>, isObjectId: string -> bool): seq<MapEvent> {
    Filter(events, ReadMatches(LayerKeyOf(q), Iso3Of(q), UserTier(user) != INVITED, TenantScope(q, isObjectId)))
  }

  function ReadSelection(q: ReadRequest, user: Option<Principal>, events: seq<MapEvent>, isObjectId: string -> bool): (sel: seq<MapEvent>)
    ensures |sel| <= READ_LIMIT
  {
    TopK(ReadCandidates(q, user, events, isObjectId), CreatedLater, READ_LIMIT)
  }

  /** A GeoJSON feature with the event's public properties. */
  datatype Feature = Feature(
    geometry: Geometry, id: string, tenantId: string, authorUserId: string, kind: Kind,
    title: string, summary: string, visibility: Visibility, iso3: string, tags: seq<string>, createdAt: Time)

  function FeatureOf(e: MapEvent): Feature {
    Feature(e.geometry, e.id, e.tenantId, e.authorUserId, e.kind, e.title, e.summary, e.visibility, e.iso3, e.tags, e.createdAt)
  }

  /** GET /events: the feature collection, or the first refusal. */
  function Read(q: ReadRequest, user: Option<Principal>, layers: seq<Layer>, rels: seq<Relation>, events: seq<MapEvent>, isObjectId: string -> bool): (r: Result<seq<Feature>, ReadFailure>)
    ensures r.Failure? <==> ReadRefusal(q, user, layers, rels, isObjectId).Some?
    ensures r.Failure? ==> r.error == ReadRefusal(q, user, layers, rels, isObjectId).value
    ensures r.Success? ==> |r.value| == |ReadSelection(q, user, events, isObjectId)| <= READ_LIMIT
    ensures r.Success? ==> forall k :: 0 <= k < |r.value| ==> r.value[k] == FeatureOf(ReadSelection(q, user, events, isObjectId)[k])
  {
    match ReadRefusal(q, user, layers, rels, isObjectId)
    case Some(f) => Failure(f)
    case None =>
      Success(MapSeq(ReadSelection(q, user, events, isObjectId), FeatureOf))
  }

  /** What the read returns: active events of the requested layer (and iso3 and tenant), at most 1000, newest first. */
  lemma ReadSelectionSpec(q: ReadRequest, user: Option<Principal>, events: seq<MapEvent>, isObjectId: string -> bool)
    ensures IsTopK(ReadSelection(q, user, events, isObjectId), ReadCandidates(q, user, events, isObjectId), CreatedLater, READ_LIMIT)
    ensures forall e :: e in ReadSelection(q, user, events, isObjectId) ==>
      e in events && e.isActive && e.layerKey == LayerKeyOf(q) && (|Iso3Of(q)| == 3 ==> e.iso3 == Iso3Of(q))
  {
    var cands := ReadCandidates(q, user, events, isObjectId);
    CreatedLaterIsTotalPreorder();
    TopKCorrect(cands, CreatedLater, READ_LIMIT);
    forall e | e in ReadSelection(q, user, events, isObjectId) ensures e in cands {
      assert e in multiset(ReadSelection(q, user, events, isObjectId));
    }
  }

  /** A caller read as INVITED (a guest included) gets FREE events only; any other tier also gets PAID ones. */
  lemma InvitedSeesOnlyFree(q: ReadRequest, user: Option<Principal>, events: seq<MapEvent>, isObjectId: string -> bool)
    ensures UserTier(user) == INVITED ==> forall e :: e in ReadSelection(q, user, events, isObjectId) ==> e.visibility == Free
    ensures UserTier(user) != INVITED ==>
      ReadCandidates(q, user, events, isObjectId) == Filter(events, ReadMatches(LayerKeyOf(q), Iso3Of(q), true, TenantScope(q, isObjectId)))
  {
    TopKMembers(ReadCandidates(q, user, events, isObjectId), CreatedLater, READ_LIMIT);
  }

  /** A tenant-scoped read that succeeds was made by the tenant's own analyst or an ACTIVE subscriber, and returns that tenant's events only. */
  lemma ScopedReadIsEntitled(q: ReadRequest, user: Option<Principal>, layers: seq<Layer>, rels: seq<Relation>, events: seq<MapEvent>, isObjectId: string -> bool)
    requires TenantScope(q, isObjectId).Some?
    requires Read(q, user, layers, rels, events, isObjectId).Success?
    ensures user.Some? && Truthy(user.value.id)
    ensures ToObjectId(user.value.tenantId, isObjectId) == TenantScope(q, isObjectId)
      || exists r :: r in rels && r.subscriberUserId == user.value.id.value && r.tenantId == TenantScope(q, isObjectId).value && r.status == Active
    ensures forall f :: f in Read(q, user, layers, rels, events, isObjectId).value ==> f.tenantId == TenantScope(q, isObjectId).value
  {
    var sel := ReadSelection(q, user, events, isObjectId);
    var features := Read(q, user, layers, rels, events, isObjectId).value;
    TopKMembers(ReadCandidates(q, user, events, isObjectId), CreatedLater, READ_LIMIT);
    forall f | f in features ensures f.tenantId == TenantScope(q, isObjectId).value {
      var k :| 0 <= k < |features| && features[k] == f;
      assert sel[k] in sel;
    }
  }

  /**
   * Because of the swapped tier call, a guest reads every active layer: an
   * unscoped request naming an existing active layer succeeds unless the
   * layer's tier is an inherited property name.
   */
  lemma GuestReadsEveryLayer(q: ReadRequest, layers: seq<Layer>, rels: seq<Relation>, events: seq<MapEvent>, isObjectId: string -> bool)
    requires LayerKeyOf(q) != "" && TenantRawOf(q) == ""
    requires ActiveLayer(layers, LayerKeyOf(q)).Some?
    ensures Read(q, None, layers, rels, events, isObjectId).Success? <==> !InheritedName(ActiveLayer(layers, LayerKeyOf(q)).value.accessTier)
  {
    LayerGateAsWritten(ActiveLayer(layers, LayerKeyOf(q)).value.accessTier);
  }

  // ---------------------------------------------------------------------
  // /events/me

  datatype WriteFailure = NotAnalyst(reason: AnalystFailure) | TenantRequiredOnUser | InvalidAuthor | InvalidId | ValidationFailed | NotFound
  {
    function Status(): nat {
      match this
      case NotAnalyst(reason) => reason.Status()
      case NotFound => 404
      case _ => 400
    }
  }

  /** `requireAnalyst`, then `toObjectId(req.user.tenantId)`: the caller's tenant, or the refusal. */
  function CallerTenant(user: Option<Principal>, isObjectId: string -> bool): (r: Result<string, WriteFailure>)
    ensures r.Success? <==> RequireAnalyst(user) == Pass && ToObjectId(user.value.tenantId, isObjectId).Some?
    ensures r.Success? ==> Some(r.value) == user.value.tenantId
    ensures RequireAnalyst(user).Reject? ==> r == Failure(NotAnalyst(RequireAnalyst(user).failure))
    ensures RequireAnalyst(user) == Pass && ToObjectId(user.value.tenantId, isObjectId).None? ==> r == Failure(TenantRequiredOnUser)
  {
    match RequireAnalyst(user)
    case Reject(f) => Failure(NotAnalyst(f))
    case Pass =>
      match ToObjectId(user.value.tenantId, isObjectId)
      case None => Failure(TenantRequiredOnUser)
      case Some(t) => Success(t)
  }

  const MINE_LIMIT: nat := 500

  datatype MineItem = MineItem(
    id: string, layerKey: string, kind: Kind, iso3: string, title: string, summary: string,
    visibility: Visibility, tags: seq<string>, geometry: Geometry, createdAt: Time, updatedAt: Time)

  function MineItemOf(e: MapEvent): MineItem {
    MineItem(e.id, e.layerKey, e.kind, e.iso3, e.title, e.summary, e.visibility, e.tags, e.geometry, e.createdAt, e.updatedAt)
  }

  function OwnActive(tenantId: string): MapEvent -> bool {
    (e: MapEvent) => e.tenantId == tenantId && e.isActive
  }

  /** The events GET /events/me returns for a tenant. */
  function MineSelection(tenantId: string, events: seq<MapEvent>): (sel: seq<MapEvent>)
    ensures |sel| <= MINE_LIMIT
  {
    TopK(Filter(events, OwnActive(tenantId)), CreatedLater, MINE_LIMIT)
  }

  /** GET /events/me: the caller's tenant's active events, newest first, at most 500. */
  function ListMine(user: Option<Principal>, events: seq<MapEvent>, isObjectId: string -> bool): (r: Result<seq<MineItem>, WriteFailure>)
    ensures r.Failure? <==> CallerTenant(user, isObjectId).Failure?
    ensures r.Success? ==> |r.value| == |MineSelection(CallerTenant(user, isObjectId).value, events)| <= MINE_LIMIT
    ensures r.Success? ==> forall k :: 0 <= k < |r.value| ==>
      r.value[k] == MineItemOf(MineSelection(CallerTenant(user, isObjectId).value, events)[k])
  {
    match CallerTenant(user, isObjectId)
    case Failure(f) => Failure(f)
    case Success(t) => Success(MapSeq(MineSelection(t, events), MineItemOf))
  }

  /** /me lists only the caller's tenant's active events, newest first, and all of them when there are at most 500. */
  lemma MineSelectionSpec(tenantId: string, events: seq<MapEvent>)
    ensures forall e :: e in MineSelection(tenantId, events) ==> e in events && e.tenantId == tenantId && e.isActive
    ensures SortedPairwise(MineSelection(tenantId, events), CreatedLater)
    ensures |Filter(events, OwnActive(tenantId))| <= MINE_LIMIT ==>
      forall e :: e in events && e.tenantId == tenantId && e.isActive ==> e in MineSelection(tenantId, events)
  {
    var cands := Filter(events, OwnActive(tenantId));
    var sel := MineSelection(tenantId, events);
    CreatedLaterIsTotalPreorder();
    TopKCorrect(cands, CreatedLater, MINE_LIMIT);
    TopKMembers(cands, CreatedLater, MINE_LIMIT);
    if |cands| <= MINE_LIMIT {
      TopKUnderLimit(cands, CreatedLater, MINE_LIMIT);
      forall e | e in events && e.tenantId == tenantId && e.isActive ensures e in sel {
        var i :| 0 <= i < |events| && events[i] == e;
        assert e in multiset(cands);
      }
    }
  }

  /** `MapEventModel.create(...)` in POST /events/me: defaults applied, iso3 trimmed and upper-cased. */
  function NewEvent(id: string, tenantId: string, authorUserId: string, p: Upsert, now: Time): (e: MapEvent)
    ensures e.isActive && e.id == id && e.tenantId == tenantId && e.authorUserId == authorUserId
    ensures e.layerKey == p.layerKey && e.kind == p.kind && e.title == p.title && e.geometry == p.geometry
    ensures e.iso3 == ToUpper(Trim(OrElse(p.iso3, "")))
    ensures e.visibility == (if p.visibility.Some? then p.visibility.value else Free)
    ensures e.summary == (if p.summary.Some? then p.summary.value else "")
    ensures e.tags == (if p.tags.Some? then p.tags.value else [])
    ensures NoLower(e.iso3) && |e.iso3| <= |OrElse(p.iso3, "")|
    ensures e.createdAt == now == e.updatedAt
  {
    ToUpperIdempotent(Trim(OrElse(p.iso3, "")));
    MapEvent(id, tenantId, authorUserId, p.layerKey, p.kind, ToUpper(Trim(OrElse(p.iso3, ""))), p.title,
             p.summary.GetOr(""), p.visibility.GetOr(Free), p.tags.GetOr([]), p.geometry, true, now, now)
  }

  /** The `$set` of PUT /events/me/:id: the body's fields replace the event's; owner, author and state stay. */
  function Edited(e: MapEvent, p: Upsert, now: Time): (r: MapEvent)
    ensures r.id == e.id && r.tenantId == e.tenantId && r.authorUserId == e.authorUserId
    ensures r.isActive == e.isActive && r.createdAt == e.createdAt && r.updatedAt == now
    ensures r.layerKey == p.layerKey && r.kind == p.kind && r.title == p.title && r.geometry == p.geometry
    ensures r.iso3 == ToUpper(Trim(OrElse(p.iso3, ""))) && NoLower(r.iso3)
    ensures r.summary == (if p.summary.Some? then p.summary.value else "")
    ensures r.visibility == (if p.visibility.Some? then p.visibility.value else Free)
    ensures r.tags == (if p.tags.Some? then p.tags.value else [])
  {
    var written := NewEvent(e.id, e.tenantId, e.authorUserId, p, now);
    written.(isActive := e.isActive, createdAt := e.createdAt)
  }

  /** The filter `{ _id, tenantId, isActive: true }` of the update and delete handlers. */
  function TargetIndex(events: seq<MapEvent>, tenantId: string, id: string): Option<nat> {
    FindIndex(events, (e: MapEvent) => e.id == id && e.tenantId == tenantId && e.isActive)
  }

  ghost predicate EventsValid(events: seq<MapEvent>) {
    forall i, j :: 0 <= i < j < |events| ==> events[i].id != events[j].id
  }

  /** Rewriting one event in place, id kept, keeps the ids unique. */
  lemma ReplaceKeepsIds(events: seq<MapEvent>, i: nat, e: MapEvent)
    requires EventsValid(events) && i < |events| && e.id == events[i].id
    ensures EventsValid(events[i := e])
  {
    var after := events[i := e];
    forall a, b | 0 <= a < b < |after| ensures after[a].id != after[b].id {
      assert after[a].id == events[a].id && after[b].id == events[b].id;
    }
  }

  /** Appending an event with a new id keeps the ids unique. */
  lemma AppendKeepsIds(events: seq<MapEvent>, e: MapEvent)
    requires EventsValid(events) && forall x :: x in events ==> x.id != e.id
    ensures EventsValid(events + [e])
  {
    var after := events + [e];
    forall a, b | 0 <= a < b < |after| ensures after[a].id != after[b].id {
      assert after[a] == events[a];
      if b == |events| {
        assert events[a] in events;
      } else {
        assert after[b] == events[b];
      }
    }
  }

  /** A soft-deleted event can no longer be found by update or delete. */
  lemma DeletedStaysDeleted(events: seq<MapEvent>, tenantId: string, id: string, now: Time)
    requires EventsValid(events)
    requires TargetIndex(events, tenantId, id).Some?
    ensures var i := TargetIndex(events, tenantId, id).value;
      TargetIndex(events[i := events[i].(isActive := false, updatedAt := now)], tenantId, id).None?
  {
    var i := TargetIndex(events, tenantId, id).value;
    var after := events[i := events[i].(isActive := false, updatedAt := now)];
    forall j | 0 <= j < |after| ensures !(after[j].id == id && after[j].tenantId == tenantId && after[j].isActive) {
      if j != i {
        assert events[j].id != events[i].id;
      }
    }
  }

  /** Another tenant's event is out of reach of update and delete. */
  lemma OtherTenantsUntouchable(events: seq<MapEvent>, tenantId: string, id: string)
    requires forall e :: e in events && e.id == id ==> e.tenantId != tenantId
    ensures TargetIndex(events, tenantId, id).None?
  {
    forall j | 0 <= j < |events| ensures !(events[j].id == id && events[j].tenantId == tenantId && events[j].isActive) {
      assert events[j] in events;
    }
  }

  class EventStore {
    var events: seq<MapEvent>

    ghost predicate Valid()
      reads this
    {
      EventsValid(events)
    }

    constructor ()
      ensures Valid() && events == []
    {
      events := [];
    }

    /** POST /events/me. */
    method Create(user: Option<Principal>, body: UpsertBody, newId: string, now: Time, isObjectId: string -> bool)
      returns (res: Result<string, WriteFailure>)
      requires Valid()
      requires forall e :: e in events ==> e.id != newId
      modifies this
      ensures Valid()
      ensures CallerTenant(user, isObjectId).Failure? ==> res == Failure(CallerTenant(user, isObjectId).error)
      ensures CallerTenant(user, isObjectId).Success? && ToObjectId(user.value.id, isObjectId).None? ==> res == Failure(InvalidAuthor)
      ensures res.Failure? ==> events == old(events)
      ensures res.Success? <==> CallerTenant(user, isObjectId).Success? && ToObjectId(user.value.id, isObjectId).Some? && Parse(body).Some?
      ensures res.Success? ==> res.value == newId
      ensures res.Success? ==>
        events == old(events) + [NewEvent(newId, CallerTenant(user, isObjectId).value, user.value.id.value, Parse(body).value, now)]
    {
      var tenant := CallerTenant(user, isObjectId);
      if tenant.Failure? {
        return Failure(tenant.error);
      }
      var author := ToObjectId(user.value.id, isObjectId);
      if author.None? {
        return Failure(InvalidAuthor);
      }
      var parsed := Parse(body);
      if parsed.None? {
        return Failure(ValidationFailed);
      }
      var e := NewEvent(newId, tenant.value, author.value, parsed.value, now);
      AppendKeepsIds(events, e);
      events := events + [e];
      return Success(newId);
    }

    /** PUT /events/me/:id. */
    method Update(user: Option<Principal>, id: string, body: UpsertBody, now: Time, isObjectId: string -> bool)
      returns (res: Result<(), WriteFailure>)
      requires Valid()
      modifies this
      ensures Valid()
      ensures res.Failure? ==> events == old(events)
      ensures CallerTenant(user, isObjectId).Failure? ==> res == Failure(CallerTenant(user, isObjectId).error)
      ensures CallerTenant(user, isObjectId).Success? && !isObjectId(id) ==> res == Failure(InvalidId)
      ensures CallerTenant(user, isObjectId).Success? && isObjectId(id) && Parse(body).None? ==> res == Failure(ValidationFailed)
      ensures res.Success? <==> CallerTenant(user, isObjectId).Success? && isObjectId(id) && Parse(body).Some?
                                && TargetIndex(old(events), CallerTenant(user, isObjectId).value, id).Some?
      ensures res.Success? ==>
        var i := TargetIndex(old(events), CallerTenant(user, isObjectId).value, id).value;
        events == old(events)[i := Edited(old(events)[i], Parse(body).value, now)]
    {
      var tenant := CallerTenant(user, isObjectId);
      if tenant.Failure? {
        return Failure(tenant.error);
      }
      if !isObjectId(id) {
        return Failure(InvalidId);
      }
      var parsed := Parse(body);
      if parsed.None? {
        return Failure(ValidationFailed);
      }
      var i := TargetIndex(events, tenant.value, id);
      if i.None? {
        return Failure(NotFound);
      }
      var edited := Edited(events[i.value], parsed.value, now);
      ReplaceKeepsIds(events, i.value, edited);
      events := events[i.value := edited];
      return Success(());
    }

    /** DELETE /events/me/:id: the event stays, with `isActive` false. */
    method SoftDelete(user: Option<Principal>, id: string, now: Time, isObjectId: string -> bool)
      returns (res: Result<(), WriteFailure>)
      requires Valid()
      modifies this
      ensures Valid()
      ensures res.Failure? ==> events == old(events)
      ensures CallerTenant(user, isObjectId).Failure? ==> res == Failure(CallerTenant(user, isObjectId).error)
      ensures CallerTenant(user, isObjectId).Success? && !isObjectId(id) ==> res == Failure(InvalidId)
      ensures res.Success? <==> CallerTenant(user, isObjectId).Success? && isObjectId(id)
                                && TargetIndex(old(events), CallerTenant(user, isObjectId).value, id).Some?
      ensures res.Success? ==>
        var i := TargetIndex(old(events), CallerTenant(user, isObjectId).value, id).value;
        events == old(events)[i := old(events)[i].(isActive := false, updatedAt := now)]
    {
      var tenant := CallerTenant(user, isObjectId);
      if tenant.Failure? {
        return Failure(tenant.error);
      }
      if !isObjectId(id) {
        return Failure(InvalidId);
      }
      var i := TargetIndex(events, tenant.value, id);
      if i.None? {
        return Failure(NotFound);
      }
      var deleted := events[i.value].(isActive := false, updatedAt := now);
      ReplaceKeepsIds(events, i.value, deleted);
      events := events[i.value := deleted];
      return Success(());
    }
  }
}
