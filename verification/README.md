# mapear access control and subscriptions, in Dafny

mapear is a map-based publishing platform. Analysts own a *tenant* (a channel).
They publish map events and country content on *layers*. Every layer has a
minimum plan tier (INVITED < SUBSCRIBER < SUBSCRIBER_PLUS). Subscribers ask
for access to a tenant, and the tenant's owner approves or rejects the request.

This project models the API's access-control and subscription core, and two
path helpers of the web client:

- the tier ranking and the tier gate as the routes call it;
- principal resolution from a Bearer token, and the analyst guard;
- the subscription record, with one record per (tenant, subscriber) pair;
- the request / cancel / decide transitions, as methods on a store class;
- the listings of the subscription routes;
- the analyst directory (who can still be subscribed to);
- GET /events: ordered checks, then a filtered, sorted and capped query;
- the analyst's own event store: create, update and soft delete, as methods on a class;
- GET /content and GET /layers;
- the header's active-link test and the breadcrumb trail.

Database reads are lookups over sequences.
`find().sort().limit()` is filter, then a stable sort, then take.
`new Date()`, fresh `_id`s, `ObjectId.isValid` and the JWT verifier are
parameters of the operations that use them.

Modules, one per source component:

- `Wrappers`, `Text`, `Queries`: shared definitions.
  - Option/Result, and JavaScript truthiness.
  - `trim`, ASCII case mapping, `split`/`join`.
  - filter, find, map, stable sort, top-k.
- `Tiers`: `apps/api/src/lib/tiers.ts`.
- `Models`: the record shapes of the Mongoose schemas, and the tenant collection's unique indexes.
- `OptionalAuth`, `AnalystGuard`: the two middlewares.
- `SubscriptionModel`: `apps/api/src/db/models/subscription.ts`.
- `Subscriptions`: `apps/api/src/routes/subscriptions.ts`.
  - The class `SubscriptionStore` holds the relation collection.
  - `Step`/`Run` give the status-level state machine the methods are proved against.
- `Analysts`: `apps/api/src/routes/analysts.ts`.
- `Events`: `apps/api/src/routes/events.ts`.
  - The class `EventStore` holds the event collection.
- `Content`: `apps/api/src/routes/content.ts`.
- `LayerCatalogue`: `apps/api/src/routes/layers.ts`.
- `Nav`: `isActive` of `AppHeader.tsx`, and `labelFor` and the crumbs of `Breadcrumbs.tsx`.

### Behaviour of the code worth knowing

- **Decide.** Only a CANCELED record is refused with 409 (apps/api/src/routes/subscriptions.ts:267). So the owner can approve a REJECTED record and reject an ACTIVE one.
  - `Subscriptions.LooseTransitions` states this.
- **Cancel.** A record is canceled from any status, REJECTED and CANCELED included (apps/api/src/routes/subscriptions.ts:186).
- **Content.** No per-item projection exists. An INVITED caller's query is restricted to FREE items (apps/api/src/routes/content.ts:35-38). The response never includes an item's `body` (apps/api/src/routes/content.ts:46-54).
- **Statuses.** A subscription record has exactly four statuses: PENDING, ACTIVE, REJECTED and CANCELED (apps/api/src/db/models/subscription.ts:4).
- **Tier gate.** Every route calls `hasTierAccess(layer.accessTier, userTier)`. The first parameter of `hasTierAccess` is the user's tier, so the rule the routes enforce is the reverse of the parameter names: a layer passes when it ranks at least as high as the caller. This is modelled as written and recorded under Findings.
- **Tier names outside the table.** `rank` is a plain object (apps/api/src/lib/tiers.ts:3-7). A tier string that names a property every object inherits, such as "toString" or "constructor", looks up a function (or, for "__proto__", Object.prototype) rather than `undefined`, and `?? 0` keeps it. `>=` converts such an object to a string: the function's source text, or "[object Object]". Two such strings are compared in code-unit order. A string against a number becomes NaN, so the comparison fails. Any other unknown string ranks 0. `Tiers.Rank` models the three outcomes.

## Model

| member | source | states |
|---|---|---|
| Tiers.RankTable | apps/api/src/lib/tiers.ts:3-7 | INVITED, SUBSCRIBER and SUBSCRIBER_PLUS rank 0, 1 and 2 |
| Tiers.Rank | apps/api/src/lib/tiers.ts:3-10 | `rank[t] ?? 0` is, as an operand of `>=`, the string its object converts to exactly for the inherited Object.prototype property names, and otherwise a number from 0 to 2 |
| Tiers.HasTierAccess | apps/api/src/lib/tiers.ts:9-11 | passes only when both tiers are inherited property names or neither is; with neither, exactly when the user tier's rank is at least the minimum tier's; with both, exactly when the user tier's string is not below the minimum tier's in code-unit order |
| Tiers.UnknownRanksAsInvited | apps/api/src/lib/tiers.ts:10 | a value outside the table is its object's string if it is an inherited property name, and otherwise ranks 0, like INVITED |
| Tiers.InheritedNameLocksOut | apps/api/src/lib/tiers.ts:10 | an inherited property name fails the comparison in both argument positions against any tier that is not one |
| Tiers.InheritedNamesCompareAsText | apps/api/src/lib/tiers.ts:10 | two inherited names compare as strings: "valueOf" passes against "toString", and not the other way round |
| Tiers.RankInjective | apps/api/src/lib/tiers.ts:3-7 | different plan tiers have different ranks |
| Tiers.AccessReflexive | apps/api/src/lib/tiers.ts:9-11 | every tier passes against itself, an inherited property name included |
| Tiers.AccessTotal | apps/api/src/lib/tiers.ts:9-11 | at least one direction passes exactly when both tiers are inherited property names or neither is |
| Tiers.AccessTransitive | apps/api/src/lib/tiers.ts:9-11 | passing composes along chains |
| Tiers.AccessAntisymmetric | apps/api/src/lib/tiers.ts:9-11 | both directions pass only for tiers of equal rank |
| Tiers.AccessExtremes | apps/api/src/lib/tiers.ts:3-11 | a second argument of INVITED, or a first argument of SUBSCRIBER_PLUS, passes exactly when the other tier is not an inherited property name |
| Tiers.LayerGateIsSwapped | apps/api/src/routes/events.ts:68-69 | the routes' gate holds exactly when neither tier is an inherited property name and rank(layer tier) >= rank(user tier), or both are and the layer tier's string is not below the user tier's |
| Tiers.LayerGateAsWritten | apps/api/src/routes/content.ts:25-26 | under the gate as written, an INVITED user passes every layer whose tier is not an inherited property name, and a SUBSCRIBER_PLUS user passes only SUBSCRIBER_PLUS layers |
| Tiers.IntendedGateMonotone | apps/api/src/lib/tiers.ts:9-11 | with the arguments in the declared order, a higher tier never loses access; all three tiers are inherited names or none is; on a layer with a table tier, INVITED layers are open to the caller and SUBSCRIBER_PLUS reaches the layer |
| Tiers.GatesAgreeOnlyOnEqualRank | apps/api/src/lib/tiers.ts:9-11 | the written and the intended gate both pass exactly when the two tiers have the same rank value (the same number, or the same string) |
| OptionalAuth.BearerToken | apps/api/src/middleware/optionalAuth.ts:15-18 | a token exists exactly when the header starts with the case-sensitive "Bearer " (section 2.1 of RFC 6750); the header is that prefix plus the token |
| OptionalAuth.PrincipalOf | apps/api/src/middleware/optionalAuth.ts:24-30 | id, email and role come from the claims; planTier defaults to INVITED and is never empty; tenantId defaults to null |
| OptionalAuth.UserTier | apps/api/src/routes/events.ts:68 | the caller's tier, read as INVITED for a guest or an empty tier |
| OptionalAuth.Authenticate | apps/api/src/middleware/optionalAuth.ts:14-36 | a principal is set exactly when the header has a Bearer token the verifier accepts, and it is the one built from the verified claims, with a non-empty tier |
| OptionalAuth.AuthenticateSpec | apps/api/src/middleware/optionalAuth.ts:14-36 | a principal is set exactly when a Bearer token is present and the verifier accepts it; otherwise the request stays anonymous, and no error outcome exists |
| OptionalAuth.NoBearerIsAnonymous | apps/api/src/middleware/optionalAuth.ts:15-16 | no header, a lower-case scheme, or a header without the prefix give no principal, whatever the verifier says |
| OptionalAuth.RejectedTokenIsAnonymous | apps/api/src/middleware/optionalAuth.ts:20-33 | a token the verifier rejects leaves the request anonymous |
| AnalystGuard.RequireAnalyst | apps/api/src/middleware/requireAnalyst.ts:4-17 | passes iff there is a principal, its role is ANALYST and its tenantId is truthy; otherwise 401, 403, 400 in that order |
| AnalystGuard.RequireAnalystOrder | apps/api/src/middleware/requireAnalyst.ts:4-17 | a principal is never refused with 401; a non-analyst always gets 403; a passing principal names a non-empty tenant |
| SubscriptionModel.CreateRecord | apps/api/src/db/models/subscription.ts:8-36 | a record exists iff both ids are given; status defaults to PENDING; decidedAt and canceledAt start null; createdAt equals updatedAt |
| SubscriptionModel.AtMostOnePerPair | apps/api/src/db/models/subscription.ts:43 | under the unique index, a pair has at most one record |
| SubscriptionModel.NoneOfPair | apps/api/src/db/models/subscription.ts:43 | a store with no record of a pair yields no record for it |
| Subscriptions.SafeStatus | apps/api/src/routes/subscriptions.ts:17-21 | a status filter exactly when the upper-cased value names a status; a missing, empty, "ALL" or unknown value means ALL |
| Subscriptions.StatusNamesAreUpperCase | apps/api/src/routes/subscriptions.ts:19 | the five accepted names are their own upper case |
| Subscriptions.SafeStatusIdempotent | apps/api/src/routes/subscriptions.ts:17-21 | passing the result back to safeStatus gives the same filter |
| Subscriptions.SafeStatusIgnoresCase | apps/api/src/routes/subscriptions.ts:18-19 | any spelling whose upper case is a status name selects that status |
| Subscriptions.Step | apps/api/src/routes/subscriptions.ts:55-272 | an action leaves no record only when there was none and it is not a request; cancel always reaches CANCELED; ACTIVE is reached only from ACTIVE or by approval; a CANCELED record changes only on a new request |
| Subscriptions.Run | apps/api/src/routes/subscriptions.ts:55-272 | a run of actions without a request never creates a record |
| Subscriptions.DecisionsKeepCanceled | apps/api/src/routes/subscriptions.ts:267-269 | any run of owner decisions leaves a CANCELED record CANCELED |
| Subscriptions.ActiveNeedsApproval | apps/api/src/routes/subscriptions.ts:71-275 | a record that was not ACTIVE becomes ACTIVE only through an approval |
| Subscriptions.RecordPersists | apps/api/src/routes/subscriptions.ts:55-81 | no transition removes a record |
| Subscriptions.RequestIdempotent | apps/api/src/routes/subscriptions.ts:60-81 | requesting twice equals requesting once; after a request the status is PENDING or ACTIVE |
| Subscriptions.LooseTransitions | apps/api/src/routes/subscriptions.ts:186-271 | cancel works from every status; approve/reject work from every status except CANCELED |
| Subscriptions.RequestRefusal | apps/api/src/routes/subscriptions.ts:37-53 | 400 INVALID_TENANT_ID for a missing tenantId or one that is not an ObjectId; then 404 when no active tenant has that id; then, for an active tenant, refused (409, CANNOT_SUBSCRIBE_OWN_TENANT) exactly when the caller owns it |
| Subscriptions.NoSelfSubscription | apps/api/src/routes/subscriptions.ts:50-53 | the owner of an active tenant is always refused with 409 |
| Subscriptions.CancelRefusal | apps/api/src/routes/subscriptions.ts:173-184 | 404 for a missing record; then 404 when the record's tenant is missing; then, for an existing tenant, passes exactly when the caller is the record's subscriber or the tenant's owner, and is otherwise 403 |
| Subscriptions.DecideRefusal | apps/api/src/routes/subscriptions.ts:253-269 | 400 for an action other than APPROVE/REJECT, before any lookup; then 404 for a missing record, 404 for a missing tenant, 403 for a caller who is not the tenant's owner; for the owner, passes exactly when the record is not CANCELED, and is otherwise 409 |
| Subscriptions.CanceledIsNotDecided | apps/api/src/routes/subscriptions.ts:267-269 | a CANCELED record is never approved or rejected; with a valid action, an existing tenant and the owner, the refusal is 409 |
| Subscriptions.SubscriptionStore.Request | apps/api/src/routes/subscriptions.ts:33-82 | refuses exactly as RequestRefusal and then changes nothing. Otherwise: no record creates exactly one PENDING record with null stamps; PENDING/ACTIVE returns the record unchanged; REJECTED/CANCELED resets that same record to PENDING with both stamps cleared. The unique-pair and unique-id invariant is kept. |
| Subscriptions.SubscriptionStore.Cancel | apps/api/src/routes/subscriptions.ts:170-191 | refuses exactly as CancelRefusal, with its error, and then changes nothing; otherwise the tenant exists and the caller is the subscriber or the owner, and only that record changes, to CANCELED with canceledAt stamped, from any status |
| Subscriptions.SubscriptionStore.Decide | apps/api/src/routes/subscriptions.ts:249-276 | refuses exactly as DecideRefusal, with its error, and then changes nothing; otherwise the caller owns the record's tenant, and only that record changes, to ACTIVE (APPROVE) or REJECTED (REJECT) with decidedAt stamped |
| Subscriptions.UpdatedLaterIsTotalPreorder | apps/api/src/routes/subscriptions.ts:95 | the updatedAt-descending order is total and transitive |
| Subscriptions.MineRows | apps/api/src/routes/subscriptions.ts:117-136 | every row comes from one relation whose tenant exists, joined with that tenant and its owner or null; rows whose tenant is missing are dropped |
| Subscriptions.MineRowsComplete | apps/api/src/routes/subscriptions.ts:119-135 | every relation whose tenant exists keeps its row |
| Subscriptions.MineRowsNewestFirst | apps/api/src/routes/subscriptions.ts:94-135 | dropping rows keeps the relations' newest-first order |
| Subscriptions.MineOnlyCallers | apps/api/src/routes/subscriptions.ts:87-136 | every /mine row is one of the caller's relations, in the requested status, with its existing tenant |
| Subscriptions.MineComplete | apps/api/src/routes/subscriptions.ts:87-136 | every caller relation in the requested status whose tenant exists appears in /mine |
| Subscriptions.MineNewestFirst | apps/api/src/routes/subscriptions.ts:94-96 | /mine lists the most recently updated relation first |
| Subscriptions.MyTenants | apps/api/src/routes/subscriptions.ts:143-165 | exactly the active tenants with a caller relation in the effective status, where ALL reads as ACTIVE |
| Subscriptions.OwnerRows | apps/api/src/routes/subscriptions.ts:233-242 | one row per relation, each with its tenant and subscriber or null |
| Subscriptions.IdResolves | apps/api/src/routes/subscriptions.ts:212-230 | an id taken from the caller's tenants finds its tenant in the lookup map |
| Subscriptions.OwnerRequests | apps/api/src/routes/subscriptions.ts:213 | a caller who owns no tenant gets an empty list |
| Subscriptions.RowsResolveTenants | apps/api/src/routes/subscriptions.ts:230-237 | rows of relations on the caller's tenants never carry a null tenant |
| Subscriptions.OwnerRequestsOnOwnTenants | apps/api/src/routes/subscriptions.ts:202-243 | every row is a relation on a tenant the caller owns, in the requested status, with that tenant attached |
| Subscriptions.OwnerRequestsComplete | apps/api/src/routes/subscriptions.ts:206-243 | every relation in the requested status on an owned tenant appears |
| Subscriptions.OwnerRequestsNewestFirst | apps/api/src/routes/subscriptions.ts:218-220 | the rows come newest update first |
| Analysts.ExcludedIds | apps/api/src/routes/analysts.ts:23-37 | contains the tenant of every open (PENDING/ACTIVE) relation of the caller, and every tenant the caller owns |
| Analysts.EntryFor | apps/api/src/routes/analysts.ts:69-75 | tenant fields copied; the owner's email and planTier, each null when the owner is missing or the field is empty |
| Analysts.Directory | apps/api/src/routes/analysts.ts:54-76 | at most 50 entries, one per listed tenant, in order |
| Analysts.ListedAreEligible | apps/api/src/routes/analysts.ts:24-52 | a listed tenant is active, is not the caller's own, has no open relation with the caller, and matches a non-blank query |
| Analysts.ClosedRelationsDoNotExclude | apps/api/src/routes/analysts.ts:24-27 | an active, matching tenant whose only relations with the caller are REJECTED or CANCELED stays a candidate |
| Analysts.NotExcluded | apps/api/src/routes/analysts.ts:31-52 | an id that is neither an open relation's tenant nor one of the caller's tenants is not excluded |
| Analysts.SmallDirectoryIsComplete | apps/api/src/routes/analysts.ts:57 | with at most 50 candidates, every candidate is listed |
| Analysts.DirectoryIsNewestFifty | apps/api/src/routes/analysts.ts:54-58 | the list is the up-to-50 most recently updated candidates, newest first |
| Analysts.BlankQueryMatchesAll | apps/api/src/routes/analysts.ts:21-44 | a missing or blank query gives the same directory as no query |
| Analysts.TenantUpdatedLaterIsTotalPreorder | apps/api/src/routes/analysts.ts:56 | the updatedAt-descending order is total and transitive |
| Events.ParseGeometry | apps/api/src/routes/events.ts:25-34 | accepted iff a Point with exactly 2 coordinates or a LineString with at least 2 positions (sections 3.1.2 and 3.1.4 of RFC 7946) |
| Events.Parse | apps/api/src/routes/events.ts:17-35 | accepted iff layerKey and title are non-empty, kind and visibility are known values and the geometry is valid; layerKey, title, summary and tags are copied, iso3 is trimmed, and kind, visibility and geometry are the parsed values of the body's |
| Events.GeometryBoundaries | apps/api/src/routes/events.ts:31-32 | a Point with a count other than 2, and a LineString with fewer than 2 positions, are refused |
| Events.ToObjectId | apps/api/src/routes/events.ts:37-42 | an id results exactly when the value is truthy and a valid ObjectId |
| Events.CreatedLaterIsTotalPreorder | apps/api/src/routes/events.ts:110 | the createdAt-descending order is total and transitive |
| Events.ScopeRefusal | apps/api/src/routes/events.ts:80-102 | 401 AUTH_REQUIRED without a user or a truthy user id; 401 INVALID_USER_ID for an id that is not an ObjectId; with a valid id, the caller's own tenant passes, an ACTIVE relation for the pair passes, and the only other outcome is 403 SUBSCRIPTION_REQUIRED |
| Events.ReadRefusal | apps/api/src/routes/events.ts:53-103 | in order: 400 LAYER_REQUIRED, 400 INVALID_TENANT_ID, 404 LAYER_NOT_FOUND when no active layer has the key, 403 PLAN_REQUIRED carrying the layer's tier and the caller's when the gate fails; when it passes, the tenant-scope refusal if scoped, and none otherwise |
| Events.Read | apps/api/src/routes/events.ts:52-131 | fails exactly on a refusal, with that refusal's error; otherwise one feature per selected event, in order, at most 1000 |
| Events.ReadSelectionSpec | apps/api/src/routes/events.ts:105-110 | the 1000 newest candidates; each is active, of the layer, of the iso3 when it has exactly 3 characters, and of the tenant when scoped |
| Events.InvitedSeesOnlyFree | apps/api/src/routes/events.ts:77-107 | an INVITED caller gets FREE events only; any other tier is not filtered by visibility |
| Events.ScopedReadIsEntitled | apps/api/src/routes/events.ts:80-108 | a scoped read that succeeds was made by the tenant's own analyst or an ACTIVE subscriber, and returns that tenant's events only |
| Events.GuestReadsEveryLayer | apps/api/src/routes/events.ts:68-75 | a guest's unscoped read of an active layer succeeds exactly when the layer's tier is not an inherited property name (the swapped gate) |
| Events.CallerTenant | apps/api/src/routes/events.ts:137-139 | the analyst guard's refusal first; then TENANT_REQUIRED_ON_USER when the caller's tenantId is not a valid ObjectId; otherwise that tenantId |
| Events.ListMine | apps/api/src/routes/events.ts:137-161 | refuses exactly as CallerTenant; otherwise at most 500 items, one per selected event |
| Events.MineSelectionSpec | apps/api/src/routes/events.ts:141-144 | only the caller tenant's active events, newest first, and all of them when there are at most 500 |
| Events.NewEvent | apps/api/src/routes/events.ts:178-192 | active; id, tenant and author as given; layerKey, kind, title and geometry from the body; iso3 trimmed and upper-cased; visibility FREE, summary "" and tags [] by default; both timestamps now |
| Events.Edited | apps/api/src/routes/events.ts:214-227 | every `$set` field from the body: layerKey, kind, title, geometry, iso3 trimmed and upper-cased, summary "", visibility FREE and tags [] by default; id, tenant, author, isActive and createdAt stay; updatedAt is now |
| Events.ReplaceKeepsIds | apps/api/src/routes/events.ts:214-229 | rewriting one event in place, with its id kept, keeps the ids unique |
| Events.DeletedStaysDeleted | apps/api/src/routes/events.ts:246-250 | once soft-deleted, an event is found by neither update nor delete |
| Events.OtherTenantsUntouchable | apps/api/src/routes/events.ts:214-248 | update and delete never reach another tenant's event |
| Events.EventStore.Create | apps/api/src/routes/events.ts:167-195 | refused (nothing changes) for a caller without a tenant, an invalid author, or a body failing the schema; otherwise appends exactly NewEvent with the fresh id |
| Events.EventStore.Update | apps/api/src/routes/events.ts:201-233 | refused (nothing changes) without a tenant, for an invalid id or body, or with no active event of the caller's tenant under that id (404); otherwise only that event changes, to Edited |
| Events.EventStore.SoftDelete | apps/api/src/routes/events.ts:239-254 | refused like Update; otherwise only that event changes, with isActive false; nothing is removed |
| Content.ContentRefusal | apps/api/src/routes/content.ts:16-33 | in order: 400 unless the upper-cased, untrimmed iso3 has 3 characters; 400 for no layer; 404; then 403 PLAN_REQUIRED with both tiers |
| Content.Iso3IsNotTrimmed | apps/api/src/routes/content.ts:16-19 | " ar" is accepted as " AR", and "ARG " is refused |
| Content.BodyIsNeverExposed | apps/api/src/routes/content.ts:46-54 | two items that differ only in their body have the same view |
| Content.PublishedLaterIsTotalPreorder | apps/api/src/routes/content.ts:40 | the publishedAt-descending order is total and transitive |
| Content.ListContent | apps/api/src/routes/content.ts:15-56 | fails exactly on a refusal, with that refusal's error; otherwise it echoes iso3, layer and tier, and returns at most 50 body-free views of the selection, in order |
| Content.ContentSelectionSpec | apps/api/src/routes/content.ts:37-40 | the 50 most recently published candidates; each is an active item of that iso3 and layer |
| Content.InvitedGetsNoPaidItems | apps/api/src/routes/content.ts:35-38 | an INVITED caller receives no PAID item; other tiers are not filtered by visibility |
| Content.GuestPassesEveryLayer | apps/api/src/routes/content.ts:25-26 | with a valid iso3 and an active layer, a guest is refused exactly when the layer's tier is an inherited property name |
| LayerCatalogue.LayerBeforeIsTotalPreorder | apps/api/src/routes/layers.ts:12 | ordering by sort, then title, is total and transitive |
| LayerCatalogue.ViewFor | apps/api/src/routes/layers.ts:15-21 | copies key, title, description and accessTier; canAccess is the swapped comparison: only for two table tiers or two inherited names, by rank(accessTier) >= rank(user tier) for the first and by code-unit order of the strings for the second |
| LayerCatalogue.ListLayers | apps/api/src/routes/layers.ts:8-24 | one view per listed layer, in order; the user tier, defaulting to INVITED, is echoed |
| LayerCatalogue.ListedSpec | apps/api/src/routes/layers.ts:11-13 | exactly the active layers, each as often as stored, ordered by sort and then title |
| LayerCatalogue.CanAccessAsWritten | apps/api/src/routes/layers.ts:20 | a guest is told every layer whose tier is not an inherited property name is accessible; a SUBSCRIBER_PLUS caller only SUBSCRIBER_PLUS layers; a caller whose tier is an inherited property name only layers whose tier is one too, always including a layer with its own tier |
| Nav.IsActive | apps/web/src/app/_components/AppHeader.tsx:16-18 | the page itself is active; an active path has href as a prefix, and a longer one continues with "/" right after it |
| Nav.ActiveOnItself | apps/web/src/app/_components/AppHeader.tsx:17 | a link is active on its own path |
| Nav.ActiveBelow | apps/web/src/app/_components/AppHeader.tsx:17 | a path below href, after a "/", is active |
| Nav.SiblingNotActive | apps/web/src/app/_components/AppHeader.tsx:17 | a longer path without "/" after href is not active |
| Nav.MapxIsNotMap | apps/web/src/app/_components/AppHeader.tsx:17 | "/mapx" is not active for "/map"; "/map" and "/map/ARG" are |
| Nav.HomeActive | apps/web/src/app/_components/AppHeader.tsx:17 | for "/", only "/" itself or a path starting with "//" is active; "/map" is not |
| Nav.LabelFor | apps/web/src/app/_components/Breadcrumbs.tsx:6-12 | the four fixed labels; any other segment keeps its length and gets its first character upper-cased |
| Nav.Segments | apps/web/src/app/_components/Breadcrumbs.tsx:16 | every segment is non-empty and free of "/" |
| Nav.SegmentsKeepCharacters | apps/web/src/app/_components/Breadcrumbs.tsx:16 | the segments, joined back together, are the path without its slashes |
| Nav.Crumbs | apps/web/src/app/_components/Breadcrumbs.tsx:18-24 | Home ("/") first, then one crumb per segment: "/" plus the first k segments joined with "/", with labelFor as the label |
| Nav.CrumbsNest | apps/web/src/app/_components/Breadcrumbs.tsx:21 | each crumb's href is the previous href plus "/" and the next segment, so it has the previous one as a prefix |
| Nav.CrumbReparses | apps/web/src/app/_components/Breadcrumbs.tsx:16-21 | splitting a crumb's href again gives exactly the segments up to that crumb |

## Left out

- Database access is modelled as pure functions over sequences, and the stores as sequences of records. A sequence keeps the collection's natural order, and the unique indexes become invariants the methods preserve rather than map keys.
- Ties under `.sort()` are broken by a stable insertion sort. MongoDB leaves the order of equal keys unspecified.
- `ObjectId.isValid` is a parameter, and an id is its own string form. ObjectId normalisation is not modelled: `String(toObjectId(s))` may differ from `s` in letter case.
- A malformed `:id` reaching `findById` in cancel and decide raises a CastError (HTTP 500). This is not modelled: any id is looked up, and a missing record answers 404.
- JWT signature and expiry checking (RFC 7519) is a partial-function parameter. `auth.ts`, `jwt.ts`, `authMiddleware.ts`, `env.ts` and `server.ts` are not part of this model.
- A principal without `sub` reaching the subscription routes (`req.user.id` undefined) is not modelled: the caller id is a string.
- Request bodies with values of the wrong JSON type are not modelled: the body is typed, and missing fields are `None`. zod's error details are reduced to a single validation failure.
- Content.Iso3Of, Events.Read and Analysts.Eligible: query parameters are modelled as optional strings. Express delivers a repeated parameter as an array, which `String(...)` joins with commas, so `?iso3=a&iso3=b` becomes the three characters "A,B" and passes the iso3 length check. Array- or object-valued query parameters are not modelled.
- Case mapping is ASCII only. JavaScript's `toUpperCase` also maps non-ASCII letters and can change a string's length.
- `String.prototype.trim` removes the WhiteSpace and LineTerminator code points listed in `Text.IsSpace`. Characters outside the Basic Multilingual Plane are single `char`s here.
- Analysts.Eligible: the name match, the MongoDB `$regex` with the `i` option, is modelled as a case-insensitive substring test. A query containing regular-expression metacharacters behaves differently in the source.
- Tiers.Rank: the names looked up on Object.prototype are its twelve ECMAScript properties, the Annex B accessors included. Properties that a library or polyfill adds at run time are not modelled. The text of a built-in function is implementation-defined; the model uses the V8 form `function name() { [native code] }`, which decides the order of two inherited names.
- Layer `sort` is an integer. Mongoose `Number` also allows fractions.
- Timestamps are supplied by the caller (`now`). `updatedAt` stamping follows Mongoose `timestamps`: every successful save sets it to `now`.
- Concurrency is not modelled. The race between two simultaneous first requests for one pair, which the unique index resolves by failing one insert, is therefore absent.
- AccessGrant, `validators.ts`, the tenant subscriber routes used by the web client, and the web pages and layout components are not part of this model.
- In `AppHeader.tsx` only `isActive` is modelled, and in `Breadcrumbs.tsx` only `labelFor` and the crumbs. The React rendering and the header's user label are left out.

## Findings

| source | as written | input that shows it | evidently intended | confidence | as-written member | corrected member |
|---|---|---|---|---|---|---|
| apps/api/src/routes/events.ts:69, apps/api/src/routes/content.ts:26, apps/api/src/routes/layers.ts:20 | `hasTierAccess(layer.accessTier, userTier)`, while `hasTierAccess`'s first parameter is the user's tier (apps/api/src/lib/tiers.ts:9) | a guest (tier INVITED) asking for a SUBSCRIBER_PLUS layer is let through; a SUBSCRIBER_PLUS user is refused a SUBSCRIBER layer with 403 | `hasTierAccess(userTier, layer.accessTier)`: a user reaches every layer at or below their tier | not executed | Tiers.LayerGateAsWritten | Tiers.IntendedGateMonotone |

`Tiers.IntendedGate` is the corrected gate, and `Tiers.IntendedGateMonotone` proves its intended property: higher tiers never lose access, and INVITED layers are open to everyone. The route models (`Events.ReadRefusal`, `Content.ContentRefusal`, `LayerCatalogue.ViewFor`) keep the call as written, because that is what the deployed routes enforce. `Tiers.GatesAgreeOnlyOnEqualRank` measures how far the two gates diverge.
