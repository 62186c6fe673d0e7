/**
 * Record shapes of the collections the core reads: tenants, users, layers,
 * content items and map events (apps/api/src/db/models). Identifiers are
 * strings compared for equality; timestamps are integers supplied by a clock.
 */
module Models {
  import opened Wrappers
  import opened Queries

  type Time = int

  datatype TenantStatus = TenantActive | TenantSuspended

  /** A publishing channel; one per analyst owner. */
  datatype Tenant = Tenant(id: string, ownerUserId: string, name: string, status: TenantStatus, updatedAt: Time)

  /** The public part of a user record the routes look up. */
  datatype User = User(id: string, email: Option<string>, planTier: Option<string>)

  /** Layers.ts: a content category with its minimum tier. */
  datatype Layer = Layer(key: string, title: string, description: string, accessTier: string, isActive: bool, sort: int)

  datatype Visibility = Free | Paid

  /** Content.ts. */
  datatype ContentItem = ContentItem(
    id: string, iso3: string, layerKey: string, tenantId: string, authorUserId: string,
    title: string, summary: string, body: string, visibility: Visibility,
    tags: seq<string>, publishedAt: Time, isActive: bool)

  datatype Kind = PointKind | LineKind
  datatype GeoType = Point | LineString

  /** The coordinates of a geometry are kept opaque: only whether they form an array, and its length, matter. */
  datatype Coordinates = NotArray | ArrayOf(length: nat)

  datatype Geometry = Geometry(geoType: GeoType, coordinates: Coordinates)

  /** MapEvent.ts. */
  datatype MapEvent = MapEvent(
    id: string, tenantId: string, authorUserId: string, layerKey: string, kind: Kind,
    iso3: string, title: string, summary: string, visibility: Visibility, tags: seq<string>,
    geometry: Geometry, isActive: bool, createdAt: Time, updatedAt: Time)

  /** The tenant collection's unique indexes: one record per id and one tenant per owner (Tenant.ts). */
  ghost predicate TenantsValid(ts: seq<Tenant>) {
    forall i, j :: 0 <= i < j < |ts| ==> ts[i].id != ts[j].id && ts[i].ownerUserId != ts[j].ownerUserId
  }

  function OwnedBy(owner: string): Tenant -> bool {
    (t: Tenant) => t.ownerUserId == owner
  }

  /** Under the one-tenant-per-owner index an owner has at most one tenant. */
  lemma {:induction false} AtMostOneOwnedTenant(ts: seq<Tenant>, owner: string)
    requires TenantsValid(ts)
    ensures |Filter(ts, OwnedBy(owner))| <= 1
    decreases |ts|
  {
    if ts != [] {
      AtMostOneOwnedTenant(ts[1..], owner);
      if ts[0].ownerUserId == owner {
        forall x | x in ts[1..] ensures !OwnedBy(owner)(x) {
          var j :| 0 <= j < |ts[1..]| && ts[1..][j] == x;
          assert ts[j + 1] == x;
        }
      }
    }
  }

  /** The `_id`s of a list of tenants, in order. */
  function TenantIds(ts: seq<Tenant>): (ids: seq<string>)
    ensures |ids| == |ts|
    ensures forall k :: 0 <= k < |ts| ==> ids[k] == ts[k].id
  {
    seq(|ts|, k requires 0 <= k < |ts| => ts[k].id)
  }

  /** `TenantModel.findById(id)`. */
  function TenantById(ts: seq<Tenant>, id: string): (r: Option<Tenant>)
    ensures r.Some? ==> r.value in ts && r.value.id == id
    ensures r.None? ==> forall t :: t in ts ==> t.id != id
  {
    FindFirst(ts, (t: Tenant) => t.id == id)
  }

  /** `TenantModel.findOne({ _id: id, status: "active" })`. */
  function ActiveTenantById(ts: seq<Tenant>, id: string): (r: Option<Tenant>)
    ensures r.Some? ==> r.value in ts && r.value.id == id && r.value.status == TenantActive
    ensures r.None? ==> forall t :: t in ts && t.id == id ==> t.status != TenantActive
  {
    FindFirst(ts, (t: Tenant) => t.id == id && t.status == TenantActive)
  }

  /** `UserModel` lookup by id (the `ownerById`/`userById` maps). */
  function UserById(us: seq<User>, id: string): (r: Option<User>)
    ensures r.Some? ==> r.value in us && r.value.id == id
    ensures r.None? ==> forall u :: u in us ==> u.id != id
  {
    FindFirst(us, (u: User) => u.id == id)
  }

  /** `LayerModel.findOne({ key, isActive: true })`. */
  function ActiveLayer(layers: seq<Layer>, key: string): (r: Option<Layer>)
    ensures r.Some? ==> r.value in layers && r.value.key == key && r.value.isActive
    ensures r.None? ==> forall l :: l in layers && l.key == key ==> !l.isActive
  {
    FindFirst(layers, (l: Layer) => l.key == key && l.isActive)
  }
}
