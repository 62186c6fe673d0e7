/**
 * The layer catalogue (apps/api/src/routes/layers.ts): GET /layers lists
 * the active layers by `sort`, then title, each with whether the caller's
 * tier passes the gate, and echoes the caller's tier.
 */
module LayerCatalogue {
  import opened Wrappers
  import opened Text
  import opened Queries
  import opened Tiers
  import opened Models
  import opened OptionalAuth

  datatype LayerView = LayerView(key: string, title: string, description: string, accessTier: string, canAccess: bool)

  datatype LayersResponse = LayersResponse(layers: seq<LayerView>, userTier: string)

  /** `.sort({ sort: 1, title: 1 })`: by `sort` ascending, then by title in code-unit order. */
  function LayerBefore(a: Layer, b: Layer): bool {
    a.sort < b.sort || (a.sort == b.sort && LexLe(a.title, b.title))
  }

  lemma LayerBeforeIsTotalPreorder()
    ensures Total(LayerBefore) && Transitive(LayerBefore)
  {
    forall a: Layer, b: Layer ensures LayerBefore(a, b) || LayerBefore(b, a) {
      LexLeTotal(a.title, b.title);
    }
    forall a: Layer, b: Layer, c: Layer | LayerBefore(a, b) && LayerBefore(b, c) ensures LayerBefore(a, c) {
      if a.sort == b.sort == c.sort {
        LexLeTransitive(a.title, b.title, c.title);
      }
    }
  }

  /** `canAccess`, with the arguments in the order the route passes them. */
  function ViewFor(l: Layer, userTier: string): (v: LayerView)
    ensures v.key == l.key && v.title == l.title && v.description == l.description && v.accessTier == l.accessTier
    ensures v.canAccess <==> AtLeast(Rank(l.accessTier), Rank(userTier))
    ensures v.canAccess ==> InheritedName(l.accessTier) == InheritedName(userTier)
    ensures !InheritedName(l.accessTier) && !InheritedName(userTier) ==> (v.canAccess <==> Rank(l.accessTier).n >= Rank(userTier).n)
    ensures InheritedName(l.accessTier) && InheritedName(userTier) ==>
      (v.canAccess <==> LexLe(PrimitiveText(userTier), PrimitiveText(l.accessTier)))
  {
    LayerView(l.key, l.title, l.description, l.accessTier, HasTierAccess(l.accessTier, userTier))
  }

  function IsActiveLayer(l: Layer): bool {
    l.isActive
  }

  /** `LayerModel.find({ isActive: true }).sort({ sort: 1, title: 1 })`. */
  function Listed(layers: seq<Layer>): seq<Layer> {
    SortBy(Filter(layers, IsActiveLayer), LayerBefore)
  }

  /** GET /layers. */
  function ListLayers(user: Option<Principal>, layers: seq<Layer>): (r: LayersResponse)
    ensures r.userTier == UserTier(user)
    ensures |r.layers| == |Listed(layers)|
    ensures forall k :: 0 <= k < |r.layers| ==> r.layers[k] == ViewFor(Listed(layers)[k], UserTier(user))
  {
    var tier := UserTier(user);
    LayersResponse(MapSeq(Listed(layers), (l: Layer) => ViewFor(l, tier)), tier)
  }

  /** Exactly the active layers are listed, each as often as stored, in (sort, title) order. */
  lemma ListedSpec(layers: seq<Layer>)
    ensures forall l :: l in Listed(layers) ==> l in layers && l.isActive
    ensures forall l :: l in layers && l.isActive ==> l in Listed(layers)
    ensures multiset(Listed(layers)) == multiset(Filter(layers, IsActiveLayer))
    ensures SortedPairwise(Listed(layers), LayerBefore)
  {
    var active := Filter(layers, IsActiveLayer);
    LayerBeforeIsTotalPreorder();
    SortBySorted(active, LayerBefore);
    SortedIsPairwise(Listed(layers), LayerBefore);
    SortByKeepsMembers(active, LayerBefore);
    forall l | l in layers && l.isActive ensures l in Listed(layers) {
      var i :| 0 <= i < |layers| && layers[i] == l;
      assert l in active;
    }
  }

  /**
   * Under the swapped call a guest is told it can open every layer whose tier is not an inherited
   * property name, a SUBSCRIBER_PLUS caller only SUBSCRIBER_PLUS layers, and a caller whose tier is
   * an inherited property name only layers whose tier is one too, its own among them.
   */
  lemma CanAccessAsWritten(layers: seq<Layer>, user: Option<Principal>)
    ensures user.None? ==> forall v :: v in ListLayers(user, layers).layers ==> (v.canAccess <==> !InheritedName(v.accessTier))
    ensures InheritedName(UserTier(user)) ==> forall v :: v in ListLayers(user, layers).layers ==>
      (v.canAccess ==> InheritedName(v.accessTier)) && (v.accessTier == UserTier(user) ==> v.canAccess)
    ensures UserTier(user) == SUBSCRIBER_PLUS ==>
      forall v :: v in ListLayers(user, layers).layers ==> (v.canAccess <==> v.accessTier == SUBSCRIBER_PLUS)
  {
    var views := ListLayers(user, layers).layers;
    forall v | v in views
      ensures v.canAccess <==> LayerGate(v.accessTier, UserTier(user))
    {
      var k :| 0 <= k < |views| && views[k] == v;
      assert v == ViewFor(Listed(layers)[k], UserTier(user));
    }
    forall v | v in views
      ensures user.None? ==> (v.canAccess <==> !InheritedName(v.accessTier))
      ensures UserTier(user) == SUBSCRIBER_PLUS ==> (v.canAccess <==> v.accessTier == SUBSCRIBER_PLUS)
      ensures v.accessTier == UserTier(user) ==> v.canAccess
    {
      LayerGateAsWritten(v.accessTier);
      AccessReflexive(v.accessTier);
    }
  }
}
