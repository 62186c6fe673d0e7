/**
 * Country content (apps/api/src/routes/content.ts): GET /content checks the
 * iso3 code, the layer and the tier gate in that order, then lists the
 * layer's active items for the country, FREE ones only for an INVITED
 * caller, newest publication first, at most 50, without their body.
 */
module Content {
  import opened Wrappers
  import opened Text
  import opened Queries
  import opened Tiers
  import opened Models
  import opened OptionalAuth

  datatype ContentRequest = ContentRequest(iso3: Option<string>, layer: Option<string>)

  datatype ContentFailure = BadIso3 | LayerRequired | LayerNotFound | PlanRequired(requiredTier: string, userTier: string)
  {
    function Status(): nat {
      match this
      case BadIso3 => 400
      case LayerRequired => 400
      case LayerNotFound => 404
      case PlanRequired(_, _) => 403
    }
  }

  /** `String(req.query.iso3 || "").toUpperCase()`: upper-cased, not trimmed. */
  function Iso3Of(q: ContentRequest): string {
    ToUpper(OrElse(q.iso3, ""))
  }

  function LayerKeyOf(q: ContentRequest): string {
    OrElse(q.layer, "")
  }

  /** The checks of GET /content, in the order the handler makes them. */
  function ContentRefusal(q: ContentRequest, user: Option<Principal>, layers: seq<Layer>): (f: Option<ContentFailure>)
    ensures |Iso3Of(q)| != 3 ==> f == Some(BadIso3)
    ensures |Iso3Of(q)| == 3 && LayerKeyOf(q) == "" ==> f == Some(LayerRequired)
    ensures |Iso3Of(q)| == 3 && LayerKeyOf(q) != "" && ActiveLayer(layers, LayerKeyOf(q)).None? ==> f == Some(LayerNotFound)
    ensures f.None? <==> |Iso3Of(q)| == 3 && LayerKeyOf(q) != "" && ActiveLayer(layers, LayerKeyOf(q)).Some?
                         && LayerGate(ActiveLayer(layers, LayerKeyOf(q)).value.accessTier, UserTier(user))
    ensures f.Some? && f.value.PlanRequired? ==>
      f.value.requiredTier == ActiveLayer(layers, LayerKeyOf(q)).value.accessTier && f.value.userTier == UserTier(user)
  {
    if |Iso3Of(q)| != 3 then Some(BadIso3)
    else if LayerKeyOf(q) == "" then Some(LayerRequired)
    else
      match ActiveLayer(layers, LayerKeyOf(q))
      case None => Some(LayerNotFound)
      case Some(layer) =>
        if !LayerGate(layer.accessTier, UserTier(user)) then Some(PlanRequired(layer.accessTier, UserTier(user)))
        else None
  }

  /** Surrounding spaces are not removed: " ar" is accepted as the code " AR", and "ARG " is refused. */
  lemma Iso3IsNotTrimmed(layer: Option<string>)
    ensures Iso3Of(ContentRequest(Some(" ar"), layer)) == " AR"
    ensures |Iso3Of(ContentRequest(Some("ARG "), layer))| != 3
  {
  }

  /** What a returned item exposes: no `body`. */
  datatype ContentView = ContentView(
    id: string, title: string, summary: string, visibility: Visibility,
    tags: seq<string>, publishedAt: Time, tenantId: string)

  function ViewOf(c: ContentItem): ContentView {
    ContentView(c.id, c.title, c.summary, c.visibility, c.tags, c.publishedAt, c.tenantId)
  }

  /** An item's body never reaches the response: two items that differ only in their body look the same. */
  lemma BodyIsNeverExposed(c: ContentItem, otherBody: string)
    ensures ViewOf(c.(body := otherBody)) == ViewOf(c)
  {
  }

  function ContentMatches(iso3: string, layerKey: string, allowPaid: bool): ContentItem -> bool {
    (c: ContentItem) => c.iso3 == iso3 && c.layerKey == layerKey && c.isActive && (allowPaid || c.visibility == Free)
  }

  /** `.sort({ publishedAt: -1 })`. */
  function PublishedLater(a: ContentItem, b: ContentItem): bool {
    a.publishedAt >= b.publishedAt
  }

  lemma PublishedLaterIsTotalPreorder()
    ensures Total(PublishedLater) && Transitive(PublishedLater)
  {
  }

  const CONTENT_LIMIT: nat := 50

  function ContentCandidates(q: ContentRequest, user: Option<Principal>, items: seq<ContentItem>): seq<ContentItem> {
    Filter(items, ContentMatches(Iso3Of(q), LayerKeyOf(q), UserTier(user) != INVITED))
  }

  function ContentSelection(q: ContentRequest, user: Option<Principal>, items: seq<ContentItem>): (sel: seq<ContentItem>)
    ensures |sel| <= CONTENT_LIMIT
  {
    TopK(ContentCandidates(q, user, items), PublishedLater, CONTENT_LIMIT)
  }

  datatype ContentResponse = ContentResponse(iso3: string, layerKey: string, userTier: string, items: seq<ContentView>)

  /** GET /content?iso3=...&layer=... */
  function ListContent(q: ContentRequest, user: Option<Principal>, layers: seq<Layer>, items: seq<ContentItem>): (r: Result<ContentResponse, ContentFailure>)
    ensures r.Failure? <==> ContentRefusal(q, user, layers).Some?
    ensures r.Failure? ==> r.error == ContentRefusal(q, user, layers).value
    ensures r.Success? ==> r.value.iso3 == Iso3Of(q) && r.value.layerKey == LayerKeyOf(q) && r.value.userTier == UserTier(user)
    ensures r.Success? ==> |r.value.items| == |ContentSelection(q, user, items)| <= CONTENT_LIMIT
    ensures r.Success? ==> forall k :: 0 <= k < |r.value.items| ==> r.value.items[k] == ViewOf(ContentSelection(q, user, items)[k])
  {
    match ContentRefusal(q, user, layers)
    case Some(f) => Failure(f)
    case None =>
      Success(ContentResponse(Iso3Of(q), LayerKeyOf(q), UserTier(user), MapSeq(ContentSelection(q, user, items), ViewOf)))
  }

  /** The listed items are active items of that country and layer, the 50 most recently published, newest first. */
  lemma ContentSelectionSpec(q: ContentRequest, user: Option<Principal>, items: seq<ContentItem>)
    ensures IsTopK(ContentSelection(q, user, items), ContentCandidates(q, user, items), PublishedLater, CONTENT_LIMIT)
    ensures forall c :: c in ContentSelection(q, user, items) ==>
      c in items && c.isActive && c.iso3 == Iso3Of(q) && c.layerKey == LayerKeyOf(q)
  {
    PublishedLaterIsTotalPreorder();
    TopKCorrect(ContentCandidates(q, user, items), PublishedLater, CONTENT_LIMIT);
    TopKMembers(ContentCandidates(q, user, items), PublishedLater, CONTENT_LIMIT);
  }

  /** An INVITED caller (a guest included) never receives a PAID item; any other tier is not filtered by visibility. */
  lemma InvitedGetsNoPaidItems(q: ContentRequest, user: Option<Principal>, items: seq<ContentItem>)
    ensures UserTier(user) == INVITED ==> forall c :: c in ContentSelection(q, user, items) ==> c.visibility == Free
    ensures UserTier(user) != INVITED ==>
      forall c :: c in items && c.isActive && c.iso3 == Iso3Of(q) && c.layerKey == LayerKeyOf(q) ==> c in ContentCandidates(q, user, items)
  {
    TopKMembers(ContentCandidates(q, user, items), PublishedLater, CONTENT_LIMIT);
    if UserTier(user) != INVITED {
      forall c | c in items && c.isActive && c.iso3 == Iso3Of(q) && c.layerKey == LayerKeyOf(q) ensures c in ContentCandidates(q, user, items) {
        var i :| 0 <= i < |items| && items[i] == c;
      }
    }
  }

  /** The tier gate is the swapped call: a guest passes it on every active layer whose tier is not an inherited property name. */
  lemma GuestPassesEveryLayer(q: ContentRequest, layers: seq<Layer>)
    requires |Iso3Of(q)| == 3 && LayerKeyOf(q) != "" && ActiveLayer(layers, LayerKeyOf(q)).Some?
    ensures ContentRefusal(q, None, layers).None? <==> !InheritedName(ActiveLayer(layers, LayerKeyOf(q)).value.accessTier)
  {
    LayerGateAsWritten(ActiveLayer(layers, LayerKeyOf(q)).value.accessTier);
  }
}
