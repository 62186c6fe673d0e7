/**
 * Two path helpers of the web app: the header's active-link test
 * (apps/web/src/app/_components/AppHeader.tsx) and the breadcrumb trail
 * (apps/web/src/app/_components/Breadcrumbs.tsx).
 */
module Nav {
  import opened Text

  /** `isActive(pathname, href)`: the page itself, or a page below it. */
  function IsActive(pathname: string, href: string): (active: bool)
    ensures pathname == href ==> active
    ensures active ==> href <= pathname
    ensures active && pathname != href ==> |pathname| > |href| && pathname[|href|] == '/'
  {
    pathname == href || (href + "/") <= pathname
  }

  lemma ActiveOnItself(href: string)
    ensures IsActive(href, href)
  {
  }

  lemma ActiveBelow(href: string, rest: string)
    ensures IsActive(href + "/" + rest, href)
  {
    assert href + "/" + rest == (href + "/") + rest;
  }

  /** A sibling that only shares a prefix, such as "/mapx" for "/map", is not active. */
  lemma SiblingNotActive(href: string, pathname: string)
    requires href < pathname && pathname[|href|] != '/'
    ensures !IsActive(pathname, href)
  {
  }

  lemma MapxIsNotMap()
    ensures !IsActive("/mapx", "/map") && IsActive("/map/ARG", "/map") && IsActive("/map", "/map")
  {
    SiblingNotActive("/map", "/mapx");
    ActiveBelow("/map", "ARG");
  }

  /** The Home link is active only on "/" itself, or on a path that starts with "//". */
  lemma HomeActive(pathname: string)
    ensures IsActive(pathname, "/") <==> pathname == "/" || "//" <= pathname
    ensures !IsActive("/map", "/")
  {
    assert "/" + "/" == "//";
    assert "/map"[1] == 'm';
  }

  /** `labelFor(segment)`. */
  function LabelFor(segment: string): (caption: string)
    ensures segment == "maps" ==> caption == "Mapa"
    ensures segment == "analysts" ==> caption == "Analistas"
    ensures segment == "account" ==> caption == "Cuenta"
    ensures segment == "login" ==> caption == "Login"
    ensures segment !in {"maps", "analysts", "account", "login"} ==>
      |caption| == |segment| && (segment != [] ==> caption[0] == UpperChar(segment[0]) && caption[1..] == segment[1..])
  {
    if segment == "maps" then "Mapa"
    else if segment == "analysts" then "Analistas"
    else if segment == "account" then "Cuenta"
    else if segment == "login" then "Login"
    else if segment == [] then []
    else [UpperChar(segment[0])] + segment[1..]
  }

  datatype Crumb = Crumb(href: string, caption: string)

  /** `pathname.split("/").filter(Boolean)`. */
  function Segments(pathname: string): (parts: seq<string>)
    ensures forall p :: p in parts ==> p != [] && '/' !in p
  {
    NonEmpty(Split(pathname, '/'))
  }

  /** Every character of the path other than "/" ends up in some segment, in order. */
  lemma SegmentsKeepCharacters(pathname: string)
    ensures Concat(Segments(pathname)) == Without(pathname, '/')
  {
    SplitKeepsCharacters(pathname, '/');
    NonEmptyKeepsCharacters(Split(pathname, '/'));
  }

  /** The trail: Home, then one crumb per segment, each linking to the path up to that segment. */
  function Crumbs(pathname: string): (crumbs: seq<Crumb>)
    ensures |crumbs| == |Segments(pathname)| + 1
    ensures crumbs[0] == Crumb("/", "Home")
    ensures forall k :: 0 <= k < |Segments(pathname)| ==>
      crumbs[k + 1] == Crumb("/" + Join(Segments(pathname)[..k + 1], '/'), LabelFor(Segments(pathname)[k]))
  {
    var parts := Segments(pathname);
    [Crumb("/", "Home")] + seq(|parts|, k requires 0 <= k < |parts| => Crumb("/" + Join(parts[..k + 1], '/'), LabelFor(parts[k])))
  }

  /** Each crumb's link extends the previous one by "/" and the next segment. */
  lemma CrumbsNest(pathname: string, k: nat)
    requires 1 <= k < |Segments(pathname)|
    ensures Crumbs(pathname)[k + 1].href == Crumbs(pathname)[k].href + "/" + Segments(pathname)[k]
    ensures Crumbs(pathname)[k].href <= Crumbs(pathname)[k + 1].href
  {
    var parts := Segments(pathname);
    var prev := Join(parts[..k], '/');
    assert parts[..k + 1] == parts[..k] + [parts[k]];
    JoinSnoc(parts[..k], parts[k], '/');
    SlashExtends(prev, parts[k]);
  }

  lemma SlashExtends(prev: string, segment: string)
    ensures "/" + (prev + "/" + segment) == ("/" + prev) + "/" + segment
    ensures "/" + prev <= ("/" + prev) + "/" + segment
  {
    assert ("/" + prev) + "/" + segment == ("/" + prev) + ("/" + segment);
  }

  /** A rooted path built from clean segments splits back into them. */
  lemma RootedJoinReparses(parts: seq<string>)
    requires parts != []
    requires forall i :: 0 <= i < |parts| ==> parts[i] != [] && '/' !in parts[i]
    ensures Segments("/" + Join(parts, '/')) == parts
  {
    var href := "/" + Join(parts, '/');
    SplitJoin(parts, '/');
    assert href[1..] == Join(parts, '/');
    assert Split(href, '/') == [""] + parts;
    assert ([""] + parts)[1..] == parts;
    NonEmptyKeepsFullParts(parts);
  }

  /** A crumb's link, split again, gives back exactly the segments up to that crumb. */
  lemma CrumbReparses(pathname: string, k: nat)
    requires k < |Segments(pathname)|
    ensures Segments(Crumbs(pathname)[k + 1].href) == Segments(pathname)[..k + 1]
  {
    var all := Segments(pathname);
    var parts := all[..k + 1];
    forall i | 0 <= i < |parts| ensures parts[i] != [] && '/' !in parts[i] {
      assert parts[i] == all[i];
      assert all[i] in all;
    }
    RootedJoinReparses(parts);
  }
}
