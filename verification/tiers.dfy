/**
 * Plan tiers (apps/api/src/lib/tiers.ts): a three-step rank table and the
 * `hasTierAccess` comparison that gates every layer read.
 *
 * Tier values are strings, as in the source: the user's tier arrives from a
 * token payload unchecked. `rank` is a plain object literal, so the lookup
 * `rank[t] ?? 0` has three outcomes: the table's number for a plan tier; the
 * inherited Object.prototype member for one of its property names (a function,
 * or Object.prototype itself for "__proto__", neither of which `??` replaces);
 * and 0 for any other string. `>=` converts an object operand to a string
 * (section 7.1.1 of ECMA-262, ToPrimitive with hint number: `valueOf` returns
 * the object, so `toString` is used). Two such strings are compared code unit
 * by code unit; a string against a number becomes NaN, and the comparison is
 * false.
 */
module Tiers {
  import opened Text

  const INVITED := "INVITED"
  const SUBSCRIBER := "SUBSCRIBER"
  const SUBSCRIBER_PLUS := "SUBSCRIBER_PLUS"

  predicate IsPlanTier(t: string) {
    t == INVITED || t == SUBSCRIBER || t == SUBSCRIBER_PLUS
  }

  /** The property names every object literal inherits from Object.prototype in ECMAScript, Annex B accessors included. */
  predicate InheritedName(t: string) {
    t in {"constructor", "hasOwnProperty", "isPrototypeOf", "propertyIsEnumerable", "toLocaleString",
          "toString", "valueOf", "__proto__", "__defineGetter__", "__defineSetter__",
          "__lookupGetter__", "__lookupSetter__"}
  }

  /**
   * The string an inherited member turns into under ToPrimitive: "[object Object]"
   * for Object.prototype, and the native-function text of `Function.prototype.toString`
   * for a method (`constructor` is the function `Object`).
   */
  function PrimitiveText(t: string): string {
    if t == "__proto__" then "[object Object]"
    else if t == "constructor" then "function " + ("Object" + NATIVE_BODY)
    else "function " + (t + NATIVE_BODY)
  }

  const NATIVE_BODY := "() { [native code] }"

  /** What `rank[t] ?? 0` is worth as an operand of `>=`: a number, or the string its object converts to. */
  datatype RankValue = Num(n: nat) | Str(text: string)

  /** `a >= b` after ToPrimitive: numbers numerically, two strings by code units, a string against a number never. */
  predicate AtLeast(a: RankValue, b: RankValue) {
    match (a, b)
    case (Num(x), Num(y)) => x >= y
    case (Str(x), Str(y)) => LexLe(y, x)
    case _ => false
  }

  /** `rank[t] ?? 0`. */
  function Rank(t: string): (r: RankValue)
    ensures r.Str? <==> InheritedName(t)
    ensures r.Str? ==> r.text == PrimitiveText(t)
    ensures r.Num? ==> r.n <= 2
  {
    if t == INVITED then Num(0)
    else if t == SUBSCRIBER then Num(1)
    else if t == SUBSCRIBER_PLUS then Num(2)
    else if InheritedName(t) then Str(PrimitiveText(t))
    else Num(0)
  }

  /** `hasTierAccess(userTier, minTier)`. */
  function HasTierAccess(userTier: string, minTier: string): (ok: bool)
    ensures ok ==> InheritedName(userTier) == InheritedName(minTier)
    ensures !InheritedName(userTier) && !InheritedName(minTier) ==> (ok <==> Rank(userTier).n >= Rank(minTier).n)
    ensures InheritedName(userTier) && InheritedName(minTier) ==> (ok <==> LexLe(PrimitiveText(minTier), PrimitiveText(userTier)))
  {
    AtLeast(Rank(userTier), Rank(minTier))
  }

  lemma RankTable()
    ensures Rank(INVITED) == Num(0) && Rank(SUBSCRIBER) == Num(1) && Rank(SUBSCRIBER_PLUS) == Num(2)
  {
  }

  /** Outside the table: an inherited property name is its object's string, and every other value ranks 0, as INVITED does. */
  lemma UnknownRanksAsInvited(t: string)
    requires !IsPlanTier(t)
    ensures Rank(t) == (if InheritedName(t) then Str(PrimitiveText(t)) else Rank(INVITED))
  {
  }

  /** An inherited property name fails the comparison, in either position, against every other kind of tier. */
  lemma InheritedNameLocksOut(t: string, other: string)
    requires InheritedName(t) && !InheritedName(other)
    ensures !HasTierAccess(t, other) && !HasTierAccess(other, t)
  {
  }

  /** `rank.valueOf ?? 0` compares above `rank.toString ?? 0`, since "function v..." follows "function t...". */
  lemma InheritedNamesCompareAsText()
    ensures HasTierAccess("valueOf", "toString") && !HasTierAccess("toString", "valueOf")
  {
    var a := "toString" + NATIVE_BODY;
    var b := "valueOf" + NATIVE_BODY;
    assert InheritedName("toString") && InheritedName("valueOf");
    assert a[0] == 't' && b[0] == 'v';
    CommonPrefixLexLe("function ", a, b);
    CommonPrefixLexLe("function ", b, a);
  }

  /** Rank is one-to-one on the three plan tiers. */
  lemma RankInjective(a: string, b: string)
    requires IsPlanTier(a) && IsPlanTier(b)
    ensures Rank(a) == Rank(b) <==> a == b
  {
  }

  lemma AccessReflexive(t: string)
    ensures HasTierAccess(t, t)
  {
    LexLeReflexive(PrimitiveText(t));
  }

  /** Two tiers are comparable exactly when both are numbers or both are strings. */
  lemma AccessTotal(a: string, b: string)
    ensures (HasTierAccess(a, b) || HasTierAccess(b, a)) <==> InheritedName(a) == InheritedName(b)
  {
    LexLeTotal(PrimitiveText(a), PrimitiveText(b));
  }

  lemma AccessTransitive(a: string, b: string, c: string)
    requires HasTierAccess(a, b) && HasTierAccess(b, c)
    ensures HasTierAccess(a, c)
  {
    if InheritedName(a) {
      LexLeTransitive(PrimitiveText(c), PrimitiveText(b), PrimitiveText(a));
    }
  }

  /** On the three plan tiers the relation is antisymmetric, so a total order. */
  lemma AccessAntisymmetric(a: string, b: string)
    requires IsPlanTier(a) && IsPlanTier(b)
    requires HasTierAccess(a, b) && HasTierAccess(b, a)
    ensures a == b
  {
  }

  /** Second argument INVITED admits every first argument, and first argument SUBSCRIBER_PLUS passes every second one, except an inherited name. */
  lemma AccessExtremes(t: string)
    ensures HasTierAccess(t, INVITED) <==> !InheritedName(t)
    ensures HasTierAccess(SUBSCRIBER_PLUS, t) <==> !InheritedName(t)
  {
  }

  /**
   * The layer gate exactly as the routes call it: the layer's tier is passed
   * in the `userTier` position and the caller's tier in the `minTier` one.
   */
  predicate LayerGate(layerTier: string, userTier: string) {
    HasTierAccess(layerTier, userTier)
  }

  /** The rule the swapped call really enforces: the layer must rank at least as high as the caller. */
  lemma LayerGateIsSwapped(layerTier: string, userTier: string)
    ensures LayerGate(layerTier, userTier) <==>
      || (!InheritedName(layerTier) && !InheritedName(userTier) && Rank(layerTier).n >= Rank(userTier).n)
      || (InheritedName(layerTier) && InheritedName(userTier) && LexLe(PrimitiveText(userTier), PrimitiveText(layerTier)))
  {
  }

  /** Under the call as written an INVITED caller passes every layer, and only SUBSCRIBER_PLUS layers admit a SUBSCRIBER_PLUS caller. */
  lemma LayerGateAsWritten(layerTier: string)
    ensures LayerGate(layerTier, INVITED) <==> !InheritedName(layerTier)
    ensures LayerGate(layerTier, SUBSCRIBER_PLUS) <==> layerTier == SUBSCRIBER_PLUS
    ensures !LayerGate(SUBSCRIBER, SUBSCRIBER_PLUS) && LayerGate(SUBSCRIBER_PLUS, INVITED)
  {
  }

  /** The gate with its arguments in the declared order: the caller's tier must reach the layer's. */
  predicate IntendedGate(layerTier: string, userTier: string) {
    HasTierAccess(userTier, layerTier)
  }

  /** A higher tier never loses access; on a layer with a plan tier, INVITED layers are open to all and SUBSCRIBER_PLUS reaches every layer. */
  lemma IntendedGateMonotone(layerTier: string, lower: string, higher: string)
    requires IntendedGate(layerTier, lower)
    requires HasTierAccess(higher, lower)
    ensures IntendedGate(layerTier, higher)
    ensures InheritedName(layerTier) == InheritedName(lower) == InheritedName(higher)
    ensures !InheritedName(layerTier) ==> IntendedGate(INVITED, lower) && IntendedGate(layerTier, SUBSCRIBER_PLUS)
  {
    AccessTransitive(higher, lower, layerTier);
  }

  /** The two gates agree exactly when the two tiers have the same rank value. */
  lemma GatesAgreeOnlyOnEqualRank(layerTier: string, userTier: string)
    ensures (LayerGate(layerTier, userTier) && IntendedGate(layerTier, userTier)) <==> Rank(layerTier) == Rank(userTier)
  {
    if InheritedName(layerTier) && InheritedName(userTier) {
      if LayerGate(layerTier, userTier) && IntendedGate(layerTier, userTier) {
        LexLeAntisymmetric(PrimitiveText(layerTier), PrimitiveText(userTier));
      }
      if Rank(layerTier) == Rank(userTier) {
        LexLeReflexive(PrimitiveText(layerTier));
      }
    }
  }
}
