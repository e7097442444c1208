/**
 * Namespaced resource identifiers ("namespace:path"), as produced by
 * WilderSharedConstants.id ("wilderwild:...") and vanillaId ("minecraft:..."),
 * and those of any other mod found in the same saved data.
 */
module Ids {

  /** The mod's namespace, the game's, or another mod's, named by its own string. */
  datatype Namespace = WilderWild | Minecraft | Other(name: string)

  datatype Id = Id(namespace: Namespace, path: string)

  function NamespaceName(ns: Namespace): string {
    match ns
    case WilderWild => "wilderwild"
    case Minecraft => "minecraft"
    case Other(name) => name
  }

  /**
   * A namespace as the game accepts it: another mod's name contains no ':' and
   * is not one of the two names that have their own constructor.
   */
  predicate ValidNamespace(ns: Namespace) {
    ns.Other? ==> ':' !in ns.name && ns.name != "wilderwild" && ns.name != "minecraft"
  }

  /** An identifier in the mod's own namespace. */
  function WW(path: string): Id {
    Id(WilderWild, path)
  }

  /** An identifier in the game's namespace. */
  function Vanilla(path: string): Id {
    Id(Minecraft, path)
  }

  /** The identifier as it is written in saved data. */
  function ToString(id: Id): string {
    NamespaceName(id.namespace) + ":" + id.path
  }

  /** The position of the first ':' in `s`, or `|s|` when there is none. */
  function ColonIndex(s: string): (k: nat)
    ensures k <= |s|
    decreases |s|
  {
    if s == [] || s[0] == ':' then 0 else 1 + ColonIndex(s[1..])
  }

  /** In "namespace:path", the first ':' follows the namespace when the namespace has none. */
  lemma {:induction false} ColonIndexAfter(n: string, p: string)
    requires ':' !in n
    ensures ColonIndex(n + ":" + p) == |n|
    decreases |n|
  {
    if n != [] {
      assert (n + ":" + p)[0] == n[0];
      assert (n + ":" + p)[1..] == n[1..] + ":" + p;
      assert forall c :: c in n[1..] ==> c in n;
      ColonIndexAfter(n[1..], p);
    }
  }

  /**
   * Distinct identifiers are written differently, so the exact string match the
   * rename fixes perform is the same as equality of `Id` values.
   */
  lemma ToStringInjective(a: Id, b: Id)
    requires ValidNamespace(a.namespace) && ValidNamespace(b.namespace)
    ensures ToString(a) == ToString(b) <==> a == b
  {
    if ToString(a) == ToString(b) {
      var na, nb := NamespaceName(a.namespace), NamespaceName(b.namespace);
      ColonIndexAfter(na, a.path);
      ColonIndexAfter(nb, b.path);
      assert ToString(a)[..|na|] == na;
      assert ToString(b)[..|nb|] == nb;
      assert a.namespace == b.namespace;
      assert ToString(a)[|na| + 1..] == a.path;
      assert ToString(b)[|nb| + 1..] == b.path;
    }
  }
}
