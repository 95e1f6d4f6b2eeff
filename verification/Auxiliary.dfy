/** Read-modify-write of the four-toggle auxiliary-locking mask. */
module Auxiliary {
  import opened Types

  const TOGGLES: set<Toggle> := {TouchToLock, CloseToLock, ResumeLock, AnyUnlockLock}

  lemma FourToggles(t: Toggle)
    ensures t in TOGGLES
  {
    match t { case _ => }
  }

  predicate Full(m: Mask) {
    m.Keys == TOGGLES
  }

  /** A cached mask with absent toggles off. */
  function Filled(cached: Option<Mask>): (m: Mask)
    ensures Full(m)
    ensures cached.Some? && Full(cached.value) ==> m == cached.value
  {
    map t | t in TOGGLES :: cached.Some? && t in cached.value && cached.value[t]
  }

  /** The full mask a toggle sends: the cached one with one toggle set. */
  function BuildMask(cached: Option<Mask>, toggle: Toggle, enabled: bool): (m: Mask)
    ensures Full(m) && toggle in m && m[toggle] == enabled
    ensures cached.Some? && Full(cached.value) ==> m == cached.value[toggle := enabled]
  {
    FourToggles(toggle);
    Filled(cached)[toggle := enabled]
  }

  predicate AgreeExceptOn(a: Mask, b: Mask, toggle: Toggle) {
    forall t | t in TOGGLES && t != toggle :: t in a && t in b && a[t] == b[t]
  }

  /** Setting a toggle in two masks gives the same mask exactly when they agree on the others. */
  lemma SameUpToOne(a: Mask, b: Mask, toggle: Toggle, enabled: bool)
    requires Full(a) && Full(b)
    ensures a[toggle := enabled] == b[toggle := enabled] <==> AgreeExceptOn(a, b, toggle)
  {
    if a[toggle := enabled] == b[toggle := enabled] {
      forall t | t in TOGGLES && t != toggle ensures a[t] == b[t] {
        assert a[toggle := enabled][t] == b[toggle := enabled][t];
      }
    }
  }
}
