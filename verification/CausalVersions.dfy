/** Per-path vector clocks: the `CausalVersion` value of the sync state.
    A clock maps a device to the number of changes that device has made. The
    source keeps it as a sorted tuple of pairs with distinct devices; a map says
    the same. */
module CausalVersions {
  datatype Option<+T> = None | Some(value: T)

  type Device = string

  predicate ValidClock(m: map<Device, int>) {
    forall d | d in m :: d != "" && m[d] >= 1
  }

  type Clock = m: map<Device, int> | ValidClock(m)

  function Counter(v: Clock, d: Device): (n: int)
    ensures n >= 0
    ensures n > 0 <==> d in v
  {
    if d in v then v[d] else 0
  }

  function Merge(v: Clock, other: Option<Clock>): (m: Clock)
    ensures forall d :: Counter(m, d) ==
                        if other.None? || Counter(v, d) >= Counter(other.value, d) then Counter(v, d)
                        else Counter(other.value, d)
  {
    match other
    case None => v
    case Some(o) =>
      map d | d in v.Keys + o.Keys :: if Counter(v, d) >= Counter(o, d) then Counter(v, d) else Counter(o, d)
  }

  function Increment(v: Clock, d: Device): (m: Clock)
    requires d != ""
    ensures Counter(m, d) == Counter(v, d) + 1
    ensures forall x :: x != d ==> Counter(m, x) == Counter(v, x)
  {
    v[d := Counter(v, d) + 1]
  }

  /** Strict causal dominance, as the source decides it. */
  predicate Dominates(v: Clock, other: Option<Clock>) {
    && other.Some?
    && v != map[]
    && (forall d | d in other.value :: Counter(v, d) >= other.value[d])
    && (exists d | d in v.Keys + other.value.Keys :: Counter(v, d) > Counter(other.value, d))
  }

  /** The reference order: every counter at least as large. */
  ghost predicate Includes(v: Clock, u: Clock) {
    forall d :: Counter(v, d) >= Counter(u, d)
  }

  lemma CountersDetermineClock(v: Clock, u: Clock)
    requires forall d :: Counter(v, d) == Counter(u, d)
    ensures v == u
  {
    assert forall d :: d in v <==> Counter(v, d) > 0;
    assert forall d :: d in u <==> Counter(u, d) > 0;
    assert v.Keys == u.Keys;
    forall d | d in v ensures v[d] == u[d] {
      assert Counter(v, d) == v[d] && Counter(u, d) == u[d];
    }
  }

  /** Dominance is exactly "includes, and is a different clock". */
  lemma DominatesIsStrictInclusion(v: Clock, u: Clock)
    ensures Dominates(v, Some(u)) <==> Includes(v, u) && v != u
  {
    if Includes(v, u) && v != u {
      if forall d :: Counter(v, d) == Counter(u, d) {
        CountersDetermineClock(v, u);
      }
      var d :| Counter(v, d) != Counter(u, d);
      assert Counter(v, d) > Counter(u, d);
      assert d in v.Keys + u.Keys;
    }
    if Dominates(v, Some(u)) {
      forall d ensures Counter(v, d) >= Counter(u, d) {
      }
    }
  }

  lemma DominanceIsStrictOrder(v: Clock, u: Clock, w: Clock)
    ensures !(Dominates(v, Some(u)) && Dominates(u, Some(v)))
    ensures Dominates(v, Some(u)) && Dominates(u, Some(w)) ==> Dominates(v, Some(w))
  {
    DominatesIsStrictInclusion(v, u);
    DominatesIsStrictInclusion(u, v);
    DominatesIsStrictInclusion(u, w);
    DominatesIsStrictInclusion(v, w);
    if Includes(v, u) && Includes(u, v) {
      CountersDetermineClock(v, u);
    }
  }

  /** Merging gives the least clock that includes both. */
  lemma MergeIsLeastUpperBound(v: Clock, u: Clock, w: Clock)
    ensures Includes(Merge(v, Some(u)), v) && Includes(Merge(v, Some(u)), u)
    ensures Includes(w, v) && Includes(w, u) <==> Includes(w, Merge(v, Some(u)))
  {
    var m := Merge(v, Some(u));
    assert Includes(m, v) && Includes(m, u);
    if Includes(w, m) {
      forall d ensures Counter(w, d) >= Counter(v, d) && Counter(w, d) >= Counter(u, d) {
        assert Counter(w, d) >= Counter(m, d);
      }
    }
  }

  /** The version given to a new local change is after everything it was based on. */
  lemma NewVersionDominates(v: Clock, other: Option<Clock>, d: Device)
    requires d != ""
    ensures Dominates(Increment(Merge(v, other), d), Some(v))
    ensures other.Some? ==> Dominates(Increment(Merge(v, other), d), other)
  {
    var m := Merge(v, other);
    var n := Increment(m, d);
    assert Counter(n, d) > Counter(v, d);
    DominatesIsStrictInclusion(n, v);
    if other.Some? {
      assert Counter(n, d) > Counter(other.value, d);
      DominatesIsStrictInclusion(n, other.value);
    }
  }
}
