/** Causal soundness of the clocks over every multi-device run, for one path.
    The machine below performs the version arithmetic of the sync state and, beside
    it, keeps the true causal history: which earlier changes a change was made on. */
module CausalHistory {
  import opened CausalVersions
  import opened SyncState

  /** A change observed on a device: the clock it was given and the indices of the
      changes in its causal past, itself included. */
  datatype Change = Change(device: Device, clock: Clock, past: set<nat>)

  /** Versions travel together with the index of the change that made them. The
      code only carries the clock. */
  datatype Replica = Replica(seen: Option<Option<Seen>>, version: Option<nat>, base: Option<nat>)

  datatype System = System(log: seq<Change>, replicas: map<Device, Replica>)

  datatype Step =
    | Observe(device: Device, seen: Option<Seen>)
    | Record(device: Device, content: Option<Seen>, version: Option<nat>)

  function ReplicaOf(s: System, d: Device): Replica {
    if d in s.replicas then s.replicas[d] else Replica(None, None, None)
  }

  predicate InLog(s: System, v: Option<nat>) {
    v.Some? && v.value < |s.log|
  }

  function ClockOf(s: System, v: Option<nat>): Option<Clock> {
    if InLog(s, v) then Some(s.log[v.value].clock) else None
  }

  function PastOf(s: System, v: Option<nat>): set<nat> {
    if InLog(s, v) then s.log[v.value].past else {}
  }

  function RowOf(s: System, d: Device): Option<Observation> {
    var r := ReplicaOf(s, d);
    if r.seen.None? then None else Some(Observation(r.seen.value, ClockOf(s, r.version)))
  }

  predicate Enabled(s: System, step: Step) {
    && step.device != ""
    && (step.Record? && step.version.Some? ==> InLog(s, step.version))
  }

  predicate Relabels(s: System, step: Step) {
    step.Record? && step.version.Some? && ReplicaOf(s, step.device).seen == Some(step.content)
  }

  predicate IsNewChange(s: System, step: Step) {
    step.Observe? && ReplicaOf(s, step.device).seen != Some(step.seen)
  }

  function ChangeMade(s: System, step: Step): Change
    requires IsNewChange(s, step) && step.device != ""
  {
    var r := ReplicaOf(s, step.device);
    Change(step.device,
           ObservedVersion(ClockOf(s, r.base), RowOf(s, step.device), step.seen, step.device).value,
           {|s.log|} + PastOf(s, r.base) + PastOf(s, r.version))
  }

  function Next(s: System, step: Step): System
    requires Enabled(s, step)
  {
    var d := step.device;
    var r := ReplicaOf(s, d);
    match step
    case Observe(_, seen) =>
      if !IsNewChange(s, step) then s
      else System(s.log + [ChangeMade(s, step)], s.replicas[d := Replica(Some(seen), Some(|s.log|), r.base)])
    case Record(_, _, version) =>
      s.(replicas := s.replicas[d := r.(base := version, version := if Relabels(s, step) then version else r.version)])
  }

  /** What a record that re-labels an observation must respect: it may not take
      back a change of this device. */
  predicate KeepsOwnChanges(s: System, step: Step)
    requires Enabled(s, step)
  {
    Relabels(s, step) ==> OwnCounter(s, step.version, step.device) >= OwnCounter(s, ReplicaOf(s, step.device).version, step.device)
  }

  function OwnCounter(s: System, v: Option<nat>, d: Device): int {
    if InLog(s, v) then Counter(s.log[v.value].clock, d) else 0
  }

  /* ---- the invariant ---- */

  function Count(log: seq<Change>, d: Device): nat {
    if log == [] then 0
    else Count(log[..|log| - 1], d) + if log[|log| - 1].device == d then 1 else 0
  }

  function Own(c: Change): int {
    Counter(c.clock, c.device)
  }

  ghost predicate NumberedAt(s: System, i: nat)
    requires i < |s.log|
  {
    && s.log[i].device != ""
    && Own(s.log[i]) == Count(s.log[..i + 1], s.log[i].device)
    && Own(s.log[i]) >= 1
    && forall d :: Counter(s.log[i].clock, d) <= Count(s.log, d)
  }

  /** The version a device holds for its own content counts all its changes. */
  ghost predicate UpToDate(s: System, d: Device) {
    var r := ReplicaOf(s, d);
    && (r.version.None? <==> r.seen.None?)
    && (r.version.Some? ==> InLog(s, r.version))
    && (r.base.Some? ==> InLog(s, r.base))
    && OwnCounter(s, r.version, d) == Count(s.log, d)
  }

  /** The clock is an exact summary of the causal past. */
  ghost predicate SummarisedAt(s: System, i: nat)
    requires i < |s.log|
  {
    && (forall j :: 0 <= j < |s.log| ==> (j in s.log[i].past <==> Counter(s.log[i].clock, s.log[j].device) >= Own(s.log[j])))
    && (forall j :: j in s.log[i].past ==> j <= i && Includes(s.log[i].clock, s.log[j].clock))
  }

  ghost predicate Inv(s: System) {
    && (forall i :: 0 <= i < |s.log| ==> NumberedAt(s, i))
    && (forall i :: 0 <= i < |s.log| ==> SummarisedAt(s, i))
    && (forall d :: UpToDate(s, d))
  }

  lemma {:induction false} CountBounds(log: seq<Change>, i: nat, d: Device)
    requires i <= |log|
    ensures Count(log[..i], d) <= Count(log, d)
    decreases |log| - i
  {
    if i == |log| {
      assert log[..i] == log;
    } else {
      CountBounds(log, i + 1, d);
      assert log[..i + 1][..i] == log[..i];
    }
  }

  lemma CountAppend(log: seq<Change>, c: Change, d: Device)
    ensures Count(log + [c], d) == Count(log, d) + if c.device == d then 1 else 0
  {
    assert (log + [c])[..|log|] == log;
  }

  /** One (device, counter) pair names one change. */
  lemma IdentifiersAreUnique(s: System, i: nat, j: nat)
    requires Inv(s) && i < j < |s.log|
    ensures s.log[i].device != s.log[j].device || Own(s.log[i]) != Own(s.log[j])
  {
    assert NumberedAt(s, i) && NumberedAt(s, j);
    if s.log[i].device == s.log[j].device {
      var d := s.log[j].device;
      CountBounds(s.log[..j], i + 1, d);
      assert s.log[..j][..i + 1] == s.log[..i + 1];
      assert s.log[..j + 1][..j] == s.log[..j];
    }
  }

  /** Every number up to the count has been used. */
  lemma {:induction false} EveryNumberIsUsed(s: System, n: nat, d: Device, k: int)
    requires Inv(s) && n <= |s.log| && 1 <= k <= Count(s.log[..n], d)
    ensures exists i :: 0 <= i < n && s.log[i].device == d && Own(s.log[i]) == k
    decreases n
  {
    if n > 0 {
      assert s.log[..n][..n - 1] == s.log[..n - 1];
      assert NumberedAt(s, n - 1);
      if s.log[n - 1].device == d && k == Count(s.log[..n], d) {
        assert Own(s.log[n - 1]) == k;
      } else {
        EveryNumberIsUsed(s, n - 1, d, k);
      }
    }
  }

  lemma RecordKeepsInv(s: System, step: Step)
    requires Inv(s) && step.Record? && Enabled(s, step) && KeepsOwnChanges(s, step)
    ensures Inv(Next(s, step))
  {
    var t := Next(s, step);
    forall i | 0 <= i < |t.log| ensures NumberedAt(t, i) && SummarisedAt(t, i) {
      assert NumberedAt(s, i) && SummarisedAt(s, i);
    }
    forall d ensures UpToDate(t, d) {
      assert UpToDate(s, d);
      if d == step.device && Relabels(s, step) {
        assert NumberedAt(s, step.version.value);
      }
    }
  }

  /** The number a new change gets is the next one of its device. */
  lemma NewChangeIsNumbered(s: System, step: Step)
    requires Inv(s) && IsNewChange(s, step) && step.device != ""
    ensures var c := ChangeMade(s, step);
            && Own(c) == Count(s.log, step.device) + 1
            && forall d :: d != step.device ==> Counter(c.clock, d) <= Count(s.log, d)
  {
    var r := ReplicaOf(s, step.device);
    assert UpToDate(s, step.device);
    if r.base.Some? { assert NumberedAt(s, r.base.value); }
    if r.version.Some? { assert NumberedAt(s, r.version.value); }
  }

  lemma PastOfVersion(s: System, v: Option<nat>, j: nat)
    requires Inv(s) && j < |s.log| && (v.Some? ==> InLog(s, v))
    ensures j in PastOf(s, v) <==> v.Some? && Counter(ClockOf(s, v).value, s.log[j].device) >= Own(s.log[j])
    ensures j in PastOf(s, v) ==> Includes(ClockOf(s, v).value, s.log[j].clock)
  {
    if v.Some? {
      assert SummarisedAt(s, v.value);
    }
  }

  lemma NewVersionIncludes(start: Clock, prev: Option<Clock>, d: Device, u: Clock)
    requires d != "" && (Includes(start, u) || (prev.Some? && Includes(prev.value, u)))
    ensures Includes(Increment(Merge(start, prev), d), u)
  {
    var m := Merge(start, prev);
    forall x ensures Counter(Increment(m, d), x) >= Counter(u, x) {
      assert Counter(m, x) >= Counter(start, x);
      assert prev.Some? ==> Counter(m, x) >= Counter(prev.value, x);
    }
  }

  /** Its clock summarises what it was made on. */
  lemma NewChangeIsSummarised(s: System, step: Step, j: nat)
    requires Inv(s) && IsNewChange(s, step) && step.device != "" && j < |s.log|
    ensures var c := ChangeMade(s, step);
            && (j in c.past <==> Counter(c.clock, s.log[j].device) >= Own(s.log[j]))
            && (j in c.past ==> Includes(c.clock, s.log[j].clock))
  {
    var r := ReplicaOf(s, step.device);
    var c := ChangeMade(s, step);
    var d := step.device;
    assert UpToDate(s, d);
    var prev := ClockOf(s, r.version);
    var start: Clock := if r.base.Some? then ClockOf(s, r.base).value else map[];
    assert c.clock == Increment(Merge(start, prev), d);
    PastOfVersion(s, r.base, j);
    PastOfVersion(s, r.version, j);
    if j in c.past {
      NewVersionIncludes(start, prev, d, s.log[j].clock);
      assert Counter(c.clock, s.log[j].device) >= Counter(s.log[j].clock, s.log[j].device);
    } else {
      assert NumberedAt(s, j);
      assert Counter(start, s.log[j].device) < Own(s.log[j]);
    }
  }

  lemma PastIsEarlier(s: System, step: Step)
    requires Inv(s) && IsNewChange(s, step) && step.device != ""
    ensures forall j :: j in ChangeMade(s, step).past ==> j <= |s.log|
  {
    hide NumberedAt, ObservedVersion, Own, Includes;
    var r := ReplicaOf(s, step.device);
    assert UpToDate(s, step.device);
    if r.base.Some? { assert SummarisedAt(s, r.base.value); }
    if r.version.Some? { assert SummarisedAt(s, r.version.value); }
  }

  lemma PastOfNewChange(s: System, step: Step)
    requires Inv(s) && IsNewChange(s, step) && step.device != ""
    ensures SummarisedAt(Next(s, step), |s.log|)
  {
    hide NumberedAt, UpToDate, Merge, Increment, ObservedVersion, Inv;
    var t := Next(s, step);
    var c := ChangeMade(s, step);
    PastIsEarlier(s, step);
    assert |s.log| in c.past;
    forall j | 0 <= j < |s.log|
      ensures j in c.past <==> Counter(c.clock, s.log[j].device) >= Own(s.log[j])
      ensures j in c.past ==> Includes(c.clock, s.log[j].clock)
    {
      NewChangeIsSummarised(s, step, j);
    }
  }

  lemma ObservedAreNumbered(s: System, step: Step, i: nat)
    requires Inv(s) && IsNewChange(s, step) && step.device != "" && i <= |s.log|
    ensures NumberedAt(Next(s, step), i)
  {
    hide SummarisedAt;
    var t := Next(s, step);
    var c := ChangeMade(s, step);
    NewChangeIsNumbered(s, step);
    forall d ensures Count(t.log, d) == Count(s.log, d) + if c.device == d then 1 else 0 {
      CountAppend(s.log, c, d);
    }
    if i < |s.log| {
      assert NumberedAt(s, i);
      assert t.log[..i + 1] == s.log[..i + 1];
    } else {
      assert t.log[..i + 1] == t.log;
    }
  }

  /** No earlier change has the new one in its past. */
  lemma EarlierStaySummarised(s: System, step: Step, i: nat)
    requires Inv(s) && IsNewChange(s, step) && step.device != "" && i < |s.log|
    ensures SummarisedAt(Next(s, step), i)
  {
    NewChangeIsNumbered(s, step);
    assert SummarisedAt(s, i) && NumberedAt(s, i);
  }

  lemma ObserveKeepsInv(s: System, step: Step)
    requires Inv(s) && IsNewChange(s, step) && step.device != ""
    ensures Inv(Next(s, step))
  {
    hide NumberedAt, SummarisedAt;
    var t := Next(s, step);
    var c := ChangeMade(s, step);
    forall i | 0 <= i < |t.log| ensures NumberedAt(t, i) && SummarisedAt(t, i) {
      ObservedAreNumbered(s, step, i);
      if i < |s.log| {
        EarlierStaySummarised(s, step, i);
      } else {
        PastOfNewChange(s, step);
      }
    }
    NewChangeIsNumbered(s, step);
    forall d ensures UpToDate(t, d) {
      CountAppend(s.log, c, d);
      assert UpToDate(s, d);
    }
  }

  /* ---- the machine is the store ---- */

  /** The observation row of the machine changes as the store's does. */
  lemma ObserveFollowsStore(s: System, step: Step)
    requires step.Observe? && Enabled(s, step)
    ensures RowOf(Next(s, step), step.device)
            == Some(Observation(step.seen, ObservedVersion(ClockOf(s, ReplicaOf(s, step.device).base), RowOf(s, step.device), step.seen, step.device)))
  {
  }

  lemma ClocksAreNotEmpty(s: System, v: Option<nat>)
    requires Inv(s) && InLog(s, v)
    ensures Stored(ClockOf(s, v)) == ClockOf(s, v)
  {
    assert NumberedAt(s, v.value);
  }

  /** So do row and base when a content is recorded with a version, or with none. */
  lemma RecordFollowsStore(s: System, step: Step, fp: Option<Fingerprint>)
    requires Inv(s) && step.Record? && Enabled(s, step)
    requires SeenOf(fp) == step.content && (fp.Some? ==> fp.value.digest != "" && fp.value.causal in {None, ClockOf(s, step.version)})
    ensures var d, t := step.device, Next(s, step);
            && (RowOf(s, d).Some? ==> RowOf(t, d) == Some(RelabelledObservation(RowOf(s, d).value, fp, ClockOf(s, step.version))))
            && ClockOf(t, ReplicaOf(t, d).base) == RecordedEntry(fp, ClockOf(s, step.version)).causal
  {
    if step.version.Some? {
      ClocksAreNotEmpty(s, step.version);
    }
  }

  /* ---- every run ---- */

  predicate Initial(s: System) {
    s.log == [] && s.replicas == map[]
  }

  ghost predicate IsRun(states: seq<System>, steps: seq<Step>) {
    && |states| == |steps| + 1
    && Initial(states[0])
    && forall i :: 0 <= i < |steps| ==> Enabled(states[i], steps[i]) && states[i + 1] == Next(states[i], steps[i])
  }

  ghost predicate RespectsOwnChanges(states: seq<System>, steps: seq<Step>)
    requires IsRun(states, steps)
  {
    forall i :: 0 <= i < |steps| ==> KeepsOwnChanges(states[i], steps[i])
  }

  lemma {:induction false} RunKeepsInv(states: seq<System>, steps: seq<Step>, n: nat)
    requires IsRun(states, steps) && RespectsOwnChanges(states, steps) && n <= |steps|
    ensures Inv(states[n])
  {
    if n > 0 {
      RunKeepsInv(states, steps, n - 1);
      if IsNewChange(states[n - 1], steps[n - 1]) {
        ObserveKeepsInv(states[n - 1], steps[n - 1]);
      } else if steps[n - 1].Record? {
        RecordKeepsInv(states[n - 1], steps[n - 1]);
      }
    }
  }

  /** In every run, one version dominates another exactly when the change that made
      the other is in its causal past; and identifiers are never reused. */
  lemma DominanceIsCausality(states: seq<System>, steps: seq<Step>, n: nat)
    requires IsRun(states, steps) && RespectsOwnChanges(states, steps) && n <= |steps|
    ensures var log := states[n].log;
            forall i, j :: 0 <= i < |log| && 0 <= j < |log| && i != j ==>
              && (Dominates(log[i].clock, Some(log[j].clock)) <==> j in log[i].past)
              && (log[i].device, Own(log[i])) != (log[j].device, Own(log[j]))
  {
    RunKeepsInv(states, steps, n);
    var s := states[n];
    forall i, j | 0 <= i < |s.log| && 0 <= j < |s.log| && i != j
      ensures Dominates(s.log[i].clock, Some(s.log[j].clock)) <==> j in s.log[i].past
      ensures (s.log[i].device, Own(s.log[i])) != (s.log[j].device, Own(s.log[j]))
    {
      if i < j { IdentifiersAreUnique(s, i, j); } else { IdentifiersAreUnique(s, j, i); }
      DominatesIsStrictInclusion(s.log[i].clock, s.log[j].clock);
      assert SummarisedAt(s, i) && SummarisedAt(s, j);
    }
  }

  /** The guard is exact: after a re-labelling record, the next change observed on
      that device reuses an identifier if and only if the guard was broken. */
  lemma GuardIsExact(s: System, step: Step, seen: Option<Seen>)
    requires Inv(s) && step.Record? && Enabled(s, step) && Relabels(s, step)
    requires Some(seen) != ReplicaOf(s, step.device).seen
    ensures var c := ChangeMade(Next(s, step), Observe(step.device, seen));
            (exists i :: 0 <= i < |s.log| && s.log[i].device == c.device && Own(s.log[i]) == Own(c))
            <==> !KeepsOwnChanges(s, step)
  {
    var d := step.device;
    var t := Next(s, step);
    var c := ChangeMade(t, Observe(d, seen));
    assert UpToDate(s, d) && NumberedAt(s, step.version.value);
    assert Own(c) == OwnCounter(s, step.version, d) + 1;
    assert s.log[..|s.log|] == s.log;
    if !KeepsOwnChanges(s, step) {
      EveryNumberIsUsed(s, |s.log|, d, Own(c));
    }
    forall i | 0 <= i < |s.log| && s.log[i].device == d ensures Own(s.log[i]) <= Count(s.log, d) {
      assert NumberedAt(s, i);
    }
  }

  /* ---- a run that breaks the guard, and what it costs ---- */

  const X := Some(Seen("x", 1, 1))
  const Y := Some(Seen("y", 1, 2))

  // Devices a and b create the same file. b then adopts a's version for its own,
  // identical content: its first change is forgotten, its next change takes the same
  // number again, and the new version dominates the forgotten one without having it
  // in its past.
  const A1 := Change("a", map["a" := 1], {0})
  const B1 := Change("b", map["b" := 1], {1})
  const B2 := Change("b", map["a" := 1, "b" := 1], {0, 2})
  const REPLICA_A := Replica(Some(X), Some(0), None)
  const L0 := System([], map[])
  const L1 := System([A1], map["a" := REPLICA_A])
  const L2 := System([A1, B1], map["a" := REPLICA_A, "b" := Replica(Some(X), Some(1), None)])
  const L3 := System([A1, B1], map["a" := REPLICA_A, "b" := Replica(Some(X), Some(0), Some(0))])
  const L4 := System([A1, B1, B2], map["a" := REPLICA_A, "b" := Replica(Some(Y), Some(2), Some(0))])

  lemma ChangeStep(s: System, step: Step, c: Change, t: System, start: Clock, prev: Option<Clock>)
    requires IsNewChange(s, step) && Enabled(s, step) && c.device == step.device
    requires start == if ReplicaOf(s, step.device).base.Some? && InLog(s, ReplicaOf(s, step.device).base)
                      then s.log[ReplicaOf(s, step.device).base.value].clock else map[]
    requires prev == if ReplicaOf(s, step.device).seen.None? then None else ClockOf(s, ReplicaOf(s, step.device).version)
    requires forall d :: Counter(c.clock, d) == Counter(Increment(Merge(start, prev), step.device), d)
    requires c.past == {|s.log|} + PastOf(s, ReplicaOf(s, step.device).base) + PastOf(s, ReplicaOf(s, step.device).version)
    requires t.log == s.log + [c]
    requires t.replicas == s.replicas[step.device := Replica(Some(step.seen), Some(|s.log|), ReplicaOf(s, step.device).base)]
    ensures t == Next(s, step)
  {
    CountersDetermineClock(c.clock, ChangeMade(s, step).clock);
  }

  lemma FirstChange()
    ensures L1 == Next(L0, Observe("a", X))
  {
    ChangeStep(L0, Observe("a", X), A1, L1, map[], None);
  }

  lemma SecondChange()
    ensures L2 == Next(L1, Observe("b", X))
  {
    ChangeStep(L1, Observe("b", X), B1, L2, map[], None);
  }

  lemma LossyRelabel()
    ensures L3 == Next(L2, Record("b", X, Some(0)))
    ensures !KeepsOwnChanges(L2, Record("b", X, Some(0)))
  {
  }

  lemma ChangeAfterRelabel()
    ensures L4 == Next(L3, Observe("b", Y))
  {
    ChangeStep(L3, Observe("b", Y), B2, L4, A1.clock, Some(A1.clock));
  }

  ghost predicate Reachable(t: System) {
    exists states: seq<System>, steps: seq<Step> :: IsRun(states, steps) && states[|steps|] == t
  }

  lemma ReachNext(s: System, step: Step, t: System)
    requires Reachable(s) && Enabled(s, step) && t == Next(s, step)
    ensures Reachable(t)
  {
    var states: seq<System>, steps: seq<Step> :| IsRun(states, steps) && states[|steps|] == s;
    var states', steps' := states + [t], steps + [step];
    assert IsRun(states', steps') && states'[|steps'|] == t;
  }

  lemma StartReachable(s: System)
    requires Initial(s)
    ensures Reachable(s)
  {
    var start, none: seq<Step> := [s], [];
    assert IsRun(start, none) && start[|none|] == s;
  }

  lemma LossyRun()
    ensures Reachable(L2) && Reachable(L4)
    ensures L3 == Next(L2, Record("b", X, Some(0))) && L4 == Next(L3, Observe("b", Y))
  {
    FirstChange();
    SecondChange();
    LossyRelabel();
    ChangeAfterRelabel();
    StartReachable(L0);
    hide Reachable, Next;
    ReachNext(L0, Observe("a", X), L1);
    ReachNext(L1, Observe("b", X), L2);
    ReachNext(L2, Record("b", X, Some(0)), L3);
    ReachNext(L3, Observe("b", Y), L4);
  }

  lemma ReplacingAVersionCanForgetAChange()
    ensures Reachable(L2) && Reachable(L4)
    ensures L3 == Next(L2, Record("b", X, Some(0))) && L4 == Next(L3, Observe("b", Y))
    ensures !KeepsOwnChanges(L2, Record("b", X, Some(0)))
    ensures (L4.log[2].device, Own(L4.log[2])) == (L4.log[1].device, Own(L4.log[1]))
    ensures Dominates(L4.log[2].clock, Some(L4.log[1].clock)) && 1 !in L4.log[2].past
  {
    hide Reachable, Next;
    LossyRun();
    LossyRelabel();
    assert Counter(B2.clock, "a") == 1 && Counter(B1.clock, "a") == 0;
  }
}
