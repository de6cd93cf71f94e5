/** Local moves published as one NAS rename instead of an upload and a delete. */
module Rename {
  import opened CausalVersions
  import opened SyncState
  import opened Reconcile
  import opened Chunk
  import opened Repository

  datatype Plan = Plan(source: Path, destination: Path, before: Fingerprint, after: Fingerprint, sourceVersion: Option<Clock>,
                       expectedMtimeNs: int)

  function Paths(plan: Plan): set<Path> {
    {plan.source, plan.destination}
  }

  /* ---- which moves are recognised ---- */

  function Key(fp: Fingerprint): Seen {
    Seen(fp.digest, fp.size, fp.mtimeNs)
  }

  /** A known file that is gone from the disk. */
  predicate Gone(c: Client, p: Path, key: Seen) {
    p in c.baseline && !c.baseline[p].IsTombstone() && p !in c.local && Key(c.baseline[p]) == key
  }

  /** A file without any base. */
  predicate Fresh(c: Client, p: Path, key: Seen) {
    p !in c.baseline && p in c.local && Key(c.local[p]) == key
  }

  /** An unambiguous move whose NAS source is unchanged and whose destination is free. */
  ghost predicate Movable(c: Client, s: Share, paths: set<Path>, a: Path, b: Path) {
    && a in paths && b in paths && b in c.local
    && (var key := Key(c.local[b]);
        && Gone(c, a, key) && Fresh(c, b, key)
        && (forall p :: p in paths && Gone(c, p, key) ==> p == a)
        && (forall p :: p in paths && Fresh(c, p, key) ==> p == b))
    && NodeAt(s, a).File? && NodeAt(s, a).meta.digest == c.baseline[a].digest && NodeAt(s, a).meta.size == c.baseline[a].size
    && NodeAt(s, b).Missing?
  }

  /** Two files count as the same by content, size and time. */
  predicate SameTriple(x: Fingerprint, y: Fingerprint) {
    x.digest == y.digest && x.size == y.size && x.mtimeNs == y.mtimeNs
  }

  /** A recognised move: a known file gone from the disk and a file without any base, the
      same by content, size and time; no third path of the chunk could be either of them;
      and on the NAS the source is still the known content, the destination free. */
  lemma MovableExactly(c: Client, s: Share, paths: set<Path>, a: Path, b: Path)
    ensures Movable(c, s, paths, a, b) <==>
              && a in paths && b in paths
              && a in c.baseline && c.baseline[a].digest != "" && a !in c.local
              && b in c.local && b !in c.baseline && SameTriple(c.baseline[a], c.local[b])
              && (forall p :: p in paths && p in c.baseline && c.baseline[p].digest != "" && p !in c.local && SameTriple(c.baseline[p], c.local[b]) ==>
                    p == a)
              && (forall p :: p in paths && p in c.local && p !in c.baseline && SameTriple(c.local[p], c.local[b]) ==> p == b)
              && a in s.nodes && s.nodes[a].File? && s.nodes[a].meta.digest == c.baseline[a].digest && s.nodes[a].meta.size == c.baseline[a].size
              && (b in s.nodes ==> s.nodes[b].Missing?)
  {
    if b in c.local {
      var key := Key(c.local[b]);
      forall p
        ensures Gone(c, p, key) <==> p in c.baseline && c.baseline[p].digest != "" && p !in c.local && SameTriple(c.baseline[p], c.local[b])
        ensures Fresh(c, p, key) <==> p in c.local && p !in c.baseline && SameTriple(c.local[p], c.local[b])
      {
      }
    }
  }

  function PlanOf(c: Client, s: Share, a: Path, b: Path): Plan
    requires a in c.baseline && b in c.local && NodeAt(s, a).File?
  {
    Plan(a, b, c.baseline[a], c.local[b], Lookup(c.deletions, a), NodeAt(s, a).meta.mtimeNs)
  }

  type Buckets = map<Seen, set<Path>>

  predicate InBucket(buckets: Buckets, key: Seen, p: Path) {
    key in buckets && p in buckets[key]
  }

  function Put(buckets: Buckets, key: Seen, p: Path): (r: Buckets)
    ensures forall k, x :: InBucket(r, k, x) <==> InBucket(buckets, k, x) || (k == key && x == p)
    ensures r.Keys == buckets.Keys + {key}
  {
    buckets[key := (if key in buckets then buckets[key] else {}) + {p}]
  }

  ghost predicate IsGoneIndex(c: Client, done: set<Path>, buckets: Buckets) {
    forall key, p :: InBucket(buckets, key, p) <==> p in done && Gone(c, p, key)
  }

  ghost predicate IsFreshIndex(c: Client, done: set<Path>, buckets: Buckets) {
    forall key, p :: InBucket(buckets, key, p) <==> p in done && Fresh(c, p, key)
  }

  /** Sort the chunk's paths into gone and new files, by content. */
  method Index(c: Client, paths: set<Path>) returns (gone: Buckets, added: Buckets)
    ensures IsGoneIndex(c, paths, gone) && IsFreshIndex(c, paths, added)
  {
    gone, added := map[], map[];
    var todo := paths;
    while todo != {}
      invariant todo <= paths
      invariant IsGoneIndex(c, paths - todo, gone) && IsFreshIndex(c, paths - todo, added)
      decreases todo
    {
      var p :| p in todo;
      assert paths - (todo - {p}) == (paths - todo) + {p};
      if p in c.baseline && !c.baseline[p].IsTombstone() && p !in c.local {
        gone := Put(gone, Key(c.baseline[p]), p);
      } else if p !in c.baseline && p in c.local {
        added := Put(added, Key(c.local[p]), p);
      }
      todo := todo - {p};
    }
    assert paths - {} == paths;
  }

  lemma SingletonIs(s: set<Path>, p: Path)
    requires |s| == 1 && p in s
    ensures s == {p}
  {
    assert |s - {p}| == 0;
  }

  lemma AloneInBuckets(c: Client, s: Share, paths: set<Path>, gone: Buckets, added: Buckets, a: Path, b: Path)
    requires IsGoneIndex(c, paths, gone) && IsFreshIndex(c, paths, added) && Movable(c, s, paths, a, b)
    ensures var key := Key(c.local[b]); key in gone && key in added && gone[key] == {a} && added[key] == {b}
  {
    var key := Key(c.local[b]);
    assert InBucket(gone, key, a) && InBucket(added, key, b);
    forall p | p in gone[key] ensures p == a {
      assert InBucket(gone, key, p);
    }
    forall p | p in added[key] ensures p == b {
      assert InBucket(added, key, p);
    }
  }

  /** The plan made for one bucket of each kind, if any. */
  method Match(c: Client, s: Share, paths: set<Path>, gone: Buckets, added: Buckets, key: Seen) returns (plan: Option<Plan>)
    requires IsGoneIndex(c, paths, gone) && IsFreshIndex(c, paths, added) && key in gone && key in added
    ensures plan.Some? ==> Movable(c, s, paths, plan.value.source, plan.value.destination)
                           && plan.value == PlanOf(c, s, plan.value.source, plan.value.destination)
                           && Key(plan.value.after) == key
    ensures plan.None? ==> forall a, b :: Movable(c, s, paths, a, b) ==> Key(c.local[b]) != key
  {
    plan := None;
    if |gone[key]| == 1 && |added[key]| == 1 {
      var a :| a in gone[key];
      var b :| b in added[key];
      SingletonIs(gone[key], a);
      SingletonIs(added[key], b);
      assert InBucket(gone, key, a) && InBucket(added, key, b);
      assert forall p :: p in paths && Gone(c, p, key) ==> InBucket(gone, key, p);
      assert forall p :: p in paths && Fresh(c, p, key) ==> InBucket(added, key, p);
      if NodeAt(s, a).File? && NodeAt(s, a).meta.digest == c.baseline[a].digest && NodeAt(s, a).meta.size == c.baseline[a].size
         && NodeAt(s, b).Missing? {
        plan := Some(PlanOf(c, s, a, b));
      }
    } else {
      forall a, b | Movable(c, s, paths, a, b) ensures Key(c.local[b]) != key {
        if Key(c.local[b]) == key {
          AloneInBuckets(c, s, paths, gone, added, a, b);
        }
      }
    }
  }

  lemma MovesOfKey(c: Client, s: Share, paths: set<Path>, key: Seen, plan: Plan)
    requires Movable(c, s, paths, plan.source, plan.destination) && plan == PlanOf(c, s, plan.source, plan.destination) && Key(plan.after) == key
    ensures forall a, b :: Movable(c, s, paths, a, b) && Key(c.local[b]) == key ==> PlanOf(c, s, a, b) == plan
  {
  }

  /** One look at each content that is both gone and new. */
  method PlanPerKey(c: Client, s: Share, paths: set<Path>, gone: Buckets, added: Buckets) returns (plans: seq<Plan>)
    requires IsGoneIndex(c, paths, gone) && IsFreshIndex(c, paths, added)
    requires forall a, b :: Movable(c, s, paths, a, b) ==> Key(c.local[b]) in gone.Keys * added.Keys
    ensures forall i :: 0 <= i < |plans| ==>
              Movable(c, s, paths, plans[i].source, plans[i].destination) && plans[i] == PlanOf(c, s, plans[i].source, plans[i].destination)
    ensures forall a, b :: Movable(c, s, paths, a, b) ==> PlanOf(c, s, a, b) in plans
    ensures forall i, j :: 0 <= i < j < |plans| ==> Key(plans[i].after) != Key(plans[j].after)
  {
    hide IsGoneIndex, IsFreshIndex, Key;
    plans := [];
    var todo := gone.Keys * added.Keys;
    while todo != {}
      invariant todo <= gone.Keys * added.Keys
      invariant forall i :: 0 <= i < |plans| ==>
                  && Movable(c, s, paths, plans[i].source, plans[i].destination) && plans[i] == PlanOf(c, s, plans[i].source, plans[i].destination)
                  && Key(plans[i].after) !in todo
      invariant forall a, b :: Movable(c, s, paths, a, b) && Key(c.local[b]) !in todo ==> PlanOf(c, s, a, b) in plans
      invariant forall i, j :: 0 <= i < j < |plans| ==> Key(plans[i].after) != Key(plans[j].after)
      decreases todo
    {
      var key :| key in todo;
      var plan := Match(c, s, paths, gone, added, key);
      if plan.Some? {
        MovesOfKey(c, s, paths, key, plan.value);
        plans := plans + [plan.value];
      }
      todo := todo - {key};
    }
  }

  /** All plans of a chunk: exactly the movable pairs, no path in two of them. */
  method FindPlans(c: Client, s: Share, paths: set<Path>) returns (plans: seq<Plan>)
    ensures forall i :: 0 <= i < |plans| ==>
              Movable(c, s, paths, plans[i].source, plans[i].destination) && plans[i] == PlanOf(c, s, plans[i].source, plans[i].destination)
    ensures forall a, b :: Movable(c, s, paths, a, b) ==> PlanOf(c, s, a, b) in plans
    ensures forall i, j :: 0 <= i < j < |plans| ==> Paths(plans[i]) !! Paths(plans[j])
  {
    hide IsGoneIndex, IsFreshIndex, Key, Paths;
    var gone, added := Index(c, paths);
    forall a, b | Movable(c, s, paths, a, b) ensures Key(c.local[b]) in gone.Keys * added.Keys {
      AloneInBuckets(c, s, paths, gone, added, a, b);
    }
    plans := PlanPerKey(c, s, paths, gone, added);
    forall i, j | 0 <= i < j < |plans| ensures Paths(plans[i]) !! Paths(plans[j]) {
      DifferentKeysAreDisjoint(c, s, paths, plans[i], plans[j]);
    }
  }

  lemma DifferentKeysAreDisjoint(c: Client, s: Share, paths: set<Path>, p: Plan, q: Plan)
    requires Movable(c, s, paths, p.source, p.destination) && Movable(c, s, paths, q.source, q.destination)
    requires p.after == c.local[p.destination] && q.after == c.local[q.destination] && Key(p.after) != Key(q.after)
    ensures Paths(p) !! Paths(q)
  {
  }

  /* ---- what a rename does ---- */

  function MovedSource(v: PathView, stampNs: int): PathView {
    v.(baseline := Some(RecordedEntry(None, v.deletionClock)), node := Missing, record := Some(Record(None, stampNs, None)))
  }

  function MovedTarget(v: PathView, from: Node, stampNs: int): PathView
    requires from.File?
  {
    v.(baseline := Some(RecordedEntry(v.local, None)), node := from, record := Some(Record(Some(from.meta), stampNs, None)))
  }

  /** Source and destination after a rename: the file with its time moves; both changes are
      in the journal, without clocks; the bases are the deletion, with its clock, and the
      local file, with its own. */
  lemma MovedExactly(v: PathView, from: Node, stampNs: int)
    requires from.File?
    ensures MovedSource(v, stampNs) ==
              v.(baseline := Some(Fingerprint("", -1, -1, NonEmpty(v.deletionClock))), node := Missing, record := Some(Record(None, stampNs, None)))
    ensures v.local.Some? && v.local.value.digest != "" ==>
              var l := v.local.value;
              MovedTarget(v, from, stampNs) ==
                v.(baseline := Some(Fingerprint(l.digest, l.size, l.mtimeNs, NonEmpty(l.causal))), node := File(from.meta),
                   record := Some(Record(Some(from.meta), stampNs, None)))
  {
  }

  predicate CanMove(from: PathView, to: PathView) {
    && from.local.None? && from.node.File? && from.baseline.Some? && !from.baseline.value.IsTombstone()
    && from.node.meta.digest == from.baseline.value.digest
    && to.local.Some? && to.baseline.None? && to.node.Missing?
    && to.local.value.digest == from.baseline.value.digest
  }

  /** The moves that plain planning agrees with: deletions are allowed, no deletion is on
      record for the destination, and the NAS version of the source does not dominate
      the local deletion. */
  predicate Harmless(from: PathView, to: PathView, settings: Settings) {
    && settings.deleteEnabled
    && to.record.None?
    && CausalWinner(None, Live(from.node, from.record), from.deletionClock) != Some(RemoteVersion)
  }

  /** A rename leaves the contents of an upload and a delete exactly for those moves. */
  lemma RenameIsPlainExactly(from: PathView, to: PathView, settings: Settings)
    requires CanMove(from, to) && ViewOk(from) && ViewOk(to)
    ensures (&& SameContents(MovedSource(from, settings.stampNs), Through(from, PlanFor(from, settings), COMMITTED))
             && SameContents(MovedTarget(to, from.node, settings.stampNs), Through(to, PlanFor(to, settings), COMMITTED)))
            <==> Harmless(from, to, settings)
    ensures Harmless(from, to, settings) ==>
              CopyOf(from, PlanFor(from, settings)).None? && CopyOf(to, PlanFor(to, settings)).None?
  {
  }

  /** A rename whose client died before recording it: both paths are planned as adopted,
      and end as if it had been recorded. */
  lemma HalfRenameIsAdopted(from: PathView, to: PathView, settings: Settings, settings': Settings)
    requires CanMove(from, to) && ViewOk(from) && ViewOk(to)
    ensures var moved, placed := MovedSource(from, settings.stampNs), MovedTarget(to, from.node, settings.stampNs);
            var halfFrom, halfTo := moved.(baseline := from.baseline), placed.(baseline := to.baseline);
            && PlanFor(halfFrom, settings').action.ADOPT? && PlanFor(halfTo, settings').action.ADOPT?
            && SameContents(Through(halfFrom, PlanFor(halfFrom, settings'), COMMITTED), moved)
            && SameContents(Through(halfTo, PlanFor(halfTo, settings'), COMMITTED), placed)
  {
  }

  /** The renames in `moves` (source to destination) have been carried out. */
  ghost predicate Renamed(c: Client, s: Share, moves: map<Path, Path>, stampNs: int, c': Client, s': Share) {
    && (forall a :: a in moves ==>
          && NodeAt(s, a).File?
          && At(c', s', a) == MovedSource(At(c, s, a), stampNs)
          && At(c', s', moves[a]) == MovedTarget(At(c, s, moves[a]), NodeAt(s, a), stampNs))
    && (forall x :: x !in moves.Keys + moves.Values ==> At(c', s', x) == At(c, s, x))
  }

  ghost predicate AllHarmless(c: Client, s: Share, moves: map<Path, Path>, settings: Settings, paths: set<Path>) {
    forall a :: a in moves ==>
      && a in paths && moves[a] in paths
      && ViewOk(At(c, s, a)) && ViewOk(At(c, s, moves[a]))
      && CanMove(At(c, s, a), At(c, s, moves[a]))
      && Harmless(At(c, s, a), At(c, s, moves[a]), settings)
  }

  lemma RenamedPathIsPlain(c: Client, s: Share, moves: map<Path, Path>, settings: Settings, paths: set<Path>, c1: Client, s1: Share, p: Path)
    requires AllHarmless(c, s, moves, settings, paths) && Renamed(c, s, moves, settings.stampNs, c1, s1)
    requires p in moves.Keys + moves.Values
    ensures SameContents(At(c1, s1, p), Outcome(c, s, settings, p))
    ensures CopyOf(At(c, s, p), PlanAt(c, s, settings, p)).None?
  {
    if p in moves {
      RenameIsPlainExactly(At(c, s, p), At(c, s, moves[p]), settings);
    } else {
      var a :| a in moves && moves[a] == p;
      RenameIsPlainExactly(At(c, s, a), At(c, s, p), settings);
    }
  }

  lemma CopiesAfterRenames(c: Client, s: Share, naming: Naming, moves: map<Path, Path>, settings: Settings, paths: set<Path>, c1: Client, s1: Share)
    requires AllHarmless(c, s, moves, settings, paths) && Renamed(c, s, moves, settings.stampNs, c1, s1)
    ensures Copies(c1, s1, naming, settings, paths - moves.Keys - moves.Values) == Copies(c, s, naming, settings, paths)
  {
    hide PlanFor, Live, CopyOf, MovedSource, MovedTarget, CanMove, Harmless, SameContents;
    var rest := paths - moves.Keys - moves.Values;
    forall p | p in paths
      ensures p in rest ==> CopyAt(c1, s1, naming, settings, p) == CopyAt(c, s, naming, settings, p)
      ensures p !in rest ==> CopyAt(c, s, naming, settings, p).None?
    {
      if p !in rest {
        RenamedPathIsPlain(c, s, moves, settings, paths, c1, s1, p);
      }
    }
  }

  /** Running the recognised renames and then the rest of the plan gives every path the
      NAS content, the record, the local content and the base of a chunk planned without
      renames. */
  lemma RenamesPreserveChunk(c: Client, s: Share, naming: Naming, moves: map<Path, Path>, settings: Settings, paths: set<Path>,
                             c1: Client, s1: Share, c2: Client, s2: Share, c3: Client, s3: Share)
    requires AllHarmless(c, s, moves, settings, paths)
    requires SafeNames(s, paths, Copies(c, s, naming, settings, paths))
    requires Renamed(c, s, moves, settings.stampNs, c1, s1)
    requires Finished(c1, s1, naming, settings, paths - moves.Keys - moves.Values, c2, s2)
    requires Finished(c, s, naming, settings, paths, c3, s3)
    ensures forall p :: p in paths ==> SameContents(At(c2, s2, p), At(c3, s3, p))
    ensures forall x :: x !in paths ==> SameClientPath(c3, c2, x) && NodeContent(NodeAt(s2, x)) == NodeContent(NodeAt(s3, x))
  {
    var rest := paths - moves.Keys - moves.Values;
    var copies := Copies(c, s, naming, settings, paths);
    CopiesAfterRenames(c, s, naming, moves, settings, paths, c1, s1);
    forall p | p in paths ensures SameContents(At(c2, s2, p), At(c3, s3, p)) {
      assert ToTheEnd(paths)[p] == COMMITTED;
      assert At(c3, s3, p) == Outcome(c, s, settings, p);
      if p in rest {
        assert ToTheEnd(rest)[p] == COMMITTED;
        assert At(c1, s1, p) == At(c, s, p);
      } else {
        assert !CopiedTo(copies, ToTheEnd(rest), p);
        UntouchedPath(c1, s1, naming, settings, rest, c2, s2, p);
        RenamedPathIsPlain(c, s, moves, settings, paths, c1, s1, p);
      }
    }
    forall x | x !in paths
      ensures SameClientPath(c3, c2, x) && NodeContent(NodeAt(s2, x)) == NodeContent(NodeAt(s3, x))
    {
      OutsideAfterRenames(c, s, naming, moves, settings, paths, c1, s1, c2, s2, c3, s3, x);
    }
  }

  lemma UntouchedPath(c: Client, s: Share, naming: Naming, settings: Settings, paths: set<Path>, c': Client, s': Share, p: Path)
    requires Finished(c, s, naming, settings, paths, c', s') && p !in paths
    requires !CopiedTo(Copies(c, s, naming, settings, paths), ToTheEnd(paths), p)
    ensures At(c', s', p) == At(c, s, p)
  {
    assert SameClientPath(c, c', p);
  }

  lemma OutsideAfterRenames(c: Client, s: Share, naming: Naming, moves: map<Path, Path>, settings: Settings, paths: set<Path>,
                            c1: Client, s1: Share, c2: Client, s2: Share, c3: Client, s3: Share, x: Path)
    requires AllHarmless(c, s, moves, settings, paths) && x !in paths
    requires SafeNames(s, paths, Copies(c, s, naming, settings, paths))
    requires Renamed(c, s, moves, settings.stampNs, c1, s1)
    requires Copies(c1, s1, naming, settings, paths - moves.Keys - moves.Values) == Copies(c, s, naming, settings, paths)
    requires Finished(c1, s1, naming, settings, paths - moves.Keys - moves.Values, c2, s2)
    requires Finished(c, s, naming, settings, paths, c3, s3)
    ensures SameClientPath(c3, c2, x) && NodeContent(NodeAt(s2, x)) == NodeContent(NodeAt(s3, x))
  {
    var rest := paths - moves.Keys - moves.Values;
    var copies := Copies(c, s, naming, settings, paths);
    assert x !in moves.Keys + moves.Values;
    assert At(c1, s1, x) == At(c, s, x);
    assert SameClientPath(c, c3, x) && SameClientPath(c1, c2, x);
    if CopiedTo(copies, ToTheEnd(paths), x) {
      var p :| p in copies && copies[p].target == x;
      assert ToTheEnd(paths)[p] == COMMITTED;
      assert p in rest && ToTheEnd(rest)[p] == COMMITTED;
    } else {
      assert !CopiedTo(copies, ToTheEnd(rest), x);
    }
  }

  lemma MovableCanMove(c: Client, s: Share, paths: set<Path>, a: Path, b: Path)
    requires Movable(c, s, paths, a, b)
    ensures CanMove(At(c, s, a), At(c, s, b)) && a != b
  {
  }

  lemma UnmovedPath(c: Client, s: Share, moves: map<Path, Path>, stampNs: int, c1: Client, s1: Share, x: Path)
    requires Renamed(c, s, moves, stampNs, c1, s1) && x !in moves.Keys + moves.Values
    ensures At(c1, s1, x) == At(c, s, x) && NodeAt(s1, x) == NodeAt(s, x)
  {
  }

  lemma OneMoreMove(moves: map<Path, Path>, a: Path, b: Path)
    requires a !in moves
    ensures moves[a := b].Keys == moves.Keys + {a} && moves[a := b].Values == moves.Values + {b}
  {
    var more := moves[a := b];
    forall x ensures x in more.Values <==> x in moves.Values + {b} {
      if x in moves.Values {
        var y :| y in moves && moves[y] == x;
        assert more[y] == x;
      }
      assert more[a] == b;
    }
  }

  lemma RenamedOneMore(c: Client, s: Share, moves: map<Path, Path>, stampNs: int, c1: Client, s1: Share, a: Path, b: Path,
                       c2: Client, s2: Share)
    requires Renamed(c, s, moves, stampNs, c1, s1) && a != b && {a, b} !! moves.Keys + moves.Values
    requires NodeAt(s, a).File?
    requires At(c2, s2, a) == MovedSource(At(c1, s1, a), stampNs)
    requires At(c2, s2, b) == MovedTarget(At(c1, s1, b), NodeAt(s, a), stampNs)
    requires forall x :: x != a && x != b ==> At(c2, s2, x) == At(c1, s1, x)
    ensures Renamed(c, s, moves[a := b], stampNs, c2, s2)
    ensures moves[a := b].Keys + moves[a := b].Values == moves.Keys + moves.Values + {a, b}
  {
    hide At, NodeAt, MovedSource, MovedTarget;
    OneMoreMove(moves, a, b);
    UnmovedPath(c, s, moves, stampNs, c1, s1, a);
    UnmovedPath(c, s, moves, stampNs, c1, s1, b);
    var more := moves[a := b];
    forall x | x in more
      ensures NodeAt(s, x).File? && At(c2, s2, x) == MovedSource(At(c, s, x), stampNs)
      ensures At(c2, s2, more[x]) == MovedTarget(At(c, s, more[x]), NodeAt(s, x), stampNs)
    {
      if x != a {
        assert x in moves && moves[x] in moves.Values;
      }
    }
    forall x | x !in more.Keys + more.Values ensures At(c2, s2, x) == At(c, s, x) {
      UnmovedPath(c, s, moves, stampNs, c1, s1, x);
    }
  }

  /** The server's rename: the file and both journal records at once. */
  function MovedShare(s: Share, a: Path, b: Path, stampNs: int): Share
    requires NodeAt(s, a).File?
  {
    Share(s.nodes[b := NodeAt(s, a)][a := Missing],
          s.records[b := Record(Some(NodeAt(s, a).meta), stampNs, None)][a := Record(None, stampNs, None)])
  }

  function ShareAfter(s: Share, plan: Plan, stampNs: int): Share
    requires NodeAt(s, plan.source).File?
  {
    MovedShare(s, plan.source, plan.destination, stampNs)
  }

  function ClientAfter(c: Client, plan: Plan): Client {
    c.(baseline := c.baseline[plan.source := RecordedEntry(None, plan.sourceVersion)]
                             [plan.destination := RecordedEntry(Some(plan.after), None)])
  }

  lemma PlanIsCarriedOut(c: Client, s: Share, moves: map<Path, Path>, stampNs: int, c1: Client, s1: Share, plan: Plan)
    requires Renamed(c, s, moves, stampNs, c1, s1) && plan.source != plan.destination && Paths(plan) !! moves.Keys + moves.Values
    requires NodeAt(s1, plan.source).File? && Lookup(c1.local, plan.destination) == Some(plan.after)
    requires plan.sourceVersion == Lookup(c1.deletions, plan.source)
    ensures Renamed(c, s, moves[plan.source := plan.destination], stampNs, ClientAfter(c1, plan), ShareAfter(s1, plan, stampNs))
    ensures var more := moves[plan.source := plan.destination]; more.Keys + more.Values == moves.Keys + moves.Values + Paths(plan)
  {
    hide Renamed;
    var (a, b) := (plan.source, plan.destination);
    UnmovedPath(c, s, moves, stampNs, c1, s1, a);
    PlanOnPaths(c1, s1, plan, stampNs);
    RenamedOneMore(c, s, moves, stampNs, c1, s1, a, b, ClientAfter(c1, plan), ShareAfter(s1, plan, stampNs));
  }

  lemma PlanOnPaths(c: Client, s: Share, plan: Plan, stampNs: int)
    requires plan.source != plan.destination && NodeAt(s, plan.source).File?
    requires Lookup(c.local, plan.destination) == Some(plan.after) && plan.sourceVersion == Lookup(c.deletions, plan.source)
    ensures var c', s' := ClientAfter(c, plan), ShareAfter(s, plan, stampNs);
            && At(c', s', plan.source) == MovedSource(At(c, s, plan.source), stampNs)
            && At(c', s', plan.destination) == MovedTarget(At(c, s, plan.destination), NodeAt(s, plan.source), stampNs)
            && forall x :: x != plan.source && x != plan.destination ==> At(c', s', x) == At(c, s, x)
  {
  }

  function Pairs(plans: seq<Plan>): set<(Path, Path)> {
    set i | 0 <= i < |plans| :: (plans[i].source, plans[i].destination)
  }

  lemma PlanIsPaired(plans: seq<Plan>, i: nat)
    requires i < |plans|
    ensures (plans[i].source, plans[i].destination) in Pairs(plans)
  {
  }

  lemma NothingRenamed(c: Client, s: Share, stampNs: int)
    ensures Renamed(c, s, map[], stampNs, c, s)
  {
  }

  /** A plan can be carried out: the source is gone from the disk, the destination is what
      was planned, the NAS source is the planned file at the planned time, and the NAS
      destination is free. */
  predicate Runnable(c: Client, s: Share, plan: Plan) {
    && plan.source !in c.local
    && plan.destination in c.local && c.local[plan.destination] == plan.after
    && plan.source in s.nodes && s.nodes[plan.source] == File(FileMeta(plan.before.digest, plan.before.size, plan.expectedMtimeNs))
    && (plan.destination in s.nodes ==> s.nodes[plan.destination].Missing?)
  }

  /** A plan for a recognised move can be carried out as long as nothing changes. */
  lemma FreshPlanIsRunnable(c: Client, s: Share, paths: set<Path>, a: Path, b: Path)
    requires Movable(c, s, paths, a, b)
    ensures Runnable(c, s, PlanOf(c, s, a, b)) && PlanOf(c, s, a, b).sourceVersion == Lookup(c.deletions, a)
  {
  }

  lemma StillRunnable(c: Client, s: Share, moves: map<Path, Path>, stampNs: int, c1: Client, s1: Share, plan: Plan)
    requires Renamed(c, s, moves, stampNs, c1, s1) && Paths(plan) !! moves.Keys + moves.Values
    ensures Runnable(c1, s1, plan) <==> Runnable(c, s, plan)
  {
    UnmovedPath(c, s, moves, stampNs, c1, s1, plan.source);
    UnmovedPath(c, s, moves, stampNs, c1, s1, plan.destination);
    SameParts(c, s, c1, s1, plan.source);
    SameParts(c, s, c1, s1, plan.destination);
  }

  lemma RunnableExactly(c: Client, s: Share, plan: Plan)
    ensures Runnable(c, s, plan) <==>
              && plan.source !in c.local && Lookup(c.local, plan.destination) == Some(plan.after)
              && NodeAt(s, plan.source) == File(FileMeta(plan.before.digest, plan.before.size, plan.expectedMtimeNs))
              && NodeAt(s, plan.destination).Missing?
  {
  }

  lemma SameParts(c: Client, s: Share, c1: Client, s1: Share, p: Path)
    requires At(c1, s1, p) == At(c, s, p)
    ensures Lookup(c1.local, p) == Lookup(c.local, p)
    ensures (p in s1.nodes && !s1.nodes[p].Missing?) <==> (p in s.nodes && !s.nodes[p].Missing?)
    ensures p in s.nodes && !s.nodes[p].Missing? ==> p in s1.nodes && s1.nodes[p] == s.nodes[p]
  {
  }

  class RenameWorker {
    var client: Client
    var share: Share
    var completed: set<Path>

    constructor (client: Client, share: Share)
      ensures this.client == client && this.share == share && completed == {}
    {
      this.client, this.share, completed := client, share, {};
    }

    /** Carry out the plans one by one. A plan whose local file changed, whose NAS source
        changed, or which the NAS refuses for any reason leaves everything as it was. */
    method RunRenames(plans: seq<Plan>, stampNs: int) returns (failed: set<Path>, ghost moves: map<Path, Path>, ghost refused: set<nat>)
      requires forall i :: 0 <= i < |plans| ==> plans[i].source != plans[i].destination
      requires forall i, j :: 0 <= i < j < |plans| ==> Paths(plans[i]) !! Paths(plans[j])
      requires forall i :: 0 <= i < |plans| ==> plans[i].sourceVersion == Lookup(client.deletions, plans[i].source)
      modifies this
      ensures Renamed(old(client), old(share), moves, stampNs, client, share)
      ensures completed == moves.Keys + moves.Values
      ensures forall i :: 0 <= i < |plans| ==>
                if plans[i].source in moves then moves[plans[i].source] == plans[i].destination else Paths(plans[i]) <= failed
      ensures forall a :: a in moves ==> (a, moves[a]) in Pairs(plans)
      ensures failed !! completed
      // carried out are exactly the plans that can be, unless the NAS refuses one for a reason of its own
      ensures forall i :: 0 <= i < |plans| ==>
                (plans[i].source in moves <==> i !in refused && Runnable(old(client), old(share), plans[i]))
    {
      hide Renamed, At, ShareAfter, Pairs, Runnable;
      assert Renamed(client, share, map[], stampNs, client, share) by {
        NothingRenamed(client, share, stampNs);
      }
      failed, moves, completed, refused := {}, map[], {}, {};
      ghost var c0, s0 := client, share;
      for i := 0 to |plans|
        invariant client.deletions == c0.deletions
        invariant Renamed(c0, s0, moves, stampNs, client, share)
        invariant completed == moves.Keys + moves.Values
        invariant forall k :: 0 <= k < i ==>
                    if plans[k].source in moves then moves[plans[k].source] == plans[k].destination else Paths(plans[k]) <= failed
        invariant forall a :: a in moves ==> (a, moves[a]) in Pairs(plans)
        invariant forall k :: i <= k < |plans| ==> Paths(plans[k]) !! completed + failed
        invariant failed !! completed
        invariant forall k :: k in refused ==> k < i
        invariant forall k :: 0 <= k < i ==> (plans[k].source in moves <==> k !in refused && Runnable(c0, s0, plans[k]))
      {
        var plan := plans[i];
        var (a, b) := (plan.source, plan.destination);
        PlanIsPaired(plans, i);
        StillRunnable(c0, s0, moves, stampNs, client, share, plan);
        RunnableExactly(client, share, plan);
        if * {
          refused := refused + {i};
          failed := failed + Paths(plan);
        } else if a in client.local || Lookup(client.local, b) != Some(plan.after)
           || NodeAt(share, a) != File(FileMeta(plan.before.digest, plan.before.size, plan.expectedMtimeNs)) || !NodeAt(share, b).Missing? {
          failed := failed + Paths(plan);
        } else {
          PlanIsCarriedOut(c0, s0, moves, stampNs, client, share, plan);
          share := ShareAfter(share, plan, stampNs);
          client := ClientAfter(client, plan);
          moves := moves[a := b];
          completed := completed + Paths(plan);
        }
      }
    }
  }

  /** What was recognised and carried out is of the kind compared above. */
  lemma RecognisedMovesCanMove(c: Client, s: Share, paths: set<Path>, plans: seq<Plan>, moves: map<Path, Path>, a: Path)
    requires forall i :: 0 <= i < |plans| ==> Movable(c, s, paths, plans[i].source, plans[i].destination)
    requires forall x :: x in moves ==> (x, moves[x]) in Pairs(plans)
    requires a in moves
    ensures a in paths && moves[a] in paths && CanMove(At(c, s, a), At(c, s, moves[a]))
  {
    assert (a, moves[a]) in Pairs(plans);
    MovableCanMove(c, s, paths, a, moves[a]);
  }

  /* ---- directories ---- */

  predicate Under(dir: Path, p: Path) {
    dir + "/" <= p
  }

  function Rebased(src: Path, dst: Path, p: Path): Path
    requires Under(dst, p)
  {
    src + p[|dst|..]
  }

  /** A directory moves as a whole: every NAS file below it, listed or not. */
  ghost predicate DirectoryMoved(s: Share, src: Path, dst: Path, stampNs: int, s': Share) {
    forall x ::
      && NodeAt(s', x) == (if Under(dst, x) then NodeAt(s, Rebased(src, dst, x))
                           else if Under(src, x) then Missing else NodeAt(s, x))
      && RecordAt(s', x) == if Under(dst, x) && NodeAt(s, Rebased(src, dst, x)).File? then
                              Some(Record(Some(NodeAt(s, Rebased(src, dst, x)).meta), stampNs, None))
                            else if !Under(dst, x) && Under(src, x) && NodeAt(s, x).File? then Some(Record(None, stampNs, None))
                            else RecordAt(s, x)
  }

  /** The files a directory plan lists, each with its new place. */
  ghost predicate MapsDirectory(moves: map<Path, Path>, src: Path, dst: Path) {
    forall a :: a in moves ==> Under(src, a) && moves[a] == dst + a[|src|..]
  }

  lemma RebasedBack(src: Path, dst: Path, p: Path)
    requires Under(src, p)
    ensures Under(dst, dst + p[|src|..]) && Rebased(src, dst, dst + p[|src|..]) == p
  {
    assert p == src + p[|src|..];
    assert p[|src|..][0] == '/';
  }

  /** With nothing below the destination, a directory rename touches only the listed
      files and their new places exactly when the NAS directory holds no other file. */
  lemma DirectoryRenameIsExact(s: Share, moves: map<Path, Path>, src: Path, dst: Path, stampNs: int, s': Share)
    requires DirectoryMoved(s, src, dst, stampNs, s') && MapsDirectory(moves, src, dst)
    requires !Under(src, dst + "/") && !Under(dst, src + "/") && src != dst
    requires forall x :: Under(dst, x) ==> NodeAt(s, x).Missing?
    requires forall x :: Under(src, x) ==> !NodeAt(s, x).Special?
    requires forall a :: a in moves ==> NodeAt(s, a).File?
    ensures (forall x :: x !in moves.Keys + moves.Values ==> NodeAt(s', x) == NodeAt(s, x))
            <==> forall x :: Under(src, x) && NodeAt(s, x).File? ==> x in moves
  {
    DirectoriesAreApart(src, dst);
    if forall x :: Under(src, x) && NodeAt(s, x).File? ==> x in moves {
      forall x | x !in moves.Keys + moves.Values ensures NodeAt(s', x) == NodeAt(s, x) {
        if Under(dst, x) {
          RebasedUnder(src, dst, x);
          MovedFilesAreListed(s, moves, src, dst, x);
        }
      }
    }
    if forall x :: x !in moves.Keys + moves.Values ==> NodeAt(s', x) == NodeAt(s, x) {
      forall x | Under(src, x) && NodeAt(s, x).File? ensures x in moves {
        assert !Under(dst, x);
        assert NodeAt(s', x).Missing?;
        forall a | a in moves ensures moves[a] != x {
          RebasedBack(src, dst, a);
        }
      }
    }
  }

  lemma MovedFilesAreListed(s: Share, moves: map<Path, Path>, src: Path, dst: Path, x: Path)
    requires MapsDirectory(moves, src, dst) && Under(dst, x)
    requires forall y :: Under(src, y) && NodeAt(s, y).File? ==> y in moves
    ensures NodeAt(s, Rebased(src, dst, x)).File? ==> x in moves.Values
  {
    RebasedUnder(src, dst, x);
    var a := Rebased(src, dst, x);
    if a in moves {
      assert moves[a] == x;
    }
  }

  lemma RebasedUnder(src: Path, dst: Path, x: Path)
    requires Under(dst, x)
    ensures Under(src, Rebased(src, dst, x)) && dst + Rebased(src, dst, x)[|src|..] == x
  {
    assert x[|dst|] == '/';
    var a := Rebased(src, dst, x);
    assert a[|src|] == '/';
    assert a[..|src| + 1] == src + "/";
    assert a[|src|..] == x[|dst|..];
    assert x == dst + x[|dst|..];
  }

  lemma BelowBoth(src: Path, dst: Path, x: Path)
    ensures Under(src, x) && Under(dst, x) && |src| <= |dst| ==> src == dst || Under(src, dst + "/")
  {
    if Under(src, x) && Under(dst, x) && |src| < |dst| {
      assert (dst + "/")[..|src| + 1] == x[..|src| + 1];
    } else if Under(src, x) && Under(dst, x) && |src| == |dst| {
      assert src == x[..|src|] && dst == x[..|src|];
    }
  }

  /** Neither directory contains the other, so nothing lies below both. */
  lemma DirectoriesAreApart(src: Path, dst: Path)
    requires !Under(src, dst + "/") && !Under(dst, src + "/") && src != dst
    ensures forall x :: !(Under(src, x) && Under(dst, x))
  {
    forall x ensures !(Under(src, x) && Under(dst, x)) {
      BelowBoth(src, dst, x);
      BelowBoth(dst, src, x);
    }
  }

  /** Then the directory rename is the renames of the listed files. */
  lemma DirectoryRenameIsFileRenames(c: Client, s: Share, moves: map<Path, Path>, src: Path, dst: Path, stampNs: int, c': Client, s': Share)
    requires DirectoryMoved(s, src, dst, stampNs, s') && MapsDirectory(moves, src, dst)
    requires !Under(src, dst + "/") && !Under(dst, src + "/") && src != dst
    requires forall x :: Under(dst, x) ==> NodeAt(s, x).Missing?
    requires forall x :: Under(src, x) ==> !NodeAt(s, x).Special?
    requires forall x :: Under(src, x) && NodeAt(s, x).File? <==> x in moves
    requires forall a :: a in moves ==> Lookup(c'.baseline, a) == Some(RecordedEntry(None, Lookup(c.deletions, a)))
    requires forall a :: a in moves ==> Lookup(c'.baseline, moves[a]) == Some(RecordedEntry(Lookup(c.local, moves[a]), None))
    requires forall x :: x !in moves.Keys + moves.Values ==> Lookup(c'.baseline, x) == Lookup(c.baseline, x)
    requires c'.local == c.local && c'.deletions == c.deletions
    ensures Renamed(c, s, moves, stampNs, c', s')
  {
    DirectoriesAreApart(src, dst);
    DirectoryRenameIsExact(s, moves, src, dst, stampNs, s');
    forall a | a in moves
      ensures At(c', s', a) == MovedSource(At(c, s, a), stampNs)
      ensures At(c', s', moves[a]) == MovedTarget(At(c, s, moves[a]), NodeAt(s, a), stampNs)
    {
      RebasedBack(src, dst, a);
      assert !Under(dst, a);
      assert Under(dst, moves[a]) && Rebased(src, dst, moves[a]) == a;
    }
    OtherRecordsStay(s, moves, src, dst, stampNs, s');
  }

  lemma OtherRecordsStay(s: Share, moves: map<Path, Path>, src: Path, dst: Path, stampNs: int, s': Share)
    requires DirectoryMoved(s, src, dst, stampNs, s') && MapsDirectory(moves, src, dst)
    requires forall x :: Under(src, x) && NodeAt(s, x).File? <==> x in moves
    ensures forall x :: x !in moves.Keys + moves.Values ==> RecordAt(s', x) == RecordAt(s, x)
  {
    forall x | x !in moves.Keys + moves.Values ensures RecordAt(s', x) == RecordAt(s, x) {
      if Under(dst, x) {
        RebasedUnder(src, dst, x);
        MovedFilesAreListed(s, moves, src, dst, x);
      }
    }
  }
}
