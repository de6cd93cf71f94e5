/** One client and the NAS share together: what a chunk does to all paths, what it may
    lose, and what a crash in the middle of it costs. */
module Repository {
  import opened CausalVersions
  import opened SyncState
  import opened Reconcile
  import opened Chunk

  datatype Client = Client(local: map<Path, Fingerprint>, baseline: map<Path, Fingerprint>, deletions: map<Path, Clock>)

  datatype Share = Share(nodes: map<Path, Node>, records: map<Path, Record>)

  function Lookup<T>(m: map<Path, T>, p: Path): Option<T> {
    if p in m then Some(m[p]) else None
  }

  function NodeAt(s: Share, p: Path): Node {
    if p in s.nodes then s.nodes[p] else Missing
  }

  function RecordAt(s: Share, p: Path): Option<Record> {
    Lookup(s.records, p)
  }

  function At(c: Client, s: Share, p: Path): PathView {
    PathView(Lookup(c.local, p), Lookup(c.baseline, p), NodeAt(s, p), RecordAt(s, p), Lookup(c.deletions, p))
  }

  function PlanAt(c: Client, s: Share, settings: Settings, p: Path): Planned {
    PlanFor(At(c, s, p), settings)
  }

  predicate SameClientPath(c: Client, c': Client, p: Path) {
    Lookup(c'.local, p) == Lookup(c.local, p) && Lookup(c'.baseline, p) == Lookup(c.baseline, p)
    && Lookup(c'.deletions, p) == Lookup(c.deletions, p)
  }

  /* ---- conflict copies ---- */

  /** Where the losing version with a given digest is kept. */
  type Naming = (Path, string) -> Path

  datatype Copy = Copy(target: Path, meta: FileMeta, version: Option<Clock>)

  /** The conflict copy a path needs; journaled with the clock of the losing side. */
  function CopyAt(c: Client, s: Share, naming: Naming, settings: Settings, p: Path): Option<Copy> {
    var plan := PlanAt(c, s, settings, p);
    match CopyOf(At(c, s, p), plan)
    case None => None
    case Some(meta) =>
      Some(Copy(naming(p, meta.digest), meta,
                if plan.action.CONFLICT_LOCAL_WINS? then plan.remote.causal
                else if plan.seen.Some? then plan.seen.value.causal
                else None))
  }

  function Copies(c: Client, s: Share, naming: Naming, settings: Settings, paths: set<Path>): map<Path, Copy> {
    map p | p in paths && CopyAt(c, s, naming, settings, p).Some? :: CopyAt(c, s, naming, settings, p).value
  }

  /** A conflict name is free on the NAS or already holds the same content, is not
      itself being pushed, and serves one path only. */
  ghost predicate SafeNames(s: Share, paths: set<Path>, copies: map<Path, Copy>) {
    && (forall p :: p in copies ==>
          && p in paths
          && copies[p].target !in paths
          && (NodeAt(s, copies[p].target).Missing? || NodeContent(NodeAt(s, copies[p].target)) == Some(copies[p].meta.digest)))
    && (forall p, p' :: p in copies && p' in copies && copies[p].target == copies[p'].target ==> p == p')
  }

  ghost predicate CopiedTo(copies: map<Path, Copy>, cut: map<Path, nat>, x: Path) {
    exists p :: p in copies && p in cut && cut[p] >= COPIED && copies[p].target == x
  }

  /** What happens on the NAS outside the pushed paths: the conflict copies, journaled
      with the rest of the chunk, and nothing else. */
  ghost predicate OnlyCopies(s: Share, s': Share, paths: set<Path>, copies: map<Path, Copy>, cut: map<Path, nat>, stampNs: int) {
    && (forall p :: p in copies && p in cut && cut[p] >= COPIED ==>
          && NodeAt(s', copies[p].target) == File(copies[p].meta)
          && RecordAt(s', copies[p].target) == if cut[p] >= JOURNALED
                                               then Some(Record(Some(copies[p].meta), stampNs, copies[p].version))
                                               else RecordAt(s, copies[p].target))
    && (forall x :: x !in paths && !CopiedTo(copies, cut, x) ==>
          NodeAt(s', x) == NodeAt(s, x) && RecordAt(s', x) == RecordAt(s, x))
  }

  /* ---- the chunk ---- */

  /** What a chunk has done when every path has reached the phase given by `cut`. All
      phases of all paths are COMMITTED in a chunk that ran to its end; any other cut
      is a chunk that died on the way. */
  ghost predicate ChunkEffect(c: Client, s: Share, naming: Naming, settings: Settings, paths: set<Path>, cut: map<Path, nat>,
                              c': Client, s': Share)
  {
    && paths <= cut.Keys
    && (forall p :: p in paths ==> At(c', s', p) == Through(At(c, s, p), PlanAt(c, s, settings, p), cut[p]))
    && (forall x :: x !in paths ==> SameClientPath(c, c', x))
    && OnlyCopies(s, s', paths, Copies(c, s, naming, settings, paths), cut, settings.stampNs)
  }

  function ToTheEnd(paths: set<Path>): map<Path, nat> {
    map p | p in paths :: COMMITTED
  }

  ghost predicate Finished(c: Client, s: Share, naming: Naming, settings: Settings, paths: set<Path>, c': Client, s': Share) {
    ChunkEffect(c, s, naming, settings, paths, ToTheEnd(paths), c', s')
  }

  ghost predicate Pushable(c: Client, s: Share, settings: Settings, paths: set<Path>) {
    forall p :: p in paths ==> ViewOk(At(c, s, p)) && !Obstructed(At(c, s, p), settings)
  }

  /* ---- nothing concurrent is lost ---- */

  /** The content is live on the NAS under its path or its conflict name. */
  predicate Kept(s: Share, naming: Naming, p: Path, digest: string) {
    NodeContent(NodeAt(s, p)) == Some(digest) || NodeContent(NodeAt(s, naming(p, digest))) == Some(digest)
  }

  /** Every content live on either side before a chunk, however far the chunk got:
      NAS content is afterwards kept on the NAS, unless it was the common base that
      the local side had moved away from, or older than the local deletion by its
      clock; local content is still local or kept on the NAS. */
  lemma ChunkLosesNothing(c: Client, s: Share, naming: Naming, settings: Settings, paths: set<Path>, cut: map<Path, nat>,
                          c': Client, s': Share, x: Path)
    requires ChunkEffect(c, s, naming, settings, paths, cut, c', s')
    requires SafeNames(s, paths, Copies(c, s, naming, settings, paths))
    requires forall p :: p in paths ==> ViewOk(At(c, s, p))
    ensures var v := At(c, s, x);
            && (v.node.File? ==>
                  || Kept(s', naming, x, v.node.meta.digest)
                  || (x in paths && NodeContent(v.node) == BaseContent(v) && ContentOf(v.local) != BaseContent(v))
                  || (x in paths && v.local.None? && v.deletionClock.Some? && Dominates(v.deletionClock.value, Live(v.node, v.record).causal)))
            && (x in c.local ==>
                  || (x in c'.local && c'.local[x].digest == c.local[x].digest)
                  || Kept(s', naming, x, c.local[x].digest))
  {
    var copies := Copies(c, s, naming, settings, paths);
    if x in paths {
      FinishedPathLosesNothing(At(c, s, x), settings, cut[x]);
      if cut[x] >= COPIED && x in copies {
        assert NodeAt(s', copies[x].target) == File(copies[x].meta);
      }
      assert At(c', s', x).local == Lookup(c'.local, x);
    } else {
      assert SameClientPath(c, c', x);
      OutsideContentIsKept(s, s', paths, copies, cut, settings.stampNs, x);
    }
  }

  lemma OutsideContentIsKept(s: Share, s': Share, paths: set<Path>, copies: map<Path, Copy>, cut: map<Path, nat>, stampNs: int, x: Path)
    requires SafeNames(s, paths, copies) && OnlyCopies(s, s', paths, copies, cut, stampNs) && x !in paths
    ensures NodeAt(s, x).File? ==> NodeContent(NodeAt(s', x)) == NodeContent(NodeAt(s, x))
  {
    if CopiedTo(copies, cut, x) {
      var p :| p in copies && p in cut && cut[p] >= COPIED && copies[p].target == x;
    }
  }

  /* ---- crash recovery ---- */

  ghost predicate Recoverable(c: Client, s: Share, naming: Naming, settings: Settings, paths: set<Path>) {
    && Pushable(c, s, settings, paths)
    && SafeNames(s, paths, Copies(c, s, naming, settings, paths))
  }

  /** The contents a path will have once its chunk has run to the end. */
  function Outcome(c: Client, s: Share, settings: Settings, p: Path): PathView {
    Through(At(c, s, p), PlanAt(c, s, settings, p), COMMITTED)
  }

  /** The NAS content a path outside the chunk will have: its own, or a conflict copy. */
  ghost function Expected(s: Share, copies: map<Path, Copy>, x: Path): Option<string> {
    if exists p :: p in copies && copies[p].target == x then
      var p :| p in copies && copies[p].target == x;
      Some(copies[p].meta.digest)
    else NodeContent(NodeAt(s, x))
  }

  /** The copies still planned after an attempt: the same ones, fewer at most, and
      those not yet made are all still there. */
  ghost predicate Remaining(copies: map<Path, Copy>, copies': map<Path, Copy>, cut: map<Path, nat>) {
    && (forall p :: p in copies' ==> p in copies && copies'[p].target == copies[p].target && copies'[p].meta == copies[p].meta)
    && (forall p :: p in copies && !(p in cut && cut[p] >= COPIED) ==> p in copies')
  }

  lemma AttemptKeepsNames(s: Share, s': Share, paths: set<Path>, copies: map<Path, Copy>, copies': map<Path, Copy>,
                          cut: map<Path, nat>, stampNs: int)
    requires SafeNames(s, paths, copies) && OnlyCopies(s, s', paths, copies, cut, stampNs) && Remaining(copies, copies', cut)
    ensures SafeNames(s', paths, copies')
  {
    forall p | p in copies'
      ensures NodeAt(s', copies'[p].target).Missing? || NodeContent(NodeAt(s', copies'[p].target)) == Some(copies'[p].meta.digest)
    {
      if CopiedTo(copies, cut, copies[p].target) {
        var o :| o in copies && o in cut && cut[o] >= COPIED && copies[o].target == copies[p].target;
        assert o == p;
      }
    }
  }

  lemma AttemptKeepsExpected(s: Share, s': Share, paths: set<Path>, copies: map<Path, Copy>, copies': map<Path, Copy>,
                             cut: map<Path, nat>, stampNs: int, x: Path)
    requires SafeNames(s, paths, copies) && OnlyCopies(s, s', paths, copies, cut, stampNs) && Remaining(copies, copies', cut)
    requires x !in paths
    ensures Expected(s', copies', x) == Expected(s, copies, x)
  {
    if p :| p in copies && copies[p].target == x {
      assert Expected(s, copies, x) == Some(copies[p].meta.digest);
      if p in copies' {
        assert Expected(s', copies', x) == Some(copies[p].meta.digest);
      } else {
        assert NodeAt(s', x) == File(copies[p].meta);
        assert forall o :: o in copies' && copies'[o].target == x ==> o == p;
      }
    } else {
      assert !CopiedTo(copies, cut, x);
      assert forall o :: o in copies' ==> copies'[o].target != x;
    }
  }

  lemma FinishedContent(s: Share, s': Share, paths: set<Path>, copies: map<Path, Copy>, cut: map<Path, nat>, stampNs: int, x: Path)
    requires SafeNames(s, paths, copies) && OnlyCopies(s, s', paths, copies, cut, stampNs)
    requires forall p :: p in copies ==> p in cut && cut[p] >= COPIED
    requires x !in paths
    ensures NodeContent(NodeAt(s', x)) == Expected(s, copies, x)
  {
    if p :| p in copies && copies[p].target == x {
      assert NodeAt(s', x) == File(copies[p].meta);
      assert Expected(s, copies, x) == Some(copies[p].meta.digest);
    } else {
      assert !CopiedTo(copies, cut, x);
    }
  }

  /** The last record of the path will have the same content. */
  predicate SameRecord(c: Client, s: Share, settings: Settings, c0: Client, s0: Share, settings0: Settings, p: Path) {
    RecordContent(Outcome(c, s, settings, p).record) == RecordContent(Outcome(c0, s0, settings0, p).record)
  }

  lemma PathReplans(c: Client, s: Share, naming: Naming, settings: Settings, settings': Settings, paths: set<Path>,
                    cut: map<Path, nat>, c': Client, s': Share, p: Path)
    requires Recoverable(c, s, naming, settings, paths) && ChunkEffect(c, s, naming, settings, paths, cut, c', s')
    requires settings'.deleteEnabled == settings.deleteEnabled && p in paths
    ensures ViewOk(At(c', s', p)) && !Obstructed(At(c', s', p), settings')
    ensures SameLive(Outcome(c', s', settings', p), Outcome(c, s, settings, p))
    ensures SameRecord(c', s', settings', c, s, settings, p) <==> !(WinsUnrecorded(At(c, s, p), settings) && cut[p] >= SETTLED)
    ensures WinsUnrecorded(At(c, s, p), settings) && cut[p] >= SETTLED ==> Accurate(Outcome(c', s', settings', p))
    ensures WinsUnrecorded(At(c', s', p), settings') <==> WinsUnrecorded(At(c, s, p), settings) && cut[p] < SETTLED
    ensures var copy, copy' := CopyAt(c, s, naming, settings, p), CopyAt(c', s', naming, settings', p);
            && (copy'.Some? ==> copy.Some? && copy'.value.target == copy.value.target && copy'.value.meta == copy.value.meta)
            && (copy.Some? && cut[p] < COPIED ==> copy'.Some?)
  {
    ReplanAfterCrash(At(c, s, p), settings, settings', cut[p]);
  }

  /** An attempt that died anywhere leaves a state with the same future; only an unrecorded
      NAS win that it had taken over will be journaled where it would not have been. */
  lemma AttemptKeepsOutcome(c: Client, s: Share, naming: Naming, settings: Settings, settings': Settings, paths: set<Path>,
                            cut: map<Path, nat>, c': Client, s': Share)
    requires Recoverable(c, s, naming, settings, paths) && ChunkEffect(c, s, naming, settings, paths, cut, c', s')
    requires settings'.deleteEnabled == settings.deleteEnabled
    ensures Recoverable(c', s', naming, settings', paths)
    ensures SameFuture(c', s', settings', c, s, settings, naming, paths)
    ensures forall p :: p in paths ==>
              && (SameRecord(c', s', settings', c, s, settings, p) <==> !(WinsUnrecorded(At(c, s, p), settings) && cut[p] >= SETTLED))
              && (WinsUnrecorded(At(c, s, p), settings) && cut[p] >= SETTLED ==> Accurate(Outcome(c', s', settings', p)))
              && (WinsUnrecorded(At(c', s', p), settings') <==> WinsUnrecorded(At(c, s, p), settings) && cut[p] < SETTLED)
  {
    hide Accurate, SameLive, SameRecord, WinsUnrecorded, ViewOk, Obstructed, Outcome, CopyAt;
    var copies, copies' := Copies(c, s, naming, settings, paths), Copies(c', s', naming, settings', paths);
    forall p | p in paths
      ensures ViewOk(At(c', s', p)) && !Obstructed(At(c', s', p), settings')
      ensures SameLive(Outcome(c', s', settings', p), Outcome(c, s, settings, p))
      ensures SameRecord(c', s', settings', c, s, settings, p) <==> !(WinsUnrecorded(At(c, s, p), settings) && cut[p] >= SETTLED)
      ensures WinsUnrecorded(At(c, s, p), settings) && cut[p] >= SETTLED ==> Accurate(Outcome(c', s', settings', p))
      ensures WinsUnrecorded(At(c', s', p), settings') <==> WinsUnrecorded(At(c, s, p), settings) && cut[p] < SETTLED
      ensures p in copies' ==> p in copies && copies'[p].target == copies[p].target && copies'[p].meta == copies[p].meta
      ensures p in copies && !(p in cut && cut[p] >= COPIED) ==> p in copies'
    {
      PathReplans(c, s, naming, settings, settings', paths, cut, c', s', p);
    }
    assert Remaining(copies, copies', cut);
    AttemptKeepsNames(s, s', paths, copies, copies', cut, settings.stampNs);
    forall x | x !in paths ensures Expected(s', copies', x) == Expected(s, copies, x) {
      AttemptKeepsExpected(s, s', paths, copies, copies', cut, settings.stampNs, x);
    }
  }

  /** The live contents after a finished chunk, against another state with the same future. */
  ghost predicate SameFuture(c: Client, s: Share, settings: Settings, c0: Client, s0: Share, settings0: Settings,
                             naming: Naming, paths: set<Path>)
  {
    && (forall p :: p in paths ==> SameLive(Outcome(c, s, settings, p), Outcome(c0, s0, settings0, p)))
    && (forall x :: x !in paths ==>
          && SameClientPath(c0, c, x)
          && Expected(s, Copies(c, s, naming, settings, paths), x) == Expected(s0, Copies(c0, s0, naming, settings0, paths), x))
  }

  /** A conflict copy made by a chunk that died is on the NAS for good, but it is in the
      journal exactly if the path was not yet sent (or taken over) when the chunk died, so
      that the copy is planned again, or if the chunk had already journaled it. */
  lemma CopyIsListedExactly(c: Client, s: Share, naming: Naming, settings: Settings, settings': Settings, paths: set<Path>,
                            cut: map<Path, nat>, c': Client, s': Share, c2: Client, s2: Share, p: Path)
    requires Recoverable(c, s, naming, settings, paths) && ChunkEffect(c, s, naming, settings, paths, cut, c', s')
    requires settings'.deleteEnabled == settings.deleteEnabled && Finished(c', s', naming, settings', paths, c2, s2)
    requires p in Copies(c, s, naming, settings, paths)
    ensures var copy := Copies(c, s, naming, settings, paths)[p];
            && NodeContent(NodeAt(s2, copy.target)) == Some(copy.meta.digest)
            && (if LastReplan(PlanAt(c, s, settings, p)) <= cut[p] < JOURNALED then RecordAt(s2, copy.target) == RecordAt(s, copy.target)
                else RecordContent(RecordAt(s2, copy.target)) == Some(Some(copy.meta.digest)))
  {
    hide PlanFor, Through, CopyOf, Obstructed, ViewOk, Outcome;
    var copies, copies' := Copies(c, s, naming, settings, paths), Copies(c', s', naming, settings', paths);
    AttemptKeepsOutcome(c, s, naming, settings, settings', paths, cut, c', s');
    PathReplans(c, s, naming, settings, settings', paths, cut, c', s', p);
    CopyIsPlannedAgain(At(c, s, p), settings, settings', cut[p]);
    assert p in copies' <==> CopyAt(c', s', naming, settings', p).Some?;
    if p in copies' {
      assert ToTheEnd(paths)[p] == COMMITTED;
    } else {
      RemainingTargets(c, s, naming, settings, settings', paths, cut, c', s', p);
      assert !CopiedTo(copies', ToTheEnd(paths), copies[p].target);
    }
  }

  lemma RemainingTargets(c: Client, s: Share, naming: Naming, settings: Settings, settings': Settings, paths: set<Path>,
                         cut: map<Path, nat>, c': Client, s': Share, p: Path)
    requires Recoverable(c, s, naming, settings, paths) && ChunkEffect(c, s, naming, settings, paths, cut, c', s')
    requires settings'.deleteEnabled == settings.deleteEnabled
    requires p in Copies(c, s, naming, settings, paths) && p !in Copies(c', s', naming, settings', paths)
    ensures var copies, copies' := Copies(c, s, naming, settings, paths), Copies(c', s', naming, settings', paths);
            forall o :: o in copies' ==> copies'[o].target != copies[p].target
  {
    hide PlanFor, Through, CopyAt, Obstructed, ViewOk, Outcome, ChunkEffect;
    var copies, copies' := Copies(c, s, naming, settings, paths), Copies(c', s', naming, settings', paths);
    forall o | o in copies' ensures o in copies && copies'[o].target == copies[o].target {
      PathReplans(c, s, naming, settings, settings', paths, cut, c', s', o);
    }
  }

  /* ---- the clocks a chunk leaves ---- */

  /** The clock the NAS reports for a path. */
  function ClockOnNas(s: Share, p: Path): Option<Clock> {
    if p in s.records && (p !in s.nodes || s.nodes[p].Missing? || (s.nodes[p].File? && s.records[p].put == Some(s.nodes[p].meta)))
    then s.records[p].causal else None
  }

  /** The conflict copy of a path: the name is made from the path and the losing content,
      and it comes with the losing side's clock. */
  lemma CopyCarriesLosingSide(c: Client, s: Share, naming: Naming, settings: Settings, p: Path)
    requires ViewOk(At(c, s, p))
    ensures CopyAt(c, s, naming, settings, p) ==
              match PlanAt(c, s, settings, p).action
              case CONFLICT_LOCAL_WINS =>
                (match NodeAt(s, p)
                 case File(m) => Some(Copy(naming(p, m.digest), m, ClockOnNas(s, p)))
                 case _ => None)
              case CONFLICT_REMOTE_WINS =>
                if p in c.local then
                  var l := c.local[p];
                  Some(Copy(naming(p, l.digest), FileMeta(l.digest, l.size, l.mtimeNs - l.mtimeNs % 1_000_000_000), l.causal))
                else None
              case _ => None
  {
    CopyExactly(At(c, s, p), settings);
    ClockIsReported(s, p);
    ReportedExactly(NodeAt(s, p), RecordAt(s, p));
  }

  lemma ClockIsReported(s: Share, p: Path)
    ensures Live(NodeAt(s, p), RecordAt(s, p)).causal == ClockOnNas(s, p)
  {
    ReportedExactly(NodeAt(s, p), RecordAt(s, p));
  }

  /** Which clocks a finished chunk leaves. An upload is journaled with the clock of the
      uploaded file; a delete is recorded with that of the local deletion; a path the NAS
      won is recorded with the clock the NAS reported; and a conflict copy is journaled
      with the clock of the version that lost. */
  lemma FinishedChunkClocks(c: Client, s: Share, naming: Naming, settings: Settings, paths: set<Path>, c': Client, s': Share, p: Path)
    requires Finished(c, s, naming, settings, paths, c', s') && Pushable(c, s, settings, paths) && p in paths
    ensures var a := PlanAt(c, s, settings, p).action;
            && (a.UPLOAD? || a.CONFLICT_LOCAL_WINS? ==>
                  && p in c.local && p in s'.records && p in c'.baseline
                  && s'.records[p] == Record(Some(FileMeta(c.local[p].digest, c.local[p].size, c.local[p].mtimeNs)), settings.stampNs, c.local[p].causal)
                  && c'.baseline[p].causal == NonEmpty(c.local[p].causal))
            && (a.DELETE_REMOTE? ==> p in c'.baseline && c'.baseline[p].causal == NonEmpty(Lookup(c.deletions, p)))
            && (a.CONFLICT_REMOTE_WINS? ==> p in c'.baseline && c'.baseline[p].causal == NonEmpty(ClockOnNas(s, p)))
    ensures CopyAt(c, s, naming, settings, p).Some? ==>
              var copy := CopyAt(c, s, naming, settings, p).value;
              RecordAt(s', copy.target) == Some(Record(Some(copy.meta), settings.stampNs, copy.version))
  {
    var v, w := At(c, s, p), At(c', s', p);
    assert ToTheEnd(paths)[p] == COMMITTED;
    assert w == Outcome(c, s, settings, p);
    assert CopyAt(c, s, naming, settings, p).Some? ==> p in Copies(c, s, naming, settings, paths);
    hide PlanFor, Through, CopyAt, Live;
    ViewIs(c, s, p);
    ViewIs(c', s', p);
    match PlanFor(v, settings).action
    case UPLOAD => FinishedUpload(v, settings);
    case CONFLICT_LOCAL_WINS => FinishedUpload(v, settings);
    case DELETE_REMOTE => FinishedDelete(v, settings);
    case CONFLICT_REMOTE_WINS =>
      FinishedNasWin(v, settings);
      ClockIsReported(s, p);
      ReportedExactly(v.node, v.record);
    case _ =>
  }

  /** What a chunk does outside its paths, finished or cut short: a path that is not pushed
      keeps its tree and base entries on the client, and changes on the NAS only where a
      conflict copy comes to lie. The deletion clocks stay as they are everywhere. */
  lemma ChunkSparesTheRest(c: Client, s: Share, naming: Naming, settings: Settings, paths: set<Path>, cut: map<Path, nat>,
                           c': Client, s': Share, x: Path)
    requires ChunkEffect(c, s, naming, settings, paths, cut, c', s')
    ensures Lookup(c'.deletions, x) == Lookup(c.deletions, x)
    ensures x !in paths ==> Lookup(c'.local, x) == Lookup(c.local, x) && Lookup(c'.baseline, x) == Lookup(c.baseline, x)
    ensures var copied := exists p :: p in paths && cut[p] >= 1 && CopyAt(c, s, naming, settings, p).Some?
                                      && CopyAt(c, s, naming, settings, p).value.target == x;
            x !in paths && !copied ==> NodeAt(s', x) == NodeAt(s, x) && RecordAt(s', x) == RecordAt(s, x)
    ensures forall p :: p in paths && cut[p] >= 1 && CopyAt(c, s, naming, settings, p).Some? ==>
                          NodeAt(s', CopyAt(c, s, naming, settings, p).value.target) == File(CopyAt(c, s, naming, settings, p).value.meta)
  {
    hide CopyAt, PlanFor, Through;
    var copies := Copies(c, s, naming, settings, paths);
    assert forall p :: p in copies <==> p in paths && CopyAt(c, s, naming, settings, p).Some?;
    if x in paths {
      DeletionClockStays(At(c, s, x), PlanAt(c, s, settings, x), cut[x]);
      assert At(c', s', x) == Through(At(c, s, x), PlanAt(c, s, settings, x), cut[x]);
    }
  }

  lemma DeletionClockStays(v: PathView, p: Planned, phase: nat)
    ensures Through(v, p, phase).deletionClock == v.deletionClock
  {
    hide Live, Authoritative;
  }

  lemma ViewIs(c: Client, s: Share, p: Path)
    ensures var v := At(c, s, p);
            && v.local == Lookup(c.local, p) && v.baseline == Lookup(c.baseline, p) && v.deletionClock == Lookup(c.deletions, p)
            && v.node == (if p in s.nodes then s.nodes[p] else Missing) && v.record == Lookup(s.records, p)
  {
  }

  /* ---- leaving out clean paths ---- */

  /** Planning clean paths as well has the same effect on every content as leaving
      them out. */
  lemma CleanPathsAddNothing(c: Client, s: Share, naming: Naming, settings: Settings, paths: set<Path>, clean: set<Path>,
                             c1: Client, s1: Share, c2: Client, s2: Share)
    requires SafeNames(s, paths + clean, Copies(c, s, naming, settings, paths + clean))
    requires forall p :: p in clean ==> ViewOk(At(c, s, p)) && CleanView(At(c, s, p))
    requires Finished(c, s, naming, settings, paths, c1, s1)
    requires Finished(c, s, naming, settings, paths + clean, c2, s2)
    ensures forall x :: NodeContent(NodeAt(s1, x)) == NodeContent(NodeAt(s2, x))
    ensures forall x :: ContentOf(Lookup(c1.local, x)) == ContentOf(Lookup(c2.local, x))
                     && ContentOf(Lookup(c1.baseline, x)) == ContentOf(Lookup(c2.baseline, x))
  {
    CleanPathsNeedNoCopies(c, s, naming, settings, paths, clean);
    forall x
      ensures NodeContent(NodeAt(s1, x)) == NodeContent(NodeAt(s2, x))
      ensures ContentOf(Lookup(c1.local, x)) == ContentOf(Lookup(c2.local, x))
           && ContentOf(Lookup(c1.baseline, x)) == ContentOf(Lookup(c2.baseline, x))
    {
      if x in paths {
        assert x in paths + clean;
        SamePlannedPath(c, s, naming, settings, paths, c1, s1, paths + clean, c2, s2, x);
      } else if x in clean {
        UntouchedCleanPath(c, s, naming, settings, paths, clean, c1, s1, c2, s2, x);
      } else {
        var copies := Copies(c, s, naming, settings, paths);
        FinishedContent(s, s1, paths, copies, ToTheEnd(paths), settings.stampNs, x);
        FinishedContent(s, s2, paths + clean, copies, ToTheEnd(paths + clean), settings.stampNs, x);
        assert SameClientPath(c, c1, x) && SameClientPath(c, c2, x);
      }
    }
  }

  lemma SamePlannedPath(c: Client, s: Share, naming: Naming, settings: Settings, paths: set<Path>, c1: Client, s1: Share,
                        more: set<Path>, c2: Client, s2: Share, x: Path)
    requires Finished(c, s, naming, settings, paths, c1, s1) && Finished(c, s, naming, settings, more, c2, s2)
    requires x in paths && x in more
    ensures At(c1, s1, x) == At(c2, s2, x)
  {
    assert ToTheEnd(paths)[x] == ToTheEnd(more)[x];
  }

  lemma UntouchedCleanPath(c: Client, s: Share, naming: Naming, settings: Settings, paths: set<Path>, clean: set<Path>,
                           c1: Client, s1: Share, c2: Client, s2: Share, x: Path)
    requires x in clean && x !in paths && ViewOk(At(c, s, x)) && CleanView(At(c, s, x))
    requires SafeNames(s, paths + clean, Copies(c, s, naming, settings, paths + clean))
    requires Copies(c, s, naming, settings, paths + clean) == Copies(c, s, naming, settings, paths)
    requires Finished(c, s, naming, settings, paths, c1, s1)
    requires Finished(c, s, naming, settings, paths + clean, c2, s2)
    ensures NodeContent(NodeAt(s1, x)) == NodeContent(NodeAt(s2, x))
    ensures ContentOf(Lookup(c1.local, x)) == ContentOf(Lookup(c2.local, x))
    ensures ContentOf(Lookup(c1.baseline, x)) == ContentOf(Lookup(c2.baseline, x))
  {
    var v, w := At(c, s, x), At(c2, s2, x);
    var n := ToTheEnd(paths + clean)[x];
    assert w == Through(v, PlanAt(c, s, settings, x), n);
    CleanPathKeepsNas(v, settings, n);
    assert w.node == NodeAt(s2, x) && w.local == Lookup(c2.local, x) && w.baseline == Lookup(c2.baseline, x);
    assert SameClientPath(c, c1, x);
    assert !CopiedTo(Copies(c, s, naming, settings, paths), ToTheEnd(paths), x);
  }

  lemma CleanPathsNeedNoCopies(c: Client, s: Share, naming: Naming, settings: Settings, paths: set<Path>, clean: set<Path>)
    requires forall p :: p in clean ==> ViewOk(At(c, s, p)) && CleanView(At(c, s, p))
    requires SafeNames(s, paths + clean, Copies(c, s, naming, settings, paths + clean))
    ensures Copies(c, s, naming, settings, paths + clean) == Copies(c, s, naming, settings, paths)
    ensures SafeNames(s, paths, Copies(c, s, naming, settings, paths))
  {
    forall p | p in clean ensures CopyAt(c, s, naming, settings, p).None? {
      CleanPathKeepsNas(At(c, s, p), settings, COMMITTED);
    }
  }
}
