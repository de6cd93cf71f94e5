/** The push worker's chunk as the program runs it: plan every path, then go through the
    planned paths phase by phase. Whatever the point at which it stops, the state is the
    one the per-path phases describe. */
module PushChunk {
  import opened CausalVersions
  import opened SyncState
  import opened Reconcile
  import opened Chunk
  import opened Repository

  /** How far each path is while phase `k` is being carried out and `todo` still waits. */
  function PhaseCut(paths: set<Path>, todo: set<Path>, k: nat): map<Path, nat>
    requires k > 0
  {
    map p | p in paths :: if p in todo then k - 1 else k
  }

  /** What the chunk started from. */
  datatype Start = Start(client: Client, share: Share, naming: Naming, settings: Settings, paths: set<Path>) {
    function Plan(p: Path): Planned {
      PlanAt(client, share, settings, p)
    }

    function View(p: Path): PathView {
      At(client, share, p)
    }

    function Reached(p: Path, k: nat): PathView {
      Through(View(p), Plan(p), k)
    }

    function Copied(): map<Path, Copy> {
      Copies(client, share, naming, settings, paths)
    }

    ghost predicate Ok() {
      SafeNames(share, paths, Copied()) && forall p :: p in paths ==> ViewOk(View(p))
    }

    /** The state is that of phase `k` with `todo` still to do. */
    ghost predicate During(todo: set<Path>, k: nat, c: Client, s: Share)
      requires k > 0
    {
      ChunkEffect(client, share, naming, settings, paths, PhaseCut(paths, todo, k), c, s)
    }
  }

  /** Outside the path being worked on the NAS changes only where that path's conflict
      copy lies: written in the first phase, journaled in the journal phase. */
  ghost predicate CopyStep(copies: map<Path, Copy>, stampNs: int, p: Path, k: nat, s: Share, s': Share) {
    && (forall x :: x != p && !(p in copies && x == copies[p].target) ==>
          NodeAt(s', x) == NodeAt(s, x) && RecordAt(s', x) == RecordAt(s, x))
    && (p in copies ==>
          && NodeAt(s', copies[p].target) == (if k == COPIED then File(copies[p].meta) else NodeAt(s, copies[p].target))
          && RecordAt(s', copies[p].target) == if k == JOURNALED then Some(Record(Some(copies[p].meta), stampNs, copies[p].version))
                                               else RecordAt(s, copies[p].target))
  }

  /** One path goes from phase k - 1 to phase k. */
  ghost predicate PathStep(b: Start, p: Path, k: nat, c: Client, s: Share, c': Client, s': Share) {
    && At(c', s', p) == b.Reached(p, k)
    && (forall x :: x != p ==> SameClientPath(c, c', x))
    && CopyStep(b.Copied(), b.settings.stampNs, p, k, s, s')
  }

  lemma StepInPhase(b: Start, todo: set<Path>, p: Path, k: nat, c: Client, s: Share, c': Client, s': Share)
    requires k > 0 && b.Ok() && p in todo && todo <= b.paths
    requires b.During(todo, k, c, s) && PathStep(b, p, k, c, s, c', s')
    ensures b.During(todo - {p}, k, c', s')
  {
    hide PlanFor, Copies, Through, ViewOk;
    var before, cut := PhaseCut(b.paths, todo, k), PhaseCut(b.paths, todo - {p}, k);
    CopiesInPhase(b.share, b.paths, b.Copied(), b.settings.stampNs, todo, p, k, s, s');
    forall x | x in b.paths ensures At(c', s', x) == b.Reached(x, cut[x]) {
      if x != p {
        assert At(c, s, x) == b.Reached(x, before[x]);
        assert p in b.Copied() ==> b.Copied()[p].target != x;
        SameView(c, s, c', s', x);
      }
    }
    forall x | x !in b.paths ensures SameClientPath(b.client, c', x) {
      assert SameClientPath(b.client, c, x) && SameClientPath(c, c', x);
    }
  }

  lemma SameView(c: Client, s: Share, c': Client, s': Share, x: Path)
    requires SameClientPath(c, c', x) && NodeAt(s', x) == NodeAt(s, x) && RecordAt(s', x) == RecordAt(s, x)
    ensures At(c', s', x) == At(c, s, x)
  {
  }

  lemma CopiesInPhase(s0: Share, paths: set<Path>, copies: map<Path, Copy>, stampNs: int, todo: set<Path>, p: Path, k: nat,
                      s: Share, s': Share)
    requires k > 0 && p in todo && todo <= paths && SafeNames(s0, paths, copies)
    requires OnlyCopies(s0, s, paths, copies, PhaseCut(paths, todo, k), stampNs) && CopyStep(copies, stampNs, p, k, s, s')
    ensures OnlyCopies(s0, s', paths, copies, PhaseCut(paths, todo - {p}, k), stampNs)
  {
    var before, cut := PhaseCut(paths, todo, k), PhaseCut(paths, todo - {p}, k);
    forall o | o in copies && cut[o] >= COPIED
      ensures NodeAt(s', copies[o].target) == File(copies[o].meta)
      ensures RecordAt(s', copies[o].target) == if cut[o] >= JOURNALED then Some(Record(Some(copies[o].meta), stampNs, copies[o].version))
                                                else RecordAt(s0, copies[o].target)
    {
      if o == p && k == COPIED {
        assert !CopiedTo(copies, before, copies[p].target);
      }
    }
    forall x | x !in paths && !CopiedTo(copies, cut, x)
      ensures NodeAt(s', x) == NodeAt(s0, x) && RecordAt(s', x) == RecordAt(s0, x)
    {
      assert !CopiedTo(copies, before, x);
      assert p in copies ==> copies[p].target != x;
    }
  }

  /** All paths are through phase k; the next one has work for `group` only. */
  lemma NextPhase(b: Start, group: set<Path>, k: nat, c: Client, s: Share)
    requires k > 0 && b.During({}, k, c, s) && group <= b.paths
    requires forall p :: p in b.paths && p !in group ==> b.Reached(p, k + 1) == b.Reached(p, k)
    requires k + 1 == JOURNALED ==> b.Copied().Keys <= group
    ensures b.During(group, k + 1, c, s)
  {
    hide PlanFor, Copies, Through;
    var before, cut := PhaseCut(b.paths, {}, k), PhaseCut(b.paths, group, k + 1);
    assert forall p :: p in b.paths ==> b.Reached(p, cut[p]) == b.Reached(p, before[p]);
    SameCopies(b.share, s, b.paths, b.Copied(), b.settings.stampNs, before, cut);
  }

  lemma SameCopies(s0: Share, s: Share, paths: set<Path>, copies: map<Path, Copy>, stampNs: int, before: map<Path, nat>, cut: map<Path, nat>)
    requires OnlyCopies(s0, s, paths, copies, before, stampNs)
    requires cut.Keys == before.Keys
    requires forall p :: p in copies && p in cut ==> (cut[p] >= COPIED <==> before[p] >= COPIED) && (cut[p] >= JOURNALED <==> before[p] >= JOURNALED)
    ensures OnlyCopies(s0, s, paths, copies, cut, stampNs)
  {
    forall x ensures CopiedTo(copies, cut, x) <==> CopiedTo(copies, before, x) {
    }
  }

  lemma Beginning(b: Start)
    ensures b.During(b.paths, COPIED, b.client, b.share)
  {
    assert forall p :: p in b.paths ==> PhaseCut(b.paths, b.paths, COPIED)[p] == 0;
  }

  /* ---- what each phase does to one path ---- */

  lemma PhaseByPhase(v: PathView, p: Planned)
    ensures Through(v, p, COPIED) == v
    ensures Through(v, p, FORGOTTEN) == Forget(Through(v, p, COPIED), p)
    ensures Through(v, p, SENT) == Send(Through(v, p, FORGOTTEN), p)
    ensures Through(v, p, SETTLED) == Settle(Through(v, p, SENT), p)
    ensures Through(v, p, REMOVED) == Remove(Through(v, p, SETTLED), p)
    ensures var w := Through(v, p, REMOVED);
            && Through(v, p, JOURNALED) == Journal(w, p, Listed(w, p))
            && Through(v, p, COMMITTED) == Commit(Through(v, p, JOURNALED), p, Authoritative(w, p, Listed(w, p)))
  {
  }

  /** Which paths have nothing to do in a phase. */
  lemma IdlePaths(v: PathView, settings: Settings)
    requires ViewOk(v)
    ensures var p := PlanFor(v, settings);
            && (!(p.action.REMOTE_WINS? && StaleDelete(v)) ==> Through(v, p, FORGOTTEN) == Through(v, p, COPIED))
            && (!Uploads(p) ==> Through(v, p, SENT) == Through(v, p, FORGOTTEN))
            && (!Adopts(p) ==> Through(v, p, SETTLED) == Through(v, p, SENT))
            && (!p.action.DELETE_REMOTE? ==> Through(v, p, REMOVED) == Through(v, p, SETTLED))
            && (!Listed(Through(v, p, REMOVED), p) ==> Through(v, p, JOURNALED) == Through(v, p, REMOVED))
            && (Listed(Through(v, p, REMOVED), p) ==> p.action.ADOPT? || Uploads(p))
            && (CopyOf(v, p).Some? ==> Uploads(p) || Adopts(p))
            && (Uploads(p) ==> v.local.Some? && Through(v, p, FORGOTTEN) == v)
  {
  }

  lemma RemovedExactly(v: PathView, settings: Settings, k: nat)
    requires ViewOk(v)
    ensures var p := PlanFor(v, settings);
            v.node.File? && Through(v, p, k).node.Missing? <==> p.action.DELETE_REMOTE? && k >= REMOVED
  {
  }

  lemma AtPhase(b: Start, todo: set<Path>, p: Path, k: nat, c: Client, s: Share)
    requires k > 0 && b.During(todo, k, c, s) && p in todo && todo <= b.paths
    ensures At(c, s, p) == b.Reached(p, k - 1)
  {
    assert PhaseCut(b.paths, todo, k)[p] == k - 1;
  }

  /** A step that touches its own path only. */
  lemma OwnStep(b: Start, todo: set<Path>, p: Path, k: nat, c: Client, s: Share, c': Client, s': Share)
    requires k > 0 && k != COPIED && k != JOURNALED && b.Ok() && p in todo && todo <= b.paths
    requires b.During(todo, k, c, s) && At(c', s', p) == b.Reached(p, k)
    requires forall x :: x != p ==> SameClientPath(c, c', x) && NodeAt(s', x) == NodeAt(s, x) && RecordAt(s', x) == RecordAt(s, x)
    ensures b.During(todo - {p}, k, c', s')
  {
    hide PlanFor, Copies, Through, ViewOk, Start.During, At, NodeAt, RecordAt;
    assert p in b.Copied() ==> b.Copied()[p].target != p;
    assert PathStep(b, p, k, c, s, c', s');
    hide Start.Ok, PathStep;
    StepInPhase(b, todo, p, k, c, s, c', s');
  }

  function Journaling(s: Share, p: Path, meta: FileMeta, stampNs: int, version: Option<Clock>): Share {
    s.(records := s.records[p := Record(Some(meta), stampNs, version)])
  }

  /** One path's entry in the journal, and that of its conflict copy. */
  function WithEntries(s: Share, copies: map<Path, Copy>, p: Path, plan: Planned, entry: Option<FileMeta>): Share {
    var own := if entry.Some? then Journaling(s, p, entry.value, plan.stampNs, plan.version) else s;
    if p in copies then Journaling(own, copies[p].target, copies[p].meta, plan.stampNs, copies[p].version) else own
  }

  function Entry(v: PathView, listed: bool): Option<FileMeta> {
    if listed && v.node.File? then Some(FileMeta(Confirmed(v).digest, Confirmed(v).size, Confirmed(v).mtimeNs)) else None
  }

  lemma EntriesAreStep(copies: map<Path, Copy>, p: Path, plan: Planned, c: Client, s: Share, listed: bool)
    requires p in copies ==> copies[p].target != p
    ensures var s' := WithEntries(s, copies, p, plan, Entry(At(c, s, p), listed));
            && CopyStep(copies, plan.stampNs, p, JOURNALED, s, s')
            && At(c, s', p) == Journal(At(c, s, p), plan, listed)
  {
  }

  lemma PathIsJournaled(b: Start, todo: set<Path>, p: Path, c: Client, s: Share)
    requires b.Ok() && p in todo && todo <= b.paths && b.During(todo, JOURNALED, c, s)
    ensures At(c, s, p) == b.Reached(p, REMOVED)
    ensures var listed := Listed(b.Reached(p, REMOVED), b.Plan(p));
            b.During(todo - {p}, JOURNALED, c, WithEntries(s, b.Copied(), p, b.Plan(p), Entry(At(c, s, p), listed)))
  {
    var listed := Listed(b.Reached(p, REMOVED), b.Plan(p));
    var s' := WithEntries(s, b.Copied(), p, b.Plan(p), Entry(At(c, s, p), listed));
    AtPhase(b, todo, p, JOURNALED, c, s);
    PhaseByPhase(b.View(p), b.Plan(p));
    assert b.Plan(p).stampNs == b.settings.stampNs;
    hide PlanFor, Copies, Through, ViewOk, WithEntries, CopyStep, Start.During;
    assert p in b.Copied() ==> b.Copied()[p].target != p;
    EntriesAreStep(b.Copied(), p, b.Plan(p), c, s, listed);
    assert PathStep(b, p, JOURNALED, c, s, c, s');
    StepInPhase(b, todo, p, JOURNALED, c, s, c, s');
  }

  /** The NAS files gone when a chunk stops are those of the paths past their delete. */
  lemma LostPaths(b: Start, todo: set<Path>, k: nat, c: Client, s: Share, x: Path)
    requires k > 0 && b.Ok() && b.During(todo, k, c, s)
    ensures NodeAt(b.share, x).File? && NodeAt(s, x).Missing?
            <==> x in b.paths && b.Plan(x).action.DELETE_REMOTE? && PhaseCut(b.paths, todo, k)[x] >= REMOVED
  {
    if x in b.paths {
      RemovedExactly(b.View(x), b.settings, PhaseCut(b.paths, todo, k)[x]);
      assert At(c, s, x).node == NodeAt(s, x);
    } else {
      OutsideContentIsKept(b.share, s, b.paths, b.Copied(), PhaseCut(b.paths, todo, k), b.settings.stampNs, x);
    }
  }

  /** While planning, the paths still to do look as they did at the start. */
  lemma StillAsAtStart(b: Start, rest: set<Path>, c: Client, s: Share, p: Path)
    requires b.During(rest, COPIED, c, s) && p in rest && rest <= b.paths
    ensures At(c, s, p) == b.View(p)
    ensures CopyAt(c, s, b.naming, b.settings, p) == if p in b.Copied() then Some(b.Copied()[p]) else None
  {
    assert PhaseCut(b.paths, rest, COPIED)[p] == 0;
    assert At(c, s, p) == b.Reached(p, 0) == b.View(p);
  }

  function WithCopy(s: Share, copies: map<Path, Copy>, p: Path): Share {
    if p in copies then s.(nodes := s.nodes[copies[p].target := File(copies[p].meta)]) else s
  }

  lemma CopyIsWritten(copies: map<Path, Copy>, stampNs: int, p: Path, s: Share)
    requires p in copies ==> copies[p].target != p
    ensures CopyStep(copies, stampNs, p, COPIED, s, WithCopy(s, copies, p))
    ensures NodeAt(WithCopy(s, copies, p), p) == NodeAt(s, p) && WithCopy(s, copies, p).records == s.records
  {
  }

  lemma PathIsPlanned(b: Start, rest: set<Path>, c: Client, s: Share, p: Path)
    requires b.Ok() && b.During(rest, COPIED, c, s) && p in rest && rest <= b.paths
    ensures b.During(rest - {p}, COPIED, c, WithCopy(s, b.Copied(), p))
  {
    var s' := WithCopy(s, b.Copied(), p);
    StillAsAtStart(b, rest, c, s, p);
    PhaseByPhase(b.View(p), b.Plan(p));
    hide PlanFor, Copies, Through, ViewOk, WithCopy, CopyStep, Start.During;
    CopyIsWritten(b.Copied(), b.settings.stampNs, p, s);
    assert At(c, s', p) == At(c, s, p);
    assert PathStep(b, p, COPIED, c, s, c, s');
    StepInPhase(b, rest, p, COPIED, c, s, c, s');
  }

  /** What the later phases have to do. */
  datatype Work = Work(uploads: set<Path>, deletes: set<Path>, adopted: set<Path>, remoteWins: set<Path>, adoptions: set<Path>)

  /** The work holds each path planned so far under its action, and nothing else. */
  ghost predicate Sorted(b: Start, todo: set<Path>, work: Work) {
    forall p ::
      var planned := p in b.paths && p !in todo;
      && (p in work.uploads <==> planned && Uploads(b.Plan(p)))
      && (p in work.deletes <==> planned && b.Plan(p).action.DELETE_REMOTE?)
      && (p in work.adopted <==> planned && b.Plan(p).action.ADOPT?)
      && (p in work.remoteWins <==> planned && b.Plan(p).action.REMOTE_WINS? && StaleDelete(b.View(p)))
      && (p in work.adoptions <==> planned && Adopts(b.Plan(p)))
  }

  lemma SortedOneMore(b: Start, todo: set<Path>, work: Work, p: Path, more: Work)
    requires Sorted(b, todo, work) && p in todo && todo <= b.paths
    requires forall x :: x in more.uploads <==> x in work.uploads || (x == p && Uploads(b.Plan(p)))
    requires forall x :: x in more.deletes <==> x in work.deletes || (x == p && b.Plan(p).action.DELETE_REMOTE?)
    requires forall x :: x in more.adopted <==> x in work.adopted || (x == p && b.Plan(p).action.ADOPT?)
    requires forall x :: x in more.remoteWins <==> x in work.remoteWins || (x == p && b.Plan(p).action.REMOTE_WINS? && StaleDelete(b.View(p)))
    requires forall x :: x in more.adoptions <==> x in work.adoptions || (x == p && Adopts(b.Plan(p)))
    ensures Sorted(b, todo - {p}, more)
  {
    hide Start.Plan, Start.View, Uploads, Adopts, StaleDelete;
  }

  lemma SortedWithin(b: Start, work: Work)
    requires Sorted(b, {}, work)
    ensures work.uploads <= b.paths && work.deletes <= b.paths && work.adopted <= b.paths
            && work.remoteWins <= b.paths && work.adoptions <= b.paths
  {
    hide Start.Plan, Start.View, Uploads, Adopts, StaleDelete;
  }

  lemma SortedAt(b: Start, work: Work, p: Path)
    requires Sorted(b, {}, work) && p in b.paths
    ensures p in work.uploads <==> Uploads(b.Plan(p))
    ensures p in work.deletes <==> b.Plan(p).action.DELETE_REMOTE?
    ensures p in work.adopted <==> b.Plan(p).action.ADOPT?
    ensures p in work.remoteWins <==> b.Plan(p).action.REMOTE_WINS? && StaleDelete(b.View(p))
    ensures p in work.adoptions <==> Adopts(b.Plan(p))
  {
    hide Start.Plan, Start.View, Uploads, Adopts, StaleDelete;
  }

  method AddTo(work: Work, p: Path, plan: Planned, view: PathView) returns (more: Work)
    ensures forall x :: x in more.uploads <==> x in work.uploads || (x == p && Uploads(plan))
    ensures forall x :: x in more.deletes <==> x in work.deletes || (x == p && plan.action.DELETE_REMOTE?)
    ensures forall x :: x in more.adopted <==> x in work.adopted || (x == p && plan.action.ADOPT?)
    ensures forall x :: x in more.remoteWins <==> x in work.remoteWins || (x == p && plan.action.REMOTE_WINS? && StaleDelete(view))
    ensures forall x :: x in more.adoptions <==> x in work.adoptions || (x == p && Adopts(plan))
  {
    more := work;
    match plan.action {
      case UPLOAD => more := work.(uploads := work.uploads + {p});
      case DELETE_REMOTE => more := work.(deletes := work.deletes + {p});
      case ADOPT => more := work.(adopted := work.adopted + {p});
      case CONFLICT_LOCAL_WINS => more := work.(uploads := work.uploads + {p});
      case CONFLICT_REMOTE_WINS =>
        if plan.seen.Some? {
          more := work.(adoptions := work.adoptions + {p});
        }
      case REMOTE_WINS =>
        if StaleDelete(view) {
          more := work.(remoteWins := work.remoteWins + {p});
        }
      case _ =>
    }
  }

  ghost predicate Planning(b: Start, todo: set<Path>, plans: map<Path, Planned>, copies: map<Path, Copy>) {
    && (forall p :: p in plans <==> p in b.paths && p !in todo)
    && (forall p :: p in plans ==> plans[p] == b.Plan(p) && !plans[p].action.BLOCK?)
    && (forall p :: p in copies <==> p in b.Copied() && p !in todo)
    && (forall p :: p in copies ==> copies[p] == b.Copied()[p])
  }

  lemma NothingPlanned(b: Start)
    ensures Planning(b, b.paths, map[], map[]) && Sorted(b, b.paths, Work({}, {}, {}, {}, {}))
  {
    assert forall p :: p in b.Copied() ==> p in b.paths;
  }

  lemma PlanningOneMore(b: Start, todo: set<Path>, plans: map<Path, Planned>, copies: map<Path, Copy>, p: Path)
    requires Planning(b, todo, plans, copies) && p in todo && todo <= b.paths
    ensures !b.Plan(p).action.BLOCK? ==> Planning(b, todo - {p}, plans[p := b.Plan(p)], if p in b.Copied() then copies[p := b.Copied()[p]] else copies)
  {
    hide Start.Plan, Start.Copied;
  }

  /* ---- from one phase to the next ---- */

  /** The state before the journal, path by path. */
  lemma ReadyToRecord(b: Start, c: Client, s: Share)
    requires b.Ok() && b.During({}, REMOVED, c, s)
    ensures forall p :: p in b.paths ==> At(c, s, p) == b.Reached(p, REMOVED)
    ensures forall p :: p in b.paths && b.Plan(p).action.DELETE_REMOTE? ==> NodeAt(s, p).Missing?
  {
    forall p | p in b.paths
      ensures At(c, s, p) == b.Reached(p, REMOVED)
      ensures b.Plan(p).action.DELETE_REMOTE? ==> NodeAt(s, p).Missing?
    {
      assert PhaseCut(b.paths, {}, REMOVED)[p] == REMOVED;
      LostPaths(b, {}, REMOVED, c, s, p);
    }
  }

  /** The order in which the sets are consulted gives the authoritative state. */
  lemma ReadBackIsAuthoritative(v: PathView, p: Planned, read: Option<Option<Fingerprint>>)
    requires p.action.DELETE_REMOTE? ==> v.node.Missing?
    requires Listed(v, p) ==> v.node.File?
    requires Adopts(p) ==> v.node.File? || (v.node.Missing? && v.record.Some?)
    requires read == if Listed(v, p) then (if v.node.File? then Some(Some(Confirmed(v))) else None)
                     else if p.action.ADOPT? then Some(v.local)
                     else if Adopts(p) then Some(if v.node.File? then Some(FromNas(v.node, v.record)) else None)
                     else if p.action.DELETE_REMOTE? then Some(None)
                     else None
    ensures read == Authoritative(v, p, Listed(v, p))
  {
  }

  lemma SettledOnClient(c: Client, s: Share, p: Path, plan: Planned, c': Client)
    requires Adopts(plan) && (NodeAt(s, p).File? || (NodeAt(s, p).Missing? && p in s.records))
    requires c' == c.(local := if NodeAt(s, p).File? then c.local[p := Fingerprint(NodeAt(s, p).meta.digest, NodeAt(s, p).meta.size, NodeAt(s, p).meta.mtimeNs, None)]
                               else c.local - {p})
    ensures At(c', s, p) == Settle(At(c, s, p), plan)
    ensures forall x :: x != p ==> SameClientPath(c, c', x)
  {
    hide Adopts;
  }

  /** What each finished path should be recorded as: the local fingerprint of what is
      journaled if it still is the NAS content, the disk where both sides agreed, the NAS
      version where it won, nothing for deletions. */
  function ReadBack(c: Client, s: Share, work: Work, completed: set<Path>, listed: set<Path>): map<Path, Option<Fingerprint>> {
    map p | p in completed + work.adoptions + work.adopted + listed ::
      if p in listed && NodeAt(s, p).File? then Some(Confirmed(At(c, s, p)))
      else if p in work.adopted then Lookup(c.local, p)
      else if p in work.adoptions && NodeAt(s, p).File? then Some(FromNas(NodeAt(s, p), RecordAt(s, p)))
      else None
  }

  /** The read-back fails when a listed file is missing or an adopted version is neither
      a file nor a recorded deletion. */
  predicate Readable(s: Share, work: Work, listed: set<Path>) {
    && (forall p :: p in listed ==> NodeAt(s, p).File?)
    && (forall p :: p in work.adoptions ==> NodeAt(s, p).File? || (NodeAt(s, p).Missing? && p in s.records))
  }

  lemma ReadBackIsRight(b: Start, c: Client, s: Share, work: Work, listed: set<Path>)
    requires b.Ok() && b.During({}, REMOVED, c, s) && Sorted(b, {}, work) && Readable(s, work, listed)
    requires listed == work.uploads + set p | p in work.adopted && p in c.local
    ensures listed <= b.paths && ReadBack(c, s, work, work.deletes, listed).Keys <= b.paths
    ensures forall p :: p in b.paths ==>
              && (p in listed <==> Listed(b.Reached(p, REMOVED), b.Plan(p)))
              && Lookup(ReadBack(c, s, work, work.deletes, listed), p)
                 == Authoritative(b.Reached(p, REMOVED), b.Plan(p), Listed(b.Reached(p, REMOVED), b.Plan(p)))
  {
    hide PlanFor, Copies, Through, Sorted, Start.During, Start.Ok, Start.Reached, Authoritative;
    ReadyToRecord(b, c, s);
    SortedWithin(b, work);
    forall p | p in b.paths
      ensures p in listed <==> Listed(b.Reached(p, REMOVED), b.Plan(p))
      ensures Lookup(ReadBack(c, s, work, work.deletes, listed), p)
              == Authoritative(b.Reached(p, REMOVED), b.Plan(p), Listed(b.Reached(p, REMOVED), b.Plan(p)))
    {
      SortedAt(b, work, p);
      assert At(c, s, p) == b.Reached(p, REMOVED);
      ReadBackIsAuthoritative(At(c, s, p), b.Plan(p), Lookup(ReadBack(c, s, work, work.deletes, listed), p));
    }
  }

  /** Under the lease nothing the read-back needs can be missing: what was uploaded or is
      taken for equal lies on the NAS, and what has won is a file or a recorded deletion. */
  lemma NothingIsMissing(b: Start, c: Client, s: Share, work: Work, listed: set<Path>)
    requires b.Ok() && b.During({}, REMOVED, c, s) && Sorted(b, {}, work) && Pushable(b.client, b.share, b.settings, b.paths)
    requires listed == work.uploads + set p | p in work.adopted && p in c.local
    ensures forall p :: p in listed ==> NodeAt(s, p).File?
    ensures forall p :: p in work.adoptions ==> NodeAt(s, p).File? || (NodeAt(s, p).Missing? && p in s.records)
  {
    hide PlanFor, Copies, Through, Sorted, Start.During, SafeNames, Uploads, Adopts, Obstructed;
    ReadyToRecord(b, c, s);
    SortedWithin(b, work);
    forall p | p in listed + work.adoptions
      ensures p in listed ==> NodeAt(s, p).File?
      ensures p in work.adoptions ==> NodeAt(s, p).File? || (NodeAt(s, p).Missing? && p in s.records)
    {
      SortedAt(b, work, p);
      assert At(c, s, p) == b.Reached(p, REMOVED);
      assert At(c, s, p).node == NodeAt(s, p) && At(c, s, p).record == RecordAt(s, p) && At(c, s, p).local == Lookup(c.local, p);
      NothingIsMissingAt(b.View(p), b.settings);
    }
  }

  lemma NothingIsMissingAt(v: PathView, settings: Settings)
    requires ViewOk(v) && !Obstructed(v, settings)
    ensures var p := PlanFor(v, settings);
            var w := Through(v, p, REMOVED);
            && (Uploads(p) || (p.action.ADOPT? && w.local.Some?) ==> w.node.File?)
            && (Adopts(p) ==> w.node.File? || (w.node.Missing? && w.record.Some?))
  {
  }

  /** The NAS files a stopped chunk has removed. */
  lemma LostSet(b: Start, work: Work, todo: set<Path>, k: nat, gone: set<Path>, c: Client, s: Share)
    requires k >= REMOVED && b.Ok() && b.During(todo, k, c, s) && Sorted(b, {}, work)
    requires gone == if k == REMOVED then work.deletes - todo else work.deletes
    ensures Stopped(b, PhaseCut(b.paths, todo, k), gone, c, s)
  {
    forall x ensures x in gone <==> NodeAt(b.share, x).File? && NodeAt(s, x).Missing? {
      LostPaths(b, todo, k, c, s, x);
      SortedWithin(b, work);
      if x in b.paths {
        SortedAt(b, work, x);
      }
    }
  }

  lemma NothingLostPlanning(b: Start, todo: set<Path>, k: nat, c: Client, s: Share)
    requires 0 < k < REMOVED && b.Ok() && b.During(todo, k, c, s)
    ensures Stopped(b, PhaseCut(b.paths, todo, k), {}, c, s)
  {
    forall x ensures !(NodeAt(b.share, x).File? && NodeAt(s, x).Missing?) {
      LostPaths(b, todo, k, c, s, x);
    }
  }

  /** Nothing was blocked and every winning NAS version could be read: no path of the
      chunk was obstructed. */
  lemma SettledIsPushable(b: Start, work: Work, c: Client, s: Share)
    requires b.Ok() && b.During({}, SETTLED, c, s) && Sorted(b, {}, work)
    requires forall p :: p in b.paths ==> !b.Plan(p).action.BLOCK?
    requires forall p :: p in work.adoptions ==> NodeAt(s, p).File? || (NodeAt(s, p).Missing? && p in s.records)
    ensures Pushable(b.client, b.share, b.settings, b.paths)
  {
    forall p | p in b.paths ensures ViewOk(b.View(p)) && !Obstructed(b.View(p), b.settings) {
      SortedAt(b, work, p);
      assert PhaseCut(b.paths, {}, SETTLED)[p] == SETTLED;
      assert At(c, s, p) == b.Reached(p, SETTLED);
      ObstructedExactly(b.View(p), b.settings);
    }
  }

  lemma ToForget(b: Start, work: Work, c: Client, s: Share)
    requires b.Ok() && Sorted(b, {}, work) && b.During({}, COPIED, c, s)
    ensures work.remoteWins <= b.paths && b.During(work.remoteWins, FORGOTTEN, c, s)
  {
    hide PlanFor, Copies, Through, Sorted, Start.During;
    SortedWithin(b, work);
    forall p | p in b.paths && p !in work.remoteWins ensures b.Reached(p, FORGOTTEN) == b.Reached(p, COPIED) {
      SortedAt(b, work, p);
      IdlePaths(b.View(p), b.settings);
    }
    NextPhase(b, work.remoteWins, COPIED, c, s);
  }

  lemma ToSend(b: Start, work: Work, c: Client, s: Share)
    requires b.Ok() && Sorted(b, {}, work) && b.During({}, FORGOTTEN, c, s)
    ensures work.uploads <= b.paths && b.During(work.uploads, SENT, c, s)
  {
    hide PlanFor, Copies, Through, Sorted, Start.During;
    SortedWithin(b, work);
    forall p | p in b.paths && p !in work.uploads ensures b.Reached(p, SENT) == b.Reached(p, FORGOTTEN) {
      SortedAt(b, work, p);
      IdlePaths(b.View(p), b.settings);
    }
    NextPhase(b, work.uploads, FORGOTTEN, c, s);
  }

  lemma ToSettle(b: Start, work: Work, c: Client, s: Share)
    requires b.Ok() && Sorted(b, {}, work) && b.During({}, SENT, c, s)
    ensures work.adoptions <= b.paths && b.During(work.adoptions, SETTLED, c, s)
  {
    hide PlanFor, Copies, Through, Sorted, Start.During;
    SortedWithin(b, work);
    forall p | p in b.paths && p !in work.adoptions ensures b.Reached(p, SETTLED) == b.Reached(p, SENT) {
      SortedAt(b, work, p);
      IdlePaths(b.View(p), b.settings);
    }
    NextPhase(b, work.adoptions, SENT, c, s);
  }

  lemma ToRemove(b: Start, work: Work, c: Client, s: Share)
    requires b.Ok() && Sorted(b, {}, work) && b.During({}, SETTLED, c, s)
    ensures work.deletes <= b.paths && b.During(work.deletes, REMOVED, c, s)
  {
    hide PlanFor, Copies, Through, Sorted, Start.During;
    SortedWithin(b, work);
    forall p | p in b.paths && p !in work.deletes ensures b.Reached(p, REMOVED) == b.Reached(p, SETTLED) {
      SortedAt(b, work, p);
      IdlePaths(b.View(p), b.settings);
    }
    NextPhase(b, work.deletes, SETTLED, c, s);
  }

  lemma ToJournal(b: Start, listed: set<Path>, c: Client, s: Share)
    requires b.Ok() && b.During({}, REMOVED, c, s)
    requires listed <= b.paths && forall p :: p in b.paths ==> (p in listed <==> Listed(b.Reached(p, REMOVED), b.Plan(p)))
    ensures listed + b.Copied().Keys <= b.paths && b.During(listed + b.Copied().Keys, JOURNALED, c, s)
  {
    hide PlanFor, Copies, Through, Sorted, Start.During;
    forall p | p in b.paths && p !in listed ensures b.Reached(p, JOURNALED) == b.Reached(p, REMOVED) {
      IdlePaths(b.View(p), b.settings);
    }
    NextPhase(b, listed + b.Copied().Keys, REMOVED, c, s);
  }

  lemma ToCommit(b: Start, confirmed: map<Path, Option<Fingerprint>>, c: Client, s: Share)
    requires b.Ok() && b.During({}, JOURNALED, c, s) && confirmed.Keys <= b.paths
    requires forall p :: p in b.paths ==>
               Lookup(confirmed, p) == Authoritative(b.Reached(p, REMOVED), b.Plan(p), Listed(b.Reached(p, REMOVED), b.Plan(p)))
    ensures b.During(confirmed.Keys, COMMITTED, c, s)
  {
    hide PlanFor, Copies, Through, Sorted, Start.During;
    forall p | p in b.paths && p !in confirmed ensures b.Reached(p, COMMITTED) == b.Reached(p, JOURNALED) {
      PhaseByPhase(b.View(p), b.Plan(p));
    }
    NextPhase(b, confirmed.Keys, JOURNALED, c, s);
  }

  function PlannedDeletes(c: Client, s: Share, settings: Settings, paths: set<Path>): set<Path> {
    set p | p in paths && PlanAt(c, s, settings, p).action.DELETE_REMOTE?
  }

  lemma DeletesArePlanned(b: Start, work: Work)
    requires Sorted(b, {}, work)
    ensures work.deletes == PlannedDeletes(b.client, b.share, b.settings, b.paths)
  {
    SortedWithin(b, work);
    forall p | p in b.paths ensures p in work.deletes <==> b.Plan(p).action.DELETE_REMOTE? {
      SortedAt(b, work, p);
    }
  }

  lemma PlannedActions(b: Start, plans: map<Path, Planned>, copies: map<Path, Copy>)
    requires Planning(b, {}, plans, copies)
    ensures forall p :: p in b.paths ==> !b.Plan(p).action.BLOCK?
    ensures copies.Keys == b.Copied().Keys
  {
  }

  lemma SortedActions(b: Start, work: Work)
    requires Sorted(b, {}, work)
    ensures forall p :: p in work.remoteWins ==> b.Plan(p).action.REMOTE_WINS? && StaleDelete(b.View(p))
    ensures forall p :: p in work.uploads ==> Uploads(b.Plan(p))
    ensures forall p :: p in work.adoptions ==> Adopts(b.Plan(p))
    ensures forall p :: p in work.deletes ==> b.Plan(p).action.DELETE_REMOTE?
  {
  }

  lemma BlockedIsObstructed(b: Start)
    ensures (exists p :: p in b.paths && b.Plan(p).action.BLOCK?) ==> !Pushable(b.client, b.share, b.settings, b.paths)
  {
    hide PlanFor;
    if p :| p in b.paths && b.Plan(p).action.BLOCK? {
      assert Obstructed(b.View(p), b.settings);
    }
  }

  /** A winning NAS version that cannot be read was obstructed from the start. */
  lemma UnreadableIsObstructed(b: Start, work: Work, adoptions: set<Path>, c: Client, s: Share)
    requires b.During(adoptions, SETTLED, c, s)
    requires adoptions == work.adoptions && Sorted(b, {}, work) && adoptions <= b.paths && b.Ok()
    requires exists p :: p in adoptions && !(NodeAt(s, p).File? || (NodeAt(s, p).Missing? && p in s.records))
    ensures !Pushable(b.client, b.share, b.settings, b.paths)
  {
    hide PlanFor, Through, Obstructed, Start.During, Sorted, Adopts;
    var p :| p in adoptions && !(NodeAt(s, p).File? || (NodeAt(s, p).Missing? && p in s.records));
    SortedAt(b, work, p);
    AtPhase(b, adoptions, p, SETTLED, c, s);
    assert At(c, s, p).node == NodeAt(s, p) && At(c, s, p).record == RecordAt(s, p);
    UnreadableView(b.View(p), b.settings);
  }

  lemma UnreadableView(v: PathView, settings: Settings)
    requires ViewOk(v) && Adopts(PlanFor(v, settings))
    ensures var w := Through(v, PlanFor(v, settings), SENT);
            w.node.File? || (w.node.Missing? && w.record.Some?) || Obstructed(v, settings)
  {
  }

  lemma UploadIsThere(b: Start, todo: set<Path>, p: Path, c: Client, s: Share)
    requires b.Ok() && b.During(todo, SENT, c, s) && p in todo && todo <= b.paths && Uploads(b.Plan(p))
    ensures p in c.local
  {
    hide PlanFor, Uploads;
    AtPhase(b, todo, p, SENT, c, s);
    IdlePaths(b.View(p), b.settings);
    assert At(c, s, p).local == Lookup(c.local, p);
  }

  lemma ConfirmationOf(b: Start)
    ensures forall p :: p in b.paths ==>
              Confirmation(b.View(p), b.settings) == Authoritative(b.Reached(p, REMOVED), b.Plan(p), Listed(b.Reached(p, REMOVED), b.Plan(p)))
  {
    hide PlanFor, Through, Authoritative, Listed;
  }

  /** Local deletions of a known file that the NAS has overruled. */
  predicate Overruled(v: PathView, settings: Settings) {
    v.local.None? && v.baseline.Some? && v.baseline.value.digest != "" && PlanFor(v, settings).action.REMOTE_WINS?
  }

  /** Every path is past the phase in which overruled deletions become the base. */
  ghost predicate PastForget(paths: set<Path>, cut: map<Path, nat>) {
    forall p :: p in paths ==> p in cut && cut[p] >= 2
  }

  lemma CutIsPastForget(paths: set<Path>, todo: set<Path>, k: nat)
    requires k > FORGOTTEN || (k == FORGOTTEN && todo == {})
    ensures PastForget(paths, PhaseCut(paths, todo, k))
  {
  }

  /** The state a chunk stopped in, and the NAS files gone from it. */
  ghost predicate Stopped(b: Start, cut: map<Path, nat>, deleted: set<Path>, c: Client, s: Share) {
    && ChunkEffect(b.client, b.share, b.naming, b.settings, b.paths, cut, c, s)
    && forall x :: x in deleted <==> NodeAt(b.share, x).File? && NodeAt(s, x).Missing?
  }

  lemma WholeChunk(b: Start, c: Client, s: Share)
    requires b.During({}, COMMITTED, c, s)
    ensures Finished(b.client, b.share, b.naming, b.settings, b.paths, c, s)
  {
    assert PhaseCut(b.paths, {}, COMMITTED) == ToTheEnd(b.paths);
  }

  /** Phase `k` is being carried out, by plans made for this start. */
  ghost predicate Working(b: Start, todo: set<Path>, k: nat, c: Client, s: Share, plans: map<Path, Planned>, copies: map<Path, Copy>)
    requires k > 0
  {
    b.Ok() && todo <= b.paths && b.During(todo, k, c, s) && Planning(b, {}, plans, copies)
  }

  /* ---- the worker ---- */

  class PushWorker {
    const naming: Naming
    var client: Client
    var share: Share
    var plans: map<Path, Planned>
    var copies: map<Path, Copy>   // the conflict copies made, by the path they belong to
    var pending: set<Path>        // the durable queue
    ghost var interrupted: bool   // something outside has failed: the disk, the network, the NAS

    constructor (naming: Naming, client: Client, share: Share, pending: set<Path>)
      ensures this.naming == naming && this.client == client && this.share == share && this.pending == pending && !interrupted
    {
      this.naming, this.client, this.share, plans, copies, this.pending := naming, client, share, map[], map[], pending;
      interrupted := false;
    }

    /** Plan one path from the live state; a losing version is stored beside the path at
        once. Fails when the path is blocked or the copy cannot be made. */
    method PlanPath(b: Start, ghost rest: set<Path>, p: Path) returns (done: bool, view: PathView, plan: Planned)
      requires b.Ok() && b.naming == naming && b.client == client && p in rest && rest <= b.paths
      requires b.During(rest, COPIED, client, share)
      modifies this`share, this`copies, this`interrupted
      ensures view == b.View(p) && plan == b.Plan(p)
      ensures if done then interrupted == old(interrupted) else interrupted || plan.action.BLOCK?
      ensures done ==> !plan.action.BLOCK? && b.During(rest - {p}, COPIED, client, share)
      ensures done ==> copies == if p in b.Copied() then old(copies)[p := b.Copied()[p]] else old(copies)
      ensures !done ==> share == old(share)
    {
      hide PlanFor, CopyAt, Start.Copied, Start.Ok, Start.During;
      StillAsAtStart(b, rest, client, share, p);
      view := At(client, share, p);
      plan := PlanFor(view, b.settings);
      if plan.action.BLOCK? {
        return false, view, plan;
      }
      var copy := CopyAt(client, share, naming, b.settings, p);
      PathIsPlanned(b, rest, client, share, p);
      if copy.Some? {
        if * {
          interrupted := true;
          return false, view, plan;
        }
        share := share.(nodes := share.nodes[copy.value.target := File(copy.value.meta)]);
        copies := copies[p := copy.value];
      }
      done := true;
    }

    /** Plan every path. */
    method BuildPlan(b: Start) returns (done: bool, work: Work, ghost rest: set<Path>)
      requires b.Ok() && b.naming == naming && b.client == client && b.share == share
      modifies this`share, this`plans, this`copies, this`interrupted
      ensures if done then interrupted == old(interrupted) else interrupted || exists p :: p in b.paths && b.Plan(p).action.BLOCK?
      ensures rest <= b.paths && b.During(rest, COPIED, client, share)
      ensures done ==> rest == {} && Planning(b, {}, plans, copies) && Sorted(b, {}, work)
    {
      hide Start.Ok, Start.During, Start.Plan, Start.View, Start.Copied, Uploads, Adopts, StaleDelete;
      work := Work({}, {}, {}, {}, {});
      hide Sorted, Planning;
      NothingPlanned(b);
      plans, copies := map[], map[];
      var todo := b.paths;
      Beginning(b);
      while todo != {}
        invariant interrupted == old(interrupted)
        invariant todo <= b.paths && b.During(todo, COPIED, client, share)
        invariant Planning(b, todo, plans, copies) && Sorted(b, todo, work)
        decreases todo
      {
        var p :| p in todo;
        PlanningOneMore(b, todo, plans, copies, p);
        var ok, view, plan := PlanPath(b, todo, p);
        if !ok {
          return false, work, todo;
        }
        plans := plans[p := plan];
        var more := AddTo(work, p, plan, view);
        SortedOneMore(b, todo, work, p, more);
        work := more;
        todo := todo - {p};
      }
      return true, work, {};
    }

    /** Local deletions the NAS has overruled become the base. */
    method Forget(ghost b: Start, remoteWins: set<Path>) returns (done: bool, ghost rest: set<Path>)
      requires Working(b, remoteWins, FORGOTTEN, client, share, plans, copies)
      requires forall p :: p in remoteWins ==> b.Plan(p).action.REMOTE_WINS? && StaleDelete(b.View(p))
      modifies this`client, this`interrupted
      ensures rest <= b.paths && b.During(rest, FORGOTTEN, client, share) && (done ==> rest == {})
      ensures if done then interrupted == old(interrupted) else interrupted
    {
      hide PlanFor, Through, Start.During, Start.Ok;
      var todo := remoteWins;
      while todo != {}
        invariant interrupted == old(interrupted)
        invariant todo <= remoteWins && Working(b, todo, FORGOTTEN, client, share, plans, copies)
        decreases todo
      {
        if * {
          interrupted := true;
          return false, todo;
        }
        var p :| p in todo;
        AtPhase(b, todo, p, FORGOTTEN, client, share);
        PhaseByPhase(b.View(p), b.Plan(p));
        ghost var c := client;
        client := client.(baseline := client.baseline[p := RecordedEntry(None, plans[p].version)]);
        OwnStep(b, todo, p, FORGOTTEN, c, share, client, share);
        todo := todo - {p};
      }
      return true, {};
    }

    /** Upload. */
    method Send(ghost b: Start, uploads: set<Path>) returns (done: bool, ghost rest: set<Path>)
      requires Working(b, uploads, SENT, client, share, plans, copies)
      requires forall p :: p in uploads ==> Uploads(b.Plan(p))
      modifies this`share, this`interrupted
      ensures rest <= b.paths && b.During(rest, SENT, client, share) && (done ==> rest == {})
      ensures if done then interrupted == old(interrupted) else interrupted
    {
      hide PlanFor, Through, Start.During, Start.Ok;
      var todo := uploads;
      while todo != {}
        invariant interrupted == old(interrupted)
        invariant todo <= uploads && Working(b, todo, SENT, client, share, plans, copies)
        decreases todo
      {
        var p :| p in todo;
        if * {
          interrupted := true;
          return false, todo;
        }
        AtPhase(b, todo, p, SENT, client, share);
        PhaseByPhase(b.View(p), b.Plan(p));
        UploadIsThere(b, todo, p, client, share);
        ghost var s := share;
        share := share.(nodes := share.nodes[p := File(NasMeta(client.local[p]))]);
        OwnStep(b, todo, p, SENT, client, s, client, share);
        todo := todo - {p};
      }
      return true, {};
    }

    /** Take over the NAS version where it won; refused as a whole when one of the
        paths is neither a file nor a recorded deletion there. */
    method Settle(ghost b: Start, adoptions: set<Path>, ghost work: Work) returns (done: bool, ghost rest: set<Path>)
      requires Working(b, adoptions, SETTLED, client, share, plans, copies) && Sorted(b, {}, work) && adoptions == work.adoptions
      requires forall p :: p in adoptions ==> Adopts(b.Plan(p))
      modifies this`client, this`interrupted
      ensures rest <= b.paths && b.During(rest, SETTLED, client, share) && (done ==> rest == {})
      ensures if done then interrupted == old(interrupted) else interrupted || !Pushable(b.client, b.share, b.settings, b.paths)
      ensures done ==> Pushable(b.client, b.share, b.settings, b.paths)
    {
      hide PlanFor, Through, Start.During, Start.Ok, Sorted, Pushable;
      PlannedActions(b, plans, copies);
      if exists p :: p in adoptions && !(NodeAt(share, p).File? || (NodeAt(share, p).Missing? && p in share.records)) {
        UnreadableIsObstructed(b, work, adoptions, client, share);
        return false, adoptions;
      }
      var todo := adoptions;
      while todo != {}
        invariant interrupted == old(interrupted)
        invariant todo <= adoptions && Working(b, todo, SETTLED, client, share, plans, copies)
        decreases todo
      {
        if * {
          interrupted := true;
          return false, todo;
        }
        var p :| p in todo;
        AtPhase(b, todo, p, SETTLED, client, share);
        PhaseByPhase(b.View(p), b.Plan(p));
        ghost var c := client;
        if NodeAt(share, p).File? {
          var m := NodeAt(share, p).meta;
          client := client.(local := client.local[p := Fingerprint(m.digest, m.size, m.mtimeNs, None)]);
        } else {
          client := client.(local := client.local - {p});
        }
        SettledOnClient(c, share, p, b.Plan(p), client);
        OwnStep(b, todo, p, SETTLED, c, share, client, share);
        todo := todo - {p};
      }
      SettledIsPushable(b, work, client, share);
      return true, {};
    }

    /** The conditional deletes: each one removes exactly the state it was planned for. */
    method Remove(ghost b: Start, deletes: set<Path>) returns (done: bool, completed: set<Path>, ghost rest: set<Path>)
      requires Working(b, deletes, REMOVED, client, share, plans, copies)
      requires forall p :: p in deletes ==> b.Plan(p).action.DELETE_REMOTE?
      modifies this`share, this`interrupted
      ensures if done then interrupted == old(interrupted) else interrupted
      ensures rest <= deletes && completed == deletes - rest
      ensures b.During(rest, REMOVED, client, share) && (done ==> rest == {})
    {
      hide PlanFor, Through, Start.During, Start.Ok;
      completed := {};
      var todo := deletes;
      while todo != {}
        invariant interrupted == old(interrupted)
        invariant todo <= deletes && Working(b, todo, REMOVED, client, share, plans, copies) && completed == deletes - todo
        decreases todo
      {
        if * {
          interrupted := true;
          return false, completed, todo;
        }
        var p :| p in todo;
        AtPhase(b, todo, p, REMOVED, client, share);
        PhaseByPhase(b.View(p), b.Plan(p));
        ghost var s := share;
        var plan := plans[p];
        if NodeAt(share, p).File? && NodeAt(share, p).meta.digest == plan.remote.digest
           && Seconds(NodeAt(share, p).meta.mtimeNs) == Seconds(plan.remote.mtimeNs) {
          share := Share(share.nodes[p := Missing], share.records[p := Record(None, plan.stampNs, None)]);
        }
        completed := completed + {p};
        OwnStep(b, todo, p, REMOVED, client, s, client, share);
        todo := todo - {p};
      }
      return true, completed, {};
    }

    /** Append the journal entries of what was written, conflict copies included. */
    method Journal(ghost b: Start, listed: set<Path>) returns (done: bool, ghost rest: set<Path>)
      requires Working(b, listed + copies.Keys, JOURNALED, client, share, plans, copies)
      requires forall p :: p in b.paths ==> (p in listed <==> Listed(b.Reached(p, REMOVED), b.Plan(p)))
      modifies this`share, this`interrupted
      ensures rest <= b.paths && b.During(rest, JOURNALED, client, share) && (done ==> rest == {})
      ensures if done then interrupted == old(interrupted) else interrupted
    {
      hide PlanFor, Through, Start.During, Start.Ok, Start.Reached, Listed, Confirmed;
      var todo := listed + copies.Keys;
      while todo != {}
        invariant interrupted == old(interrupted)
        invariant todo <= listed + copies.Keys && Working(b, todo, JOURNALED, client, share, plans, copies)
        decreases todo
      {
        if * {
          interrupted := true;
          return false, todo;
        }
        var p :| p in todo;
        PathIsJournaled(b, todo, p, client, share);
        var entry := Entry(At(client, share, p), p in listed);
        if entry.Some? {
          share := Journaling(share, p, entry.value, plans[p].stampNs, plans[p].version);
        }
        if p in copies {
          share := Journaling(share, copies[p].target, copies[p].meta, plans[p].stampNs, copies[p].version);
        }
        todo := todo - {p};
      }
      return true, {};
    }

    /** Record what was read back as the new base. */
    method Commit(ghost b: Start, confirmed: map<Path, Option<Fingerprint>>) returns (done: bool, ghost rest: set<Path>)
      requires Working(b, confirmed.Keys, COMMITTED, client, share, plans, copies)
      requires forall p :: p in b.paths ==>
                 Authoritative(b.Reached(p, REMOVED), b.Plan(p), Listed(b.Reached(p, REMOVED), b.Plan(p))) == Lookup(confirmed, p)
      modifies this`client, this`interrupted
      ensures rest <= b.paths && b.During(rest, COMMITTED, client, share) && (done ==> rest == {})
      ensures if done then interrupted == old(interrupted) else interrupted
    {
      hide PlanFor, Through, Start.During, Start.Ok, Listed, Authoritative;
      var todo := confirmed.Keys;
      while todo != {}
        invariant interrupted == old(interrupted)
        invariant todo <= confirmed.Keys && Working(b, todo, COMMITTED, client, share, plans, copies)
        decreases todo
      {
        if * {
          interrupted := true;
          return false, todo;
        }
        var p :| p in todo;
        AtPhase(b, todo, p, COMMITTED, client, share);
        PhaseByPhase(b.View(p), b.Plan(p));
        ghost var c := client;
        client := client.(baseline := client.baseline[p := RecordedEntry(confirmed[p], plans[p].version)]);
        OwnStep(b, todo, p, COMMITTED, c, share, client, share);
        todo := todo - {p};
      }
      return true, {};
    }

    /** Uploads, then adoptions of winning NAS versions. */
    method Exchange(ghost b: Start, work: Work) returns (ok: bool, ghost cut: map<Path, nat>)
      requires Working(b, {}, FORGOTTEN, client, share, plans, copies) && Sorted(b, {}, work)
      modifies this`client, this`share, this`interrupted
      ensures if ok then interrupted == old(interrupted) else interrupted || !Pushable(b.client, b.share, b.settings, b.paths)
      ensures Stopped(b, cut, {}, client, share) && PastForget(b.paths, cut)
      ensures ok ==> Working(b, {}, SETTLED, client, share, plans, copies) && Pushable(b.client, b.share, b.settings, b.paths)
    {
      hide Sorted, Start.Plan, Start.Ok, Start.During, Uploads, Adopts, StaleDelete, Pushable, Stopped, Planning, NodeAt;
      SortedActions(b, work);
      ghost var rest;
      ToSend(b, work, client, share);
      ok, rest := Send(b, work.uploads);
      cut := PhaseCut(b.paths, rest, SENT);
      CutIsPastForget(b.paths, rest, SENT);
      NothingLostPlanning(b, rest, SENT, client, share);
      if ok {
        ToSettle(b, work, client, share);
        ok, rest := Settle(b, work.adoptions, work);
        cut := PhaseCut(b.paths, rest, SETTLED);
        CutIsPastForget(b.paths, rest, SETTLED);
        NothingLostPlanning(b, rest, SETTLED, client, share);
      }
    }

    /** Everything sent, adopted and removed. */
    method Transfer(ghost b: Start, work: Work) returns (ok: bool, deleted: set<Path>, ghost cut: map<Path, nat>)
      requires Working(b, {}, FORGOTTEN, client, share, plans, copies) && Sorted(b, {}, work)
      modifies this`client, this`share, this`interrupted
      ensures if ok then interrupted == old(interrupted) else interrupted || !Pushable(b.client, b.share, b.settings, b.paths)
      ensures Stopped(b, cut, deleted, client, share) && PastForget(b.paths, cut) && deleted <= work.deletes
      ensures ok ==> deleted == work.deletes && Working(b, {}, REMOVED, client, share, plans, copies) && Pushable(b.client, b.share, b.settings, b.paths)
    {
      hide Sorted, Start.Plan, Start.Ok, Start.During, Uploads, Adopts, StaleDelete, Pushable, Stopped, Planning, NodeAt;
      SortedActions(b, work);
      deleted := {};
      ok, cut := Exchange(b, work);
      if ok {
        ghost var rest;
        ToRemove(b, work, client, share);
        ok, deleted, rest := Remove(b, work.deletes);
        cut := PhaseCut(b.paths, rest, REMOVED);
        CutIsPastForget(b.paths, rest, REMOVED);
        LostSet(b, work, rest, REMOVED, deleted, client, share);
      }
    }

    /** Read back, journal, record. */
    method Confirm(ghost b: Start, work: Work) returns (ok: bool, confirmed: map<Path, Option<Fingerprint>>, ghost cut: map<Path, nat>)
      requires Working(b, {}, REMOVED, client, share, plans, copies) && Sorted(b, {}, work)
      requires Pushable(b.client, b.share, b.settings, b.paths)
      modifies this`client, this`share, this`interrupted
      ensures if ok then interrupted == old(interrupted) else interrupted
      ensures Stopped(b, cut, work.deletes, client, share) && PastForget(b.paths, cut)
      ensures ok ==> b.During({}, COMMITTED, client, share)
      ensures ok ==> forall p :: p in b.paths ==> Lookup(confirmed, p) == Confirmation(b.View(p), b.settings)
    {
      hide PlanFor, Start.Plan, Start.During, Start.Reached, Sorted, Stopped, Authoritative, Listed, ReadBack, Confirmation, Pushable;
      confirmed := map[];
      LostSet(b, work, {}, REMOVED, work.deletes, client, share);
      cut := PhaseCut(b.paths, {}, REMOVED);
      CutIsPastForget(b.paths, {}, REMOVED);
      var listed := work.uploads + set p | p in work.adopted && p in client.local;
      if * {
        interrupted := true;
        return false, confirmed, cut;
      }
      NothingIsMissing(b, client, share, work, listed);
      assert Readable(share, work, listed);
      confirmed := ReadBack(client, share, work, work.deletes, listed);
      ReadBackIsRight(b, client, share, work, listed);
      ConfirmationOf(b);
      ok, cut := Conclude(b, work, listed, confirmed);
    }

    /** One journal append, one record. */
    method Conclude(ghost b: Start, ghost work: Work, listed: set<Path>, confirmed: map<Path, Option<Fingerprint>>)
      returns (ok: bool, ghost cut: map<Path, nat>)
      requires Working(b, {}, REMOVED, client, share, plans, copies) && Sorted(b, {}, work) && listed <= b.paths && confirmed.Keys <= b.paths
      requires forall p :: p in b.paths ==>
                 && (p in listed <==> Listed(b.Reached(p, REMOVED), b.Plan(p)))
                 && Lookup(confirmed, p) == Authoritative(b.Reached(p, REMOVED), b.Plan(p), Listed(b.Reached(p, REMOVED), b.Plan(p)))
      modifies this`client, this`share, this`interrupted
      ensures if ok then interrupted == old(interrupted) else interrupted
      ensures Stopped(b, cut, work.deletes, client, share) && PastForget(b.paths, cut)
      ensures ok ==> b.During({}, COMMITTED, client, share)
    {
      hide Sorted, Start.Plan, Start.Ok, Start.During, Start.Reached, Listed, Authoritative, Stopped, Planning, Lookup;
      PlannedActions(b, plans, copies);
      ghost var rest;
      ToJournal(b, listed, client, share);
      ok, rest := Journal(b, listed);
      cut := PhaseCut(b.paths, rest, JOURNALED);
      CutIsPastForget(b.paths, rest, JOURNALED);
      LostSet(b, work, rest, JOURNALED, work.deletes, client, share);
      if ok {
        ToCommit(b, confirmed, client, share);
        ok, rest := Commit(b, confirmed);
        cut := PhaseCut(b.paths, rest, COMMITTED);
        CutIsPastForget(b.paths, rest, COMMITTED);
        LostSet(b, work, rest, COMMITTED, work.deletes, client, share);
      }
    }

    /** Take the chunk's paths off the durable queue, all but those recorded as something
        else than what is on the disk by now. */
    method ClearDone(paths: set<Path>, confirmed: map<Path, Option<Fingerprint>>, disk: map<Path, Fingerprint>)
      modifies this`pending
      ensures pending == Unqueued(old(pending), set p | p in paths && !(p in confirmed && Lookup(disk, p) != confirmed[p]))
    {
      var clearable := paths;
      var todo := confirmed.Keys;
      while todo != {}
        invariant todo <= confirmed.Keys
        invariant clearable == set p | p in paths && !(p in confirmed && p !in todo && Lookup(disk, p) != confirmed[p])
        decreases todo
      {
        var p :| p in todo;
        todo := todo - {p};
        if Lookup(disk, p) != confirmed[p] {
          clearable := clearable - {p};
        }
      }
      pending := Unqueued(pending, clearable);
    }

    /** One chunk. It stops early when a path is blocked, when the delete budget would be
        exceeded, when anything fails, or in a crash (any `if *`). */
    method RunChunk(paths: set<Path>, settings: Settings, maxDeletes: int, deletesCommitted: int)
      returns (ok: bool, deleted: set<Path>, limitHit: bool, ghost cut: map<Path, nat>, ghost disk: map<Path, Fingerprint>)
      requires SafeNames(share, paths, Copies(client, share, naming, settings, paths))
      requires forall p :: p in paths ==> ViewOk(At(client, share, p))
      modifies this
      ensures ChunkEffect(old(client), old(share), naming, settings, paths, cut, client, share)
      ensures ok ==> Finished(old(client), old(share), naming, settings, paths, client, share)
      ensures ok ==> Pushable(old(client), old(share), settings, paths)
      ensures forall x :: x in deleted <==> NodeAt(old(share), x).File? && NodeAt(share, x).Missing?
      ensures deletesCommitted <= maxDeletes ==> deletesCommitted + |deleted| <= maxDeletes
      ensures limitHit ==> !ok && deleted == {}
                           && deletesCommitted + |PlannedDeletes(old(client), old(share), settings, paths)| > maxDeletes
      // nothing but an interruption, an obstructed path or the limit keeps it from finishing
      ensures ok || limitHit || interrupted || !Pushable(old(client), old(share), settings, paths)
      ensures ok ==> !interrupted
      // `disk` is what the local tree shows when the queue is cleared
      ensures ok ==> forall p :: p != "" ==>
                (p in pending <==> p in old(pending) && (p in paths ==> StaysQueued(At(old(client), old(share), p), settings, Lookup(disk, p))))
      // otherwise only overruled deletions leave it, all together, and not before they are the base
      ensures !ok && (limitHit || pending != old(pending)) ==>
                && PastForget(paths, cut)
                && forall p :: p in pending <==>
                     p in old(pending) && !(p != "" && p in paths && Overruled(At(old(client), old(share), p), settings))
    {
      hide StaysQueued, PlanFor;
      interrupted := false;
      var b := Start(client, share, naming, settings, paths);
      assert b.Ok();
      ok, deleted, limitHit, cut, disk := Run(b, maxDeletes, deletesCommitted);
    }

    method Run(b: Start, maxDeletes: int, deletesCommitted: int)
      returns (ok: bool, deleted: set<Path>, limitHit: bool, ghost cut: map<Path, nat>, ghost disk: map<Path, Fingerprint>)
      requires b.Ok() && b.naming == naming && b.client == client && b.share == share
      modifies this
      ensures Stopped(b, cut, deleted, client, share)
      ensures ok ==> Finished(b.client, b.share, b.naming, b.settings, b.paths, client, share)
      ensures ok ==> Pushable(b.client, b.share, b.settings, b.paths)
      ensures deletesCommitted <= maxDeletes ==> deletesCommitted + |deleted| <= maxDeletes
      ensures limitHit ==> !ok && deleted == {}
                           && deletesCommitted + |PlannedDeletes(b.client, b.share, b.settings, b.paths)| > maxDeletes
      ensures ok || limitHit || interrupted || !Pushable(b.client, b.share, b.settings, b.paths)
      ensures ok ==> forall p :: p != "" ==>
                (p in pending <==> p in old(pending) && (p in b.paths ==> StaysQueued(b.View(p), b.settings, Lookup(disk, p))))
      ensures ok ==> interrupted == old(interrupted)
      ensures !ok && (limitHit || pending != old(pending)) ==>
                && PastForget(b.paths, cut)
                && forall p :: p in pending <==> p in old(pending) && !(p != "" && p in b.paths && Overruled(b.View(p), b.settings))
    {
      hide StaysQueued, Confirmation, Start.Ok, Start.Plan, Start.During, Adopts, Uploads, StaleDelete, Stopped, Sorted, Planning, Finished, Pushable, PlannedDeletes;
      limitHit, disk := false, map[];
      var done, work;
      ghost var rest;
      done, work, rest := BuildPlan(b);
      NothingLostPlanning(b, rest, COPIED, client, share);
      if !done {
        BlockedIsObstructed(b);
        return false, {}, false, PhaseCut(b.paths, rest, COPIED), disk;
      }
      ToForget(b, work, client, share);
      SortedActions(b, work);
      done, rest := Forget(b, work.remoteWins);
      NothingLostPlanning(b, rest, FORGOTTEN, client, share);
      if !done {
        return false, {}, false, PhaseCut(b.paths, rest, FORGOTTEN), disk;
      }
      pending := Unqueued(pending, work.remoteWins);
      OverruledAreUnqueued(b, work);
      DeletesArePlanned(b, work);
      if deletesCommitted + |work.deletes| > maxDeletes {
        return false, {}, true, PhaseCut(b.paths, {}, FORGOTTEN), disk;
      }
      ok, deleted, cut := Transfer(b, work);
      Fewer(deleted, work.deletes);
      if ok {
        var confirmed;
        ok, confirmed, cut := Confirm(b, work);
        if ok {
          WholeChunk(b, client, share);
          var now: map<Path, Fingerprint> := *;
          disk := now;
          QueueAfter(b, work, confirmed, disk);
          ClearDone(b.paths, confirmed, now);
        }
      }
    }
  }

  lemma OverruledAreUnqueued(b: Start, work: Work)
    requires Sorted(b, {}, work)
    ensures work.remoteWins <= b.paths
    ensures forall p :: p in work.remoteWins ==> b.Plan(p).action.REMOTE_WINS? && Confirmation(b.View(p), b.settings).None?
    ensures forall p :: p in work.remoteWins <==> p in b.paths && Overruled(b.View(p), b.settings)
  {
    forall p | p in b.paths + work.remoteWins
      ensures p in b.paths && (p in work.remoteWins <==> Overruled(b.View(p), b.settings))
      ensures p in work.remoteWins ==> b.Plan(p).action.REMOTE_WINS? && Confirmation(b.View(p), b.settings).None?
    {
      assert p in work.remoteWins ==> p in b.paths;
      SortedAt(b, work, p);
    }
  }

  lemma QueueAfter(b: Start, work: Work, confirmed: map<Path, Option<Fingerprint>>, disk: map<Path, Fingerprint>)
    requires forall p :: p in b.paths ==> Lookup(confirmed, p) == Confirmation(b.View(p), b.settings)
    ensures forall p :: p in b.paths ==>
              (StaysQueued(b.View(p), b.settings, Lookup(disk, p)) <==> p in confirmed && Lookup(disk, p) != confirmed[p])
  {
    hide Confirmation;
  }

  lemma Fewer(a: set<Path>, b: set<Path>)
    requires a <= b
    ensures |a| <= |b|
  {
    assert b == a + (b - a);
  }
}
