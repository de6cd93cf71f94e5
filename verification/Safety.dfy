/** Safety over whole runs of the fleet, at the grain of single effects: any client may
    edit at any moment, including in the middle of its own chunk; a chunk may die
    between any two effects; every other NAS change waits for the lease. */
module Safety {
  import opened CausalVersions
  import opened SyncState
  import opened Reconcile
  import opened Chunk
  import opened Repository
  import opened Pull
  import Rename
  import Staging

  type ClientId = string

  /** The chunk that holds the lease: the NAS states it read at the start, the plans
      made so far, how far each path has come, which paths were listed for the journal,
      and what was read back for the record. `due` holds what a rename or a staged publish
      has already changed on the NAS and the client has still to record. */
  datatype Session = Session(owner: ClientId, snapshot: map<Path, RemoteState>, plans: map<Path, Planned>,
                             phase: map<Path, nat>, listed: set<Path>,
                             confirmed: map<Path, Option<Option<Fingerprint>>>,
                             due: map<Path, Option<Fingerprint>>)

  /** `staging`: the batches uploaded to private trees and not yet published.
      `introduced`: every content a user ever wrote, with its path. `replaced`: contents a
      user has overwritten or deleted at a path. `outdated`: NAS contents a local deletion
      dominated by its clock. */
  datatype State = State(clients: map<ClientId, Client>, share: Share, session: Option<Session>, staging: map<ClientId, Staging.Batch>,
                         introduced: set<(Path, string)>, replaced: set<(Path, string)>, outdated: set<(Path, string)>)

  datatype Step =
    | Edit(id: ClientId, p: Path, content: Option<Fingerprint>)
    | External(p: Path, node: Node, record: Option<Record>)
    | Begin(id: ClientId, paths: set<Path>)
    | Plan(p: Path, version: Option<Clock>, settings: Settings)
    | Advance(p: Path)
    | Stop
    | Move(a: Path, b: Path, stampNs: int)
    | Stage(id: ClientId, batch: Staging.Batch)
    | Abandon(id: ClientId)
    | Publish(id: ClientId, staged: map<Path, FileMeta>, versions: map<Path, Option<Clock>>, stampNs: int)
    | RecordDue(p: Path, version: Option<Clock>)
    | PullRound(id: ClientId, fullRequired: bool, deleteEnabled: bool, pending: set<Path>, stampNs: int)

  function DigestOf(content: Option<string>, p: Path): set<(Path, string)> {
    if content.Some? then {(p, content.value)} else {}
  }

  function ViewAt(s: State, id: ClientId, p: Path): PathView
    requires id in s.clients
  {
    At(s.clients[id], s.share, p)
  }

  /* ---- the planning step ---- */

  function Versioned(local: Option<Fingerprint>, version: Option<Clock>): Option<Fingerprint> {
    if local.Some? then Some(local.value.(causal := version)) else None
  }

  /** The plan of a path, made for the NAS state read at the start of the chunk. The
      clocks may be anything. */
  function PlanOf(s: State, step: Step): Planned
    requires step.Plan? && s.session.Some? && s.session.value.owner in s.clients && step.p in s.session.value.snapshot
  {
    var v := ViewAt(s, s.session.value.owner, step.p);
    var local := Versioned(v.local, step.version);
    var remote := s.session.value.snapshot[step.p];
    var action := PlanPath(v.baseline, local, remote, step.settings.deleteEnabled, step.version);
    Planned(action, local, remote, step.version, step.settings.stampNs)
  }

  function CopyFor(s: State, step: Step): Option<FileMeta>
    requires step.Plan? && s.session.Some? && s.session.value.owner in s.clients && step.p in s.session.value.snapshot
  {
    CopyOf(ViewAt(s, s.session.value.owner, step.p), PlanOf(s, step))
  }

  /** A conflict name is not itself being pushed and is free or already holds the content. */
  predicate FreeName(s: State, q: Path, digest: string)
    requires s.session.Some?
  {
    q !in s.session.value.snapshot && (NodeAt(s.share, q).Missing? || NodeContent(NodeAt(s.share, q)) == Some(digest))
  }

  /* ---- the effects of a planned path ---- */

  /** What the chunk checks before its next effect on a path; if it does not hold, the
      chunk stops there. */
  predicate MayAdvance(v: PathView, p: Planned, phase: nat, listed: bool) {
    && !p.action.BLOCK?
    && (phase == FORGOTTEN && Uploads(p) ==> v.local.Some?)
    && (phase == SENT && Adopts(p) ==> v.local.Some? && SeenOf(v.local) == SeenOf(p.seen) && !p.remote.kind.ABSENT?)
    && (phase == REMOVED && listed ==> v.node.File?)
  }

  function Effect(v: PathView, p: Planned, phase: nat, listed: bool, confirmed: Option<Option<Fingerprint>>): PathView {
    if phase == COPIED then Forget(v, p)
    else if phase == FORGOTTEN then Send(v, p)
    else if phase == SENT then Settle(v, p)
    else if phase == SETTLED then Remove(v, p)
    else if phase == REMOVED then Journal(v, p, listed)
    else if phase == JOURNALED then Commit(v, p, confirmed)
    else v
  }

  function ReadBack(e: Session, p: Path): Option<Option<Fingerprint>> {
    if p in e.confirmed then e.confirmed[p] else None
  }

  function WithView(s: State, id: ClientId, p: Path, v: PathView): State
    requires id in s.clients
  {
    var c := s.clients[id];
    s.(clients := s.clients[id := c.(local := Pull.Put(c.local, p, v.local), baseline := Pull.Put(c.baseline, p, v.baseline))],
       share := Share(s.share.nodes[p := v.node], Pull.Put(s.share.records, p, v.record)))
  }

  /* ---- the machine ---- */

  ghost predicate Enabled(s: State, step: Step) {
    match step
    case Edit(id, p, content) => id in s.clients && (content.Some? ==> content.value.digest != "")
    case External(p, node, _) => s.session.None? && (node.File? ==> node.meta.digest != "")
    case Begin(id, _) => s.session.None? && id in s.clients && id !in s.staging
    case Plan(p, _, _) => s.session.Some? && s.session.value.owner in s.clients && p in s.session.value.snapshot && p !in s.session.value.plans
    case Advance(p) =>
      && s.session.Some? && s.session.value.owner in s.clients
      && p in s.session.value.plans && p in s.session.value.phase && COPIED <= s.session.value.phase[p] < COMMITTED
      && MayAdvance(ViewAt(s, s.session.value.owner, p), s.session.value.plans[p], s.session.value.phase[p], p in s.session.value.listed)
    case Stop => true
    case Move(a, b, _) =>
      && s.session.Some? && s.session.value.owner in s.clients
      && a in s.session.value.snapshot && b in s.session.value.snapshot
      && a !in s.session.value.plans && b !in s.session.value.plans
      && Rename.CanMove(ViewAt(s, s.session.value.owner, a), ViewAt(s, s.session.value.owner, b))
    case Stage(id, batch) =>
      && id in s.clients && id !in s.staging && (s.session.Some? ==> s.session.value.owner != id)
      && forall p :: p in batch ==> Lookup(s.clients[id].local, p) == Some(batch[p])
    case Abandon(_) => true
    case Publish(id, _, _, _) => s.session.None? && id in s.staging
    case RecordDue(p, _) => s.session.Some? && s.session.value.owner in s.clients && p in s.session.value.due
    case PullRound(id, fullRequired, deleteEnabled, pending, _) =>
      && s.session.None? && id in s.clients && id !in s.staging
      && RoundRuns(s.clients[id], s.share, fullRequired, deleteEnabled, pending)
      && (pending == {} ==> CleanClient(s.clients[id]))
  }

  /** The three situations in which the code gives no guarantee: a conflict name that is
      taken; a file that appears, with content of its own, at a path adopted as absent
      after the journal list was made and before the path is read back for the record; and
      a pull that replaces unpushed content. */
  ghost predicate Fair(s: State, naming: Naming, step: Step)
    requires Enabled(s, step)
  {
    match step
    case Plan(p, _, _) => CopyFor(s, step).Some? ==> FreeName(s, naming(p, CopyFor(s, step).value.digest), CopyFor(s, step).value.digest)
    case Advance(p) =>
      s.session.value.phase[p] == REMOVED && s.session.value.plans[p].action.ADOPT? && p !in s.session.value.listed ==>
        var v := ViewAt(s, s.session.value.owner, p);
        v.local.None? || ContentOf(v.local) == NodeContent(v.node)
    case PullRound(id, fullRequired, deleteEnabled, _, _) =>
      var c := s.clients[id];
      var targeted := Targeted(c, s.share, fullRequired);
      forall p :: Unpushed(c, p) ==> !Overwrites(c, s.share, targeted, deleteEnabled, CalledOff(c, s.share, targeted, deleteEnabled), p)
    case _ => true
  }

  /** The files of a published batch, each to be recorded as its base. */
  function Announced(batch: Staging.Batch): map<Path, Option<Fingerprint>> {
    map p | p in batch :: Some(batch[p])
  }

  function BaseDigest(s: State, id: ClientId, p: Path): string
    requires id in s.clients
  {
    if p in s.clients[id].baseline then s.clients[id].baseline[p].digest else ""
  }

  ghost predicate EditNext(s: State, id: ClientId, p: Path, content: Option<Fingerprint>, t: State)
    requires id in s.clients
  {
    var c := s.clients[id];
    t == s.(clients := s.clients[id := c.(local := Pull.Put(c.local, p, content))],
            introduced := s.introduced + DigestOf(ContentOf(content), p),
            replaced := s.replaced + DigestOf(ContentOf(Lookup(c.local, p)), p))
  }

  ghost predicate ExternalNext(s: State, p: Path, node: Node, record: Option<Record>, t: State) {
    t == s.(share := Share(s.share.nodes[p := node], Pull.Put(s.share.records, p, record)),
            introduced := s.introduced + DigestOf(NodeContent(node), p),
            replaced := s.replaced + DigestOf(NodeContent(NodeAt(s.share, p)), p))
  }

  /** A blocked path ends the chunk; a conflict copy is made at once. */
  ghost predicate PlanNext(s: State, naming: Naming, step: Step, t: State)
    requires step.Plan? && s.session.Some? && s.session.value.owner in s.clients && step.p in s.session.value.snapshot
  {
    var (plan, copy, e) := (PlanOf(s, step), CopyFor(s, step), s.session.value);
    if plan.action.BLOCK? then t == s.(session := None)
    else
      t == s.(session := Some(e.(plans := e.plans[step.p := plan], phase := e.phase[step.p := COPIED])),
              share := if copy.Some? then s.share.(nodes := s.share.nodes[naming(step.p, copy.value.digest) := File(copy.value)]) else s.share,
              outdated := s.outdated + (if plan.action.DELETE_REMOTE? && plan.remote.digest != BaseDigest(s, e.owner, step.p)
                                        then {(step.p, plan.remote.digest)} else {}))
  }

  ghost predicate AdvanceNext(s: State, p: Path, t: State)
    requires s.session.Some? && s.session.value.owner in s.clients && p in s.session.value.plans && p in s.session.value.phase
  {
    var e := s.session.value;
    var v := ViewAt(s, e.owner, p);
    t == WithView(s, e.owner, p, Effect(v, e.plans[p], e.phase[p], p in e.listed, ReadBack(e, p)))
           .(session := Some(e.(phase := e.phase[p := e.phase[p] + 1],
                                listed := if e.phase[p] == SETTLED && Listed(v, e.plans[p]) then e.listed + {p} else e.listed,
                                confirmed := if e.phase[p] == REMOVED
                                             then e.confirmed[p := Authoritative(v, e.plans[p], p in e.listed)] else e.confirmed)))
  }

  /** The server has renamed; the client has still to record both paths. */
  ghost predicate MoveNext(s: State, a: Path, b: Path, stampNs: int, t: State)
    requires s.session.Some? && s.session.value.owner in s.clients && NodeAt(s.share, a).File?
  {
    var e := s.session.value;
    t == s.(share := Rename.MovedShare(s.share, a, b, stampNs),
            session := Some(e.(snapshot := e.snapshot - {a, b},
                               due := e.due[a := None][b := Lookup(s.clients[e.owner].local, b)])))
  }

  /** The server has published, or refused. */
  ghost predicate PublishNext(s: State, id: ClientId, staged: map<Path, FileMeta>, versions: map<Path, Option<Clock>>, stampNs: int, t: State)
    requires id in s.staging
  {
    var (share, ok) := Staging.Publish(s.share, staged, s.staging[id], versions, stampNs);
    t == s.(share := share, staging := s.staging - {id},
            session := if ok then Some(Session(id, map[], map[], map[], {}, map[], Announced(s.staging[id]))) else None)
  }

  ghost predicate RecordNext(s: State, p: Path, version: Option<Clock>, t: State)
    requires s.session.Some? && s.session.value.owner in s.clients && p in s.session.value.due
  {
    var e := s.session.value;
    var c := s.clients[e.owner];
    t == s.(clients := s.clients[e.owner := c.(baseline := c.baseline[p := RecordedEntry(e.due[p], version)])],
            session := Some(e.(due := e.due - {p})))
  }

  ghost predicate PullNext(s: State, id: ClientId, targeted: bool, deleteEnabled: bool, stampNs: int, t: State)
    requires id in s.clients
  {
    && t.clients.Keys == s.clients.Keys
    && (forall o :: o in s.clients && o != id ==> t.clients[o] == s.clients[o])
    && PullEffect(s.clients[id], s.share, targeted, deleteEnabled, stampNs, t.clients[id], t.share)
    && t == s.(clients := t.clients, share := t.share)
  }

  ghost predicate Next(s: State, naming: Naming, step: Step, t: State)
    requires Enabled(s, step)
  {
    match step
    case Edit(id, p, content) => EditNext(s, id, p, content, t)
    case External(p, node, record) => ExternalNext(s, p, node, record, t)
    case Begin(id, paths) =>
      t == s.(session := Some(Session(id, map p | p in paths :: Live(NodeAt(s.share, p), RecordAt(s.share, p)), map[], map[], {}, map[], map[])))
    case Plan(_, _, _) => PlanNext(s, naming, step, t)
    case Advance(p) => AdvanceNext(s, p, t)
    case Stop => t == s.(session := None)
    case Move(a, b, stampNs) => MoveNext(s, a, b, stampNs, t)
    case Stage(id, batch) => t == s.(staging := s.staging[id := batch])
    case Abandon(id) => t == s.(staging := s.staging - {id})
    case Publish(id, staged, versions, stampNs) => PublishNext(s, id, staged, versions, stampNs, t)
    case RecordDue(p, version) => RecordNext(s, p, version, t)
    case PullRound(id, fullRequired, deleteEnabled, _, stampNs) =>
      PullNext(s, id, Targeted(s.clients[id], s.share, fullRequired), deleteEnabled, stampNs, t)
  }

  /* ---- the guarantee ---- */

  /** Where a content written at `p` may be kept: the path, its conflict name, the
      conflict name of that, and so on. */
  function Home(naming: Naming, p: Path, d: string, k: nat): Path {
    if k == 0 then p else naming(Home(naming, p, d, k - 1), d)
  }

  /** On the NAS there, or knowingly replaced there, or older than a deletion there. */
  ghost predicate Accounted(s: State, x: Path, d: string) {
    NodeContent(NodeAt(s.share, x)) == Some(d) || (x, d) in s.replaced || (x, d) in s.outdated
  }

  ghost predicate Safe(s: State, naming: Naming, p: Path, d: string) {
    exists k: nat :: Accounted(s, Home(naming, p, d, k), d)
  }

  /** Still waiting on some client to be pushed. */
  predicate WaitsAt(s: State, id: ClientId, p: Path, d: string) {
    && id in s.clients
    && ContentOf(Lookup(s.clients[id].local, p)) == Some(d)
    && ContentOf(Lookup(s.clients[id].baseline, p)) != Some(d)
  }

  ghost predicate Waiting(s: State, naming: Naming, p: Path, d: string) {
    exists k: nat, id :: WaitsAt(s, id, Home(naming, p, d, k), d)
  }

  ghost predicate Protected(s: State, naming: Naming, p: Path, d: string) {
    Safe(s, naming, p, d) || Waiting(s, naming, p, d)
  }

  lemma {:induction false} HomeOfHome(naming: Naming, p: Path, d: string, j: nat, k: nat)
    ensures Home(naming, Home(naming, p, d, j), d, k) == Home(naming, p, d, j + k)
  {
    if k > 0 {
      HomeOfHome(naming, p, d, j, k - 1);
    }
  }

  lemma SafeHere(s: State, naming: Naming, p: Path, d: string)
    requires Accounted(s, p, d)
    ensures Safe(s, naming, p, d)
  {
    assert Home(naming, p, d, 0) == p;
  }

  lemma SafeAtHome(s: State, naming: Naming, p: Path, d: string, j: nat)
    requires Safe(s, naming, Home(naming, p, d, j), d)
    ensures Safe(s, naming, p, d)
  {
    var k: nat :| Accounted(s, Home(naming, Home(naming, p, d, j), d, k), d);
    HomeOfHome(naming, p, d, j, k);
  }

  lemma WaitingHere(s: State, naming: Naming, id: ClientId, p: Path, d: string)
    requires WaitsAt(s, id, p, d)
    ensures Waiting(s, naming, p, d)
  {
    assert Home(naming, p, d, 0) == p;
  }

  lemma ProtectedAtHome(s: State, naming: Naming, p: Path, d: string, j: nat)
    requires Protected(s, naming, Home(naming, p, d, j), d)
    ensures Protected(s, naming, p, d)
  {
    if Safe(s, naming, Home(naming, p, d, j), d) {
      SafeAtHome(s, naming, p, d, j);
    } else {
      var k: nat, id :| WaitsAt(s, id, Home(naming, Home(naming, p, d, j), d, k), d);
      HomeOfHome(naming, p, d, j, k);
    }
  }

  /* ---- the invariant ---- */

  ghost predicate LiveDigests(s: State) {
    && ShareOk(s.share)
    && forall id :: id in s.clients ==> ClientOk(s.clients[id])
  }

  ghost predicate BaseOk(s: State, naming: Naming, id: ClientId, p: Path)
    requires id in s.clients
  {
    var base := ContentOf(Lookup(s.clients[id].baseline, p));
    base.Some? ==>
      && Safe(s, naming, p, base.value)
      && (ContentOf(Lookup(s.clients[id].local, p)) != base ==> (p, base.value) in s.replaced)
  }

  /** What the chunk in progress relies on for one planned path, given the contents on
      the NAS, on the disk and in the base. */
  ghost predicate PathHolds(p: Path, plan: Planned, phase: nat, node: Option<string>, local: Option<string>, base: Option<string>,
                            listed: bool, confirmed: Option<Option<Fingerprint>>,
                            replaced: set<(Path, string)>, outdated: set<(Path, string)>, stored: string -> bool)
  {
    var moved := (Uploads(plan) && phase >= SENT) || (plan.action.DELETE_REMOTE? && phase >= REMOVED);
    && COPIED <= phase
    && (plan.remote.kind.OTHER? ==> plan.action.NOTHING?)
    && (!moved ==> node == RemoteContent(plan.remote))
    // before NAS content is replaced or removed it is accounted for
    && (plan.action.UPLOAD? && !moved && node.Some? ==> (p, node.value) in replaced)
    && (plan.action.CONFLICT_LOCAL_WINS? && !moved ==> node.Some? && stored(node.value))
    && (plan.action.DELETE_REMOTE? && !moved && node.Some? ==> (p, node.value) in replaced || (p, node.value) in outdated)
    // before local content is replaced it is stored
    && (Adopts(plan) ==> plan.seen.value.digest != "")
    && (Adopts(plan) && phase < SETTLED ==> stored(plan.seen.value.digest) && (base.Some? ==> (p, base.value) in replaced))
    // what will be recorded as base is either still local or replaced by a user
    && (Uploads(plan) && phase >= SENT ==> node.Some?)
    && ((Uploads(plan) && phase >= SENT) || plan.action.ADOPT? || (Adopts(plan) && phase >= SETTLED) ==>
          node.Some? && local != node ==> (p, node.value) in replaced)
    && (listed ==> phase >= REMOVED && (Uploads(plan) || plan.action.ADOPT?))
    && (Uploads(plan) && phase >= REMOVED ==> listed)
    // what was read back is the NAS content or an absence
    && (confirmed.Some? ==>
          && phase >= JOURNALED
          && (ContentOf(confirmed.value).Some? ==>
                ContentOf(confirmed.value) == node && (local != node ==> (p, node.value) in replaced)))
  }

  ghost predicate PlanHolds(s: State, naming: Naming, p: Path)
    requires s.session.Some? && s.session.value.owner in s.clients && p in s.session.value.plans && p in s.session.value.phase
  {
    var e := s.session.value;
    PathHolds(p, e.plans[p], e.phase[p], NodeContent(NodeAt(s.share, p)),
              ContentOf(Lookup(s.clients[e.owner].local, p)), ContentOf(Lookup(s.clients[e.owner].baseline, p)),
              p in e.listed, ReadBack(e, p), s.replaced, s.outdated, d => Stored(s, naming, p, d))
  }

  /** More accounted and stored contents do no harm. */
  lemma PathStillHolds(p: Path, plan: Planned, phase: nat, node: Option<string>, local: Option<string>, base: Option<string>,
                       listed: bool, confirmed: Option<Option<Fingerprint>>,
                       replaced: set<(Path, string)>, outdated: set<(Path, string)>, stored: string -> bool,
                       replaced': set<(Path, string)>, outdated': set<(Path, string)>, stored': string -> bool)
    requires PathHolds(p, plan, phase, node, local, base, listed, confirmed, replaced, outdated, stored)
    requires replaced <= replaced' && outdated <= outdated' && forall d :: stored(d) ==> stored'(d)
    ensures PathHolds(p, plan, phase, node, local, base, listed, confirmed, replaced', outdated', stored')
  {
  }

  /** A plan of which a step changes neither the path nor the progress. */
  lemma UntouchedPlanHolds(s: State, naming: Naming, t: State, p: Path)
    requires s.session.Some? && s.session.value.owner in s.clients && p in s.session.value.plans && p in s.session.value.phase
    requires t.session.Some? && t.session.value.owner == s.session.value.owner && t.session.value.owner in t.clients
    requires p in t.session.value.plans && p in t.session.value.phase
    requires PlanHolds(s, naming, p)
    requires t.session.value.plans[p] == s.session.value.plans[p] && t.session.value.phase[p] == s.session.value.phase[p]
    requires (p in t.session.value.listed <==> p in s.session.value.listed) && ReadBack(t.session.value, p) == ReadBack(s.session.value, p)
    requires NodeContent(NodeAt(t.share, p)) == NodeContent(NodeAt(s.share, p))
    requires SameClientPath(s.clients[s.session.value.owner], t.clients[s.session.value.owner], p)
    requires s.replaced <= t.replaced && s.outdated <= t.outdated && forall d :: Stored(s, naming, p, d) ==> Stored(t, naming, p, d)
    ensures PlanHolds(t, naming, p)
  {
    hide PathHolds;
    var e := s.session.value;
    PathStillHolds(p, e.plans[p], e.phase[p], NodeContent(NodeAt(s.share, p)),
                   ContentOf(Lookup(s.clients[e.owner].local, p)), ContentOf(Lookup(s.clients[e.owner].baseline, p)),
                   p in e.listed, ReadBack(e, p), s.replaced, s.outdated, d => Stored(s, naming, p, d),
                   t.replaced, t.outdated, d => Stored(t, naming, p, d));
  }

  ghost predicate Stored(s: State, naming: Naming, p: Path, d: string)
    requires s.session.Some?
  {
    naming(p, d) !in s.session.value.snapshot && NodeContent(NodeAt(s.share, naming(p, d))) == Some(d)
  }

  ghost predicate SessionOk(s: State, naming: Naming) {
    s.session.Some? ==>
      var e := s.session.value;
      && e.owner in s.clients
      && e.plans.Keys == e.phase.Keys <= e.snapshot.Keys
      && e.listed <= e.plans.Keys && e.confirmed.Keys <= e.plans.Keys
      && (forall p :: p in e.snapshot && p !in e.plans ==> e.snapshot[p] == Live(NodeAt(s.share, p), RecordAt(s.share, p)))
      && (forall p :: p in e.plans ==> PlanHolds(s, naming, p))
  }

  /** At the path the content is on the client's disk, or a user has replaced it there. */
  predicate LocalOrReplaced(s: State, id: ClientId, p: Path, d: string) {
    id in s.clients && d != "" && (ContentOf(Lookup(s.clients[id].local, p)) == Some(d) || (p, d) in s.replaced)
  }

  /** What is still to be recorded is on the NAS, and the chunk does not plan it. */
  ghost predicate DueOk(s: State) {
    s.session.Some? ==>
      var e := s.session.value;
      forall p :: p in e.due ==>
        && p !in e.snapshot
        && (e.due[p].Some? ==> NodeContent(NodeAt(s.share, p)) == Some(e.due[p].value.digest)
                               && LocalOrReplaced(s, e.owner, p, e.due[p].value.digest))
  }

  /** What a client has staged is still its own, and meanwhile it does nothing else. */
  ghost predicate StagingOk(s: State) {
    forall id :: id in s.staging ==>
      && id in s.clients
      && (s.session.Some? ==> s.session.value.owner != id)
      && forall p :: p in s.staging[id] ==> LocalOrReplaced(s, id, p, s.staging[id][p].digest)
  }

  ghost predicate Inv(s: State, naming: Naming) {
    ContentsHold(s, naming) && DueOk(s) && StagingOk(s)
  }

  /** The part about contents, bases and plans. */
  ghost predicate ContentsHold(s: State, naming: Naming) {
    && LiveDigests(s)
    && (forall id, p :: id in s.clients ==> BaseOk(s, naming, id, p))
    && (forall p, d :: (p, d) in s.introduced ==> Protected(s, naming, p, d))
    && SessionOk(s, naming)
  }

  /* ---- contents only move to accounted places ---- */

  /** One NAS node is replaced: nothing stops being safe if the old content is. */
  lemma SafeAfterWrite(s: State, naming: Naming, t: State, x: Path, p: Path, d: string)
    requires forall y :: y != x ==> NodeAt(t.share, y) == NodeAt(s.share, y)
    requires s.replaced <= t.replaced && s.outdated <= t.outdated
    requires NodeAt(s.share, x).File? ==> Safe(t, naming, x, NodeAt(s.share, x).meta.digest)
    requires Safe(s, naming, p, d)
    ensures Safe(t, naming, p, d)
  {
    var k: nat :| Accounted(s, Home(naming, p, d, k), d);
    var y := Home(naming, p, d, k);
    if y == x && NodeContent(NodeAt(s.share, x)) == Some(d) {
      SafeAtHome(t, naming, p, d, k);
    } else {
      assert Accounted(t, y, d);
    }
  }

  /** Nothing on the NAS changes. */
  lemma SafeOnSameNas(s: State, naming: Naming, t: State, p: Path, d: string)
    requires forall y :: NodeAt(t.share, y) == NodeAt(s.share, y)
    requires s.replaced <= t.replaced && s.outdated <= t.outdated && Safe(s, naming, p, d)
    ensures Safe(t, naming, p, d)
  {
    var k: nat :| Accounted(s, Home(naming, p, d, k), d);
    assert Accounted(t, Home(naming, p, d, k), d);
  }

  /** No client changes. */
  lemma ProtectedOnSameClients(s: State, naming: Naming, t: State)
    requires t.clients == s.clients && s.replaced <= t.replaced && forall p, d :: Safe(s, naming, p, d) ==> Safe(t, naming, p, d)
    ensures forall p, d :: Protected(s, naming, p, d) ==> Protected(t, naming, p, d)
    ensures forall id, p :: id in s.clients && BaseOk(s, naming, id, p) ==> BaseOk(t, naming, id, p)
  {
    hide Safe;
    forall p, d | Protected(s, naming, p, d) ensures Protected(t, naming, p, d) {
      if Waiting(s, naming, p, d) {
        var k: nat, id :| WaitsAt(s, id, Home(naming, p, d, k), d);
        assert WaitsAt(t, id, Home(naming, p, d, k), d);
      }
    }
  }

  /** NAS files stay, or are accounted for where they were. */
  lemma SafeWhenAccounted(s: State, naming: Naming, t: State, p: Path, d: string)
    requires forall y :: NodeAt(s.share, y).File? ==>
               NodeContent(NodeAt(t.share, y)) == NodeContent(NodeAt(s.share, y)) || (y, NodeAt(s.share, y).meta.digest) in t.replaced
    requires s.replaced <= t.replaced && s.outdated <= t.outdated && Safe(s, naming, p, d)
    ensures Safe(t, naming, p, d)
  {
    var k: nat :| Accounted(s, Home(naming, p, d, k), d);
    assert Accounted(t, Home(naming, p, d, k), d);
  }

  /** Enough for a step that changes the NAS only. */
  lemma NasStepKeepsContents(s: State, naming: Naming, t: State)
    requires ContentsHold(s, naming) && t.clients == s.clients && t.introduced == s.introduced
    requires s.replaced <= t.replaced && s.outdated <= t.outdated
    requires forall y :: NodeAt(s.share, y).File? ==>
               NodeContent(NodeAt(t.share, y)) == NodeContent(NodeAt(s.share, y)) || (y, NodeAt(s.share, y).meta.digest) in t.replaced
    requires ShareOk(t.share) && SessionOk(t, naming)
    ensures ContentsHold(t, naming)
  {
    hide Safe, SessionOk, ShareOk;
    forall p, d | Safe(s, naming, p, d) ensures Safe(t, naming, p, d) {
      SafeWhenAccounted(s, naming, t, p, d);
    }
    ProtectedOnSameClients(s, naming, t);
  }

  /** The whole client side is unchanged but for one path of one client. */
  ghost predicate OnlyClientPath(s: State, t: State, id: ClientId, x: Path) {
    && t.clients.Keys == s.clients.Keys
    && forall o, p :: o in s.clients && !(o == id && p == x) ==> SameClientPath(s.clients[o], t.clients[o], p)
  }

  /** Enough for the two global parts of the invariant after a step that writes one
      client path and keeps safe contents safe. */
  lemma ContentsStayProtected(s: State, naming: Naming, t: State, id: ClientId, x: Path)
    requires ContentsHold(s, naming) && id in s.clients && OnlyClientPath(s, t, id, x)
    requires forall p, d :: Safe(s, naming, p, d) ==> Safe(t, naming, p, d)
    requires s.replaced <= t.replaced
    requires BaseOk(t, naming, id, x)
    requires var was := ContentOf(Lookup(s.clients[id].local, x)); was.Some? ==> Protected(t, naming, x, was.value)
    requires forall p, d :: (p, d) in t.introduced && (p, d) !in s.introduced ==> Protected(t, naming, p, d)
    ensures forall o, p :: o in t.clients ==> BaseOk(t, naming, o, p)
    ensures forall p, d :: (p, d) in t.introduced ==> Protected(t, naming, p, d)
  {
    hide Safe;
    forall o, p | o in t.clients ensures BaseOk(t, naming, o, p) {
      assert BaseOk(s, naming, o, p);
      if !(o == id && p == x) {
        assert SameClientPath(s.clients[o], t.clients[o], p);
      }
    }
    forall p, d | (p, d) in t.introduced ensures Protected(t, naming, p, d) {
      if (p, d) in s.introduced && !Safe(s, naming, p, d) {
        assert Protected(s, naming, p, d);
        var k: nat, o :| WaitsAt(s, o, Home(naming, p, d, k), d);
        var y := Home(naming, p, d, k);
        if o == id && y == x {
          ProtectedAtHome(t, naming, p, d, k);
        } else {
          assert SameClientPath(s.clients[o], t.clients[o], y);
          assert WaitsAt(t, o, y, d);
        }
      }
    }
  }

  /* ---- step by step ---- */

  lemma EditKeepsContents(s: State, naming: Naming, step: Step, t: State)
    requires ContentsHold(s, naming) && step.Edit? && Enabled(s, step) && Next(s, naming, step, t)
    ensures ContentsHold(t, naming)
  {
    hide Safe, PathHolds;
    var (id, x) := (step.id, step.p);
    var c := s.clients[id];
    var was := ContentOf(Lookup(c.local, x));
    forall p, d | Safe(s, naming, p, d) ensures Safe(t, naming, p, d) {
      SafeOnSameNas(s, naming, t, p, d);
    }
    assert BaseOk(s, naming, id, x);
    if was.Some? {
      SafeHere(t, naming, x, was.value);
    }
    assert Lookup(t.clients[id].local, x) == step.content;
    if step.content.Some? {
      NewEditIsProtected(s, naming, step, t);
    }
    ContentsStayProtected(s, naming, t, id, x);
    EditKeepsDigests(s, naming, step, t);
    EditKeepsPlans(s, naming, step, t);
  }

  lemma NewEditIsProtected(s: State, naming: Naming, step: Step, t: State)
    requires ContentsHold(s, naming) && step.Edit? && Enabled(s, step) && Next(s, naming, step, t)
    requires step.content.Some? && forall p, d :: Safe(s, naming, p, d) ==> Safe(t, naming, p, d)
    ensures Protected(t, naming, step.p, step.content.value.digest)
  {
    hide Safe;
    var (id, x, d) := (step.id, step.p, step.content.value.digest);
    assert Lookup(t.clients[id].local, x) == step.content;
    if ContentOf(Lookup(t.clients[id].baseline, x)) == Some(d) {
      assert BaseOk(s, naming, id, x);
    } else {
      WaitingHere(t, naming, id, x, d);
    }
  }

  lemma EditKeepsDigests(s: State, naming: Naming, step: Step, t: State)
    requires ContentsHold(s, naming) && step.Edit? && Enabled(s, step) && Next(s, naming, step, t)
    ensures LiveDigests(t)
  {
    forall id | id in t.clients ensures ClientOk(t.clients[id]) {
      assert ClientOk(s.clients[id]);
      forall p | p in t.clients[id].local ensures t.clients[id].local[p].digest != "" {
        assert Lookup(t.clients[id].local, p) == if id == step.id && p == step.p then step.content else Lookup(s.clients[id].local, p);
      }
    }
  }

  /** An edit in the middle of a chunk: the old content is replaced by a user. */
  lemma EditOnPath(p: Path, plan: Planned, phase: nat, node: Option<string>, local: Option<string>, base: Option<string>,
                   listed: bool, confirmed: Option<Option<Fingerprint>>,
                   replaced: set<(Path, string)>, outdated: set<(Path, string)>, stored: string -> bool, local': Option<string>)
    requires PathHolds(p, plan, phase, node, local, base, listed, confirmed, replaced, outdated, stored)
    ensures PathHolds(p, plan, phase, node, local', base, listed, confirmed, replaced + DigestOf(local, p), outdated, stored)
  {
  }

  lemma EditKeepsPlans(s: State, naming: Naming, step: Step, t: State)
    requires ContentsHold(s, naming) && step.Edit? && Enabled(s, step) && Next(s, naming, step, t)
    ensures SessionOk(t, naming)
  {
    hide Safe, BaseOk, LiveDigests, Protected, PathHolds;
    if s.session.Some? {
      var e := s.session.value;
      forall p | p in e.plans ensures PlanHolds(t, naming, p) {
        assert PlanHolds(s, naming, p);
        if e.owner == step.id && p == step.p {
          var c, c' := s.clients[e.owner], t.clients[e.owner];
          EditOnPath(p, e.plans[p], e.phase[p], NodeContent(NodeAt(s.share, p)), ContentOf(Lookup(c.local, p)), ContentOf(Lookup(c.baseline, p)),
                     p in e.listed, ReadBack(e, p), s.replaced, s.outdated, d => Stored(s, naming, p, d), ContentOf(Lookup(c'.local, p)));
          PathStillHolds(p, e.plans[p], e.phase[p], NodeContent(NodeAt(t.share, p)), ContentOf(Lookup(c'.local, p)), ContentOf(Lookup(c'.baseline, p)),
                         p in e.listed, ReadBack(e, p), t.replaced, t.outdated, d => Stored(s, naming, p, d),
                         t.replaced, t.outdated, d => Stored(t, naming, p, d));
        } else {
          assert SameClientPath(s.clients[e.owner], t.clients[e.owner], p);
          UntouchedPlanHolds(s, naming, t, p);
        }
      }
    }
  }

  lemma ExternalKeepsContents(s: State, naming: Naming, step: Step, t: State)
    requires ContentsHold(s, naming) && step.External? && Enabled(s, step) && Next(s, naming, step, t)
    ensures ContentsHold(t, naming)
  {
    hide Safe;
    var x := step.p;
    if NodeAt(s.share, x).File? {
      SafeHere(t, naming, x, NodeAt(s.share, x).meta.digest);
    }
    forall p, d | Safe(s, naming, p, d) ensures Safe(t, naming, p, d) {
      SafeAfterWrite(s, naming, t, x, p, d);
    }
    ProtectedOnSameClients(s, naming, t);
    if step.node.File? {
      SafeHere(t, naming, x, step.node.meta.digest);
    }
    forall p ensures NodeAt(t.share, p).File? ==> NodeAt(t.share, p).meta.digest != "" {
      assert p != x ==> NodeAt(t.share, p) == NodeAt(s.share, p);
    }
  }

  /** What a pull leaves at one path, where it does not replace unpushed content: a base
      that is the NAS content and on the disk, or what was there before. */
  lemma PulledPath(c: Client, s: Share, targeted: bool, deleteEnabled: bool, stampNs: int, p: Path)
    requires ShareOk(s) && ClientOk(c)
    requires Unpushed(c, p) ==> !Overwrites(c, s, targeted, deleteEnabled, CalledOff(c, s, targeted, deleteEnabled), p)
    ensures var calledOff := CalledOff(c, s, targeted, deleteEnabled);
            var local := PulledLocal(c, s, targeted, deleteEnabled, calledOff, p);
            var base := PulledBase(c, s, targeted, deleteEnabled, calledOff, stampNs, p);
            && (local.Some? ==> local.value.digest != "")
            && (ContentOf(base).Some? ==>
                  || ContentOf(base) == ContentOf(local) == NodeContent(NodeAt(s, p))
                  || (ContentOf(base) == ContentOf(Lookup(c.baseline, p)) && local == Lookup(c.local, p)))
            && (Unpushed(c, p) ==> ContentOf(local) == Some(c.local[p].digest))
  {
    hide CalledOff;
    var calledOff := CalledOff(c, s, targeted, deleteEnabled);
    if Unpushed(c, p) {
      PullReplacesUnpushedExactly(c, s, targeted, deleteEnabled, p);
    }
    PulledBasePath(c, s, targeted, deleteEnabled, calledOff, stampNs, p);
  }

  lemma PulledBasePath(c: Client, s: Share, targeted: bool, deleteEnabled: bool, calledOff: bool, stampNs: int, p: Path)
    requires ShareOk(s) && ClientOk(c)
    ensures var local := PulledLocal(c, s, targeted, deleteEnabled, calledOff, p);
            var base := PulledBase(c, s, targeted, deleteEnabled, calledOff, stampNs, p);
            && (local.Some? ==> local.value.digest != "")
            && (ContentOf(base).Some? ==>
                  || ContentOf(base) == ContentOf(local) == NodeContent(NodeAt(s, p))
                  || (ContentOf(base) == ContentOf(Lookup(c.baseline, p)) && local == Lookup(c.local, p)))
  {
  }

  /** The condition is exact: a round replaces no unpushed content at all exactly when it
      is fair. */
  lemma PullFairnessIsExact(s: State, naming: Naming, step: Step, t: State)
    requires ContentsHold(s, naming) && step.PullRound? && Enabled(s, step) && Next(s, naming, step, t)
    ensures Fair(s, naming, step) <==>
              forall p :: Unpushed(s.clients[step.id], p) ==>
                ContentOf(Lookup(t.clients[step.id].local, p)) == Some(s.clients[step.id].local[p].digest)
  {
    hide Safe, PulledLocal, PulledBase, CalledOff, Overwrites;
    var c, c' := s.clients[step.id], t.clients[step.id];
    var targeted := Targeted(c, s.share, step.fullRequired);
    forall p | Unpushed(c, p)
      ensures ContentOf(Lookup(c'.local, p)) != Some(c.local[p].digest)
              <==> Overwrites(c, s.share, targeted, step.deleteEnabled, CalledOff(c, s.share, targeted, step.deleteEnabled), p)
    {
      PullReplacesUnpushedExactly(c, s.share, targeted, step.deleteEnabled, p);
    }
  }

  lemma PullKeepsContents(s: State, naming: Naming, step: Step, t: State)
    requires ContentsHold(s, naming) && step.PullRound? && Enabled(s, step) && Fair(s, naming, step) && Next(s, naming, step, t)
    ensures ContentsHold(t, naming)
  {
    hide Safe, PullEffect, CalledOff, Overwrites;
    var id := step.id;
    var c, c' := s.clients[id], t.clients[id];
    assert forall p :: NodeAt(t.share, p) == NodeAt(s.share, p) by {
      PullKeepsNodes(s, naming, step, t);
    }
    forall p, d | Safe(s, naming, p, d) ensures Safe(t, naming, p, d) {
      SafeOnSameNas(s, naming, t, p, d);
    }
    forall p
      ensures BaseOk(t, naming, id, p)
      ensures p in c'.local ==> c'.local[p].digest != ""
      ensures forall d :: WaitsAt(s, id, p, d) ==> Safe(t, naming, p, d) || WaitsAt(t, id, p, d)
    {
      PulledPathIsOk(s, naming, step, t, p);
    }
    forall o, p | o in t.clients ensures BaseOk(t, naming, o, p) {
      assert BaseOk(s, naming, o, p);
    }
    forall p, d | (p, d) in t.introduced ensures Protected(t, naming, p, d) {
      assert Protected(s, naming, p, d);
      if !Safe(s, naming, p, d) {
        var k: nat, o :| WaitsAt(s, o, Home(naming, p, d, k), d);
        var y := Home(naming, p, d, k);
        if o == id && Safe(t, naming, y, d) {
          SafeAtHome(t, naming, p, d, k);
        } else {
          assert WaitsAt(t, o, y, d);
        }
      }
    }
  }

  lemma PullKeepsNodes(s: State, naming: Naming, step: Step, t: State)
    requires step.PullRound? && Enabled(s, step) && Next(s, naming, step, t)
    ensures forall p :: NodeAt(t.share, p) == NodeAt(s.share, p)
  {
  }

  lemma PulledPathIsOk(s: State, naming: Naming, step: Step, t: State, p: Path)
    requires ContentsHold(s, naming) && step.PullRound? && Enabled(s, step) && Fair(s, naming, step) && Next(s, naming, step, t)
    requires forall y :: NodeAt(t.share, y) == NodeAt(s.share, y)
    requires forall y, d :: Safe(s, naming, y, d) ==> Safe(t, naming, y, d)
    ensures BaseOk(t, naming, step.id, p)
    ensures p in t.clients[step.id].local ==> t.clients[step.id].local[p].digest != ""
    ensures forall d :: WaitsAt(s, step.id, p, d) ==> Safe(t, naming, p, d) || WaitsAt(t, step.id, p, d)
  {
    hide Safe, PulledLocal, PulledBase, CalledOff, Overwrites;
    var c, c' := s.clients[step.id], t.clients[step.id];
    var targeted := Targeted(c, s.share, step.fullRequired);
    var calledOff := CalledOff(c, s.share, targeted, step.deleteEnabled);
    assert BaseOk(s, naming, step.id, p);
    PulledPath(c, s.share, targeted, step.deleteEnabled, step.stampNs, p);
    assert Lookup(c'.local, p) == PulledLocal(c, s.share, targeted, step.deleteEnabled, calledOff, p);
    if NodeAt(s.share, p).File? {
      SafeHere(t, naming, p, NodeAt(s.share, p).meta.digest);
    }
  }

  /* ---- planning ---- */

  lemma NewPlanHolds(s: State, naming: Naming, step: Step, t: State)
    requires ContentsHold(s, naming) && step.Plan? && Enabled(s, step) && Fair(s, naming, step) && Next(s, naming, step, t)
    requires !PlanOf(s, step).action.BLOCK?
    ensures PlanHolds(t, naming, step.p)
  {
    var (p, e) := (step.p, s.session.value);
    var v := ViewAt(s, e.owner, p);
    var plan := PlanOf(s, step);
    assert e.snapshot[p] == Live(v.node, v.record);
    assert BaseOk(s, naming, e.owner, p);
    assert ClientOk(s.clients[e.owner]);
    PlanRetiresOnlyKnownContent(v.baseline, plan.seen, plan.remote, step.settings.deleteEnabled, step.version);
    assert NodeAt(t.share, p) == v.node;
    assert t.clients == s.clients;
  }

  /** Planning writes nothing but the conflict copy, over nothing or the same content. */
  lemma PlanWritesCopyOnly(s: State, naming: Naming, step: Step, t: State)
    requires ContentsHold(s, naming) && step.Plan? && Enabled(s, step) && Fair(s, naming, step) && Next(s, naming, step, t)
    ensures t.clients == s.clients && t.replaced == s.replaced && s.outdated <= t.outdated && t.introduced == s.introduced
    ensures forall y :: NodeAt(s.share, y).File? ==> NodeContent(NodeAt(t.share, y)) == NodeContent(NodeAt(s.share, y))
    ensures ShareOk(t.share)
  {
    hide PathHolds, PlanPath, PlanHolds, BaseOk, Protected, CopyOf, SessionOk, EditNext, AdvanceNext, MoveNext, PublishNext, PullNext;
    CopyIsLive(s, naming, step);
    assert ShareOk(s.share);
    var copy := CopyFor(s, step);
    var q := if copy.Some? then naming(step.p, copy.value.digest) else step.p;
    assert forall y :: y != q ==> NodeAt(t.share, y) == NodeAt(s.share, y);
  }

  lemma PlanLeaves(s: State, naming: Naming, step: Step, t: State)
    requires step.Plan? && Enabled(s, step) && Fair(s, naming, step) && Next(s, naming, step, t)
    ensures t.clients == s.clients && t.replaced == s.replaced && s.outdated <= t.outdated && t.introduced == s.introduced
    ensures var e := s.session.value;
            && (forall p :: p in e.snapshot ==> NodeAt(t.share, p) == NodeAt(s.share, p) && RecordAt(t.share, p) == RecordAt(s.share, p))
            && (t.session.Some? <==> !PlanOf(s, step).action.BLOCK?)
            && (t.session.Some? ==>
                  t.session.value == e.(plans := e.plans[step.p := PlanOf(s, step)], phase := e.phase[step.p := COPIED]))
  {
    hide PlanPath, CopyOf, BaseDigest;
  }

  lemma OtherPlansHold(s: State, naming: Naming, step: Step, t: State, p: Path)
    requires ContentsHold(s, naming) && step.Plan? && Enabled(s, step) && Fair(s, naming, step) && Next(s, naming, step, t)
    requires !PlanOf(s, step).action.BLOCK? && p in s.session.value.plans && p != step.p
    ensures PlanHolds(t, naming, p)
  {
    hide PathHolds, PlanPath, CopyOf, ContentsHold, Fair, Next, PlanOf, Stored;
    PlanLeaves(s, naming, step, t);
    PlanOfSession(s, naming, p);
    StoredWhilePlanning(s, naming, step, t, p);
    UntouchedPlanHolds(s, naming, t, p);
  }

  lemma StoredWhilePlanning(s: State, naming: Naming, step: Step, t: State, p: Path)
    requires step.Plan? && Enabled(s, step) && Fair(s, naming, step) && Next(s, naming, step, t) && t.session.Some?
    ensures forall d :: Stored(s, naming, p, d) ==> Stored(t, naming, p, d)
  {
    hide PlanPath, CopyOf, BaseDigest;
  }

  lemma PlanKeepsSession(s: State, naming: Naming, step: Step, t: State)
    requires ContentsHold(s, naming) && step.Plan? && Enabled(s, step) && Fair(s, naming, step) && Next(s, naming, step, t)
    ensures SessionOk(t, naming)
  {
    hide Next, Fair, PathHolds, PlanPath, PlanHolds, BaseOk, Protected, LiveDigests, CopyOf, Stored, PlanOf;
    PlanLeaves(s, naming, step, t);
    if t.session.Some? {
      NewPlanHolds(s, naming, step, t);
      forall p | p in s.session.value.plans && p != step.p ensures PlanHolds(t, naming, p) {
        OtherPlansHold(s, naming, step, t, p);
      }
    }
  }

  lemma PlanKeepsContents(s: State, naming: Naming, step: Step, t: State)
    requires ContentsHold(s, naming) && step.Plan? && Enabled(s, step) && Fair(s, naming, step) && Next(s, naming, step, t)
    ensures ContentsHold(t, naming)
  {
    hide ContentsHold, Enabled, Fair, Next, SessionOk, ShareOk;
    PlanWritesCopyOnly(s, naming, step, t);
    PlanKeepsSession(s, naming, step, t);
    NasStepKeepsContents(s, naming, t);
  }

  lemma CopyIsLive(s: State, naming: Naming, step: Step)
    requires ContentsHold(s, naming) && step.Plan? && Enabled(s, step)
    ensures CopyFor(s, step).Some? ==> CopyFor(s, step).value.digest != ""
  {
    assert ClientOk(s.clients[s.session.value.owner]);
  }

  /* ---- effects ---- */

  function ListedAfter(v: PathView, p: Planned, phase: nat, listed: bool): bool {
    if phase == SETTLED then listed || Listed(v, p) else listed
  }

  function ConfirmedAfter(v: PathView, p: Planned, phase: nat, listed: bool, confirmed: Option<Option<Fingerprint>>): Option<Option<Fingerprint>> {
    if phase == REMOVED then Authoritative(v, p, listed) else confirmed
  }

  /** One effect on a path: what the plan relies on still holds, and NAS content that
      goes away is replaced, outdated or stored. */
  lemma EffectOnPath(p: Path, plan: Planned, phase: nat, v: PathView, listed: bool, confirmed: Option<Option<Fingerprint>>,
                     replaced: set<(Path, string)>, outdated: set<(Path, string)>, stored: string -> bool)
    requires COPIED <= phase < COMMITTED && ViewOk(v) && MayAdvance(v, plan, phase, listed)
    requires phase == REMOVED && plan.action.ADOPT? && !listed ==> v.local.None? || ContentOf(v.local) == NodeContent(v.node)
    requires PathHolds(p, plan, phase, NodeContent(v.node), ContentOf(v.local), BaseContent(v), listed, confirmed, replaced, outdated, stored)
    ensures var w := Effect(v, plan, phase, listed, confirmed);
            && ViewOk(w) && w.deletionClock == v.deletionClock
            && PathHolds(p, plan, phase + 1, NodeContent(w.node), ContentOf(w.local), BaseContent(w), ListedAfter(v, plan, phase, listed),
                         ConfirmedAfter(v, plan, phase, listed, confirmed), replaced, outdated, stored)
            && (v.node.File? && NodeContent(w.node) != NodeContent(v.node) ==>
                  var d := v.node.meta.digest; (p, d) in replaced || (p, d) in outdated || stored(d))
  {
  }

  /** The new state around the path an effect works on. */
  lemma AdvanceLeaves(s: State, naming: Naming, step: Step, t: State)
    requires step.Advance? && Enabled(s, step) && Next(s, naming, step, t)
    ensures var (p, e) := (step.p, s.session.value);
            var v := ViewAt(s, e.owner, p);
            && t.session.Some? && t.session.value.owner == e.owner && t.session.value.snapshot == e.snapshot && t.session.value.plans == e.plans
            && t.session.value.phase == e.phase[p := e.phase[p] + 1]
            && e.owner in t.clients && t.replaced == s.replaced && t.outdated == s.outdated && t.introduced == s.introduced
            && ViewAt(t, e.owner, p) == Effect(v, e.plans[p], e.phase[p], p in e.listed, ReadBack(e, p)).(deletionClock := v.deletionClock)
            && (p in t.session.value.listed <==> ListedAfter(v, e.plans[p], e.phase[p], p in e.listed))
            && ReadBack(t.session.value, p) == ConfirmedAfter(v, e.plans[p], e.phase[p], p in e.listed, ReadBack(e, p))
            && (forall y :: y != p ==> (y in t.session.value.listed <==> y in e.listed) && ReadBack(t.session.value, y) == ReadBack(e, y))
            && t.session.value.listed <= e.listed + {p} && t.session.value.confirmed.Keys <= e.confirmed.Keys + {p}
            && (forall y :: y != p ==> NodeAt(t.share, y) == NodeAt(s.share, y) && RecordAt(t.share, y) == RecordAt(s.share, y))
            && NodeAt(t.share, p) == ViewAt(t, e.owner, p).node
            && OnlyClientPath(s, t, e.owner, p)
  {
    hide Effect, MayAdvance, Listed, Authoritative;
  }

  /** What one effect leaves at the path it works on. */
  ghost predicate PathKept(s: State, naming: Naming, step: Step, t: State)
    requires step.Advance? && Enabled(s, step) && Next(s, naming, step, t)
  {
    var (p, e) := (step.p, s.session.value);
    var (v, w) := (ViewAt(s, e.owner, p), ViewAt(t, e.owner, p));
    && (v.node.File? && NodeContent(w.node) != NodeContent(v.node) ==> Safe(t, naming, p, v.node.meta.digest))
    && ViewOk(w)
    && PlanHolds(t, naming, p)
  }

  lemma SafeWhenStored(s: State, naming: Naming, p: Path, d: string)
    requires NodeContent(NodeAt(s.share, naming(p, d))) == Some(d)
    ensures Safe(s, naming, p, d)
  {
    assert Home(naming, p, d, 0) == p && Home(naming, p, d, 1) == naming(p, d);
  }

  lemma EffectKeepsPath(s: State, naming: Naming, step: Step, t: State)
    requires ContentsHold(s, naming) && step.Advance? && Enabled(s, step) && Fair(s, naming, step) && Next(s, naming, step, t)
    ensures PathKept(s, naming, step, t)
  {
    hide Next, PathHolds, Effect, MayAdvance, Listed, Authoritative, Safe, BaseOk, Protected, ListedAfter, ConfirmedAfter;
    var (p, e) := (step.p, s.session.value);
    var v := ViewAt(s, e.owner, p);
    AdvanceLeaves(s, naming, step, t);
    assert PlanHolds(s, naming, p) && ViewOk(v);
    EffectOnPath(p, e.plans[p], e.phase[p], v, p in e.listed, ReadBack(e, p), s.replaced, s.outdated, d => Stored(s, naming, p, d));
    EffectIsAccounted(s, naming, step, t);
  }

  /** From the path to the whole state. */
  lemma EffectIsAccounted(s: State, naming: Naming, step: Step, t: State)
    requires step.Advance? && Enabled(s, step) && Next(s, naming, step, t)
    requires step.p in s.session.value.snapshot
    requires var (p, e) := (step.p, s.session.value);
             var (v, w) := (ViewAt(s, e.owner, p), ViewAt(t, e.owner, p));
             && ViewOk(w)
             && PathHolds(p, e.plans[p], e.phase[p] + 1, NodeContent(w.node), ContentOf(w.local), BaseContent(w), p in t.session.value.listed,
                          ReadBack(t.session.value, p), s.replaced, s.outdated, d => Stored(s, naming, p, d))
             && (v.node.File? && NodeContent(w.node) != NodeContent(v.node) ==>
                  var d := v.node.meta.digest; (p, d) in s.replaced || (p, d) in s.outdated || Stored(s, naming, p, d))
    ensures PathKept(s, naming, step, t)
  {
    AdvanceLeaves(s, naming, step, t);
    hide Next, PathHolds, Effect, MayAdvance, Safe;
    var (p, e) := (step.p, s.session.value);
    var (v, w) := (ViewAt(s, e.owner, p), ViewAt(t, e.owner, p));
    forall d | Stored(s, naming, p, d) ensures Stored(t, naming, p, d) && Safe(t, naming, p, d) {
      SafeWhenStored(t, naming, p, d);
    }
    if v.node.File? && ((p, v.node.meta.digest) in t.replaced || (p, v.node.meta.digest) in t.outdated) {
      SafeHere(t, naming, p, v.node.meta.digest);
    }
    PathStillHolds(p, e.plans[p], e.phase[p] + 1, NodeContent(w.node), ContentOf(w.local), BaseContent(w), p in t.session.value.listed,
                   ReadBack(t.session.value, p), s.replaced, s.outdated, d => Stored(s, naming, p, d),
                   t.replaced, t.outdated, d => Stored(t, naming, p, d));
  }

  /** The base after the record, and the local content under it. */
  lemma CommitKeepsBase(s: State, naming: Naming, step: Step, t: State)
    requires ContentsHold(s, naming) && step.Advance? && Enabled(s, step) && Next(s, naming, step, t)
    requires s.session.value.phase[step.p] == JOURNALED
    ensures BaseOk(t, naming, s.session.value.owner, step.p)
  {
    hide Next, MayAdvance, Protected, LiveDigests, Authoritative, Listed, Safe;
    AdvanceLeaves(s, naming, step, t);
    var (p, e) := (step.p, s.session.value);
    var v, w := ViewAt(s, e.owner, p), ViewAt(t, e.owner, p);
    var confirmed := ReadBack(e, p);
    assert PlanHolds(s, naming, p) && BaseOk(s, naming, e.owner, p);
    assert forall x :: NodeAt(t.share, x) == NodeAt(s.share, x);
    RecordedBaseIsOk(s, naming, t, p, v, w, confirmed);
  }

  lemma RecordedBaseIsOk(s: State, naming: Naming, t: State, p: Path, v: PathView, w: PathView, confirmed: Option<Option<Fingerprint>>)
    requires t.replaced == s.replaced && t.outdated == s.outdated && forall x :: NodeAt(t.share, x) == NodeAt(s.share, x)
    requires v.node == NodeAt(s.share, p) && w.local == v.local
    requires if confirmed.None? then w.baseline == v.baseline else ContentOf(w.baseline) == ContentOf(confirmed.value)
    requires BaseContent(v).Some? ==>
               Safe(s, naming, p, BaseContent(v).value) && (ContentOf(v.local) != BaseContent(v) ==> (p, BaseContent(v).value) in s.replaced)
    requires confirmed.Some? && ContentOf(confirmed.value).Some? ==>
               && ContentOf(confirmed.value) == NodeContent(v.node)
               && (ContentOf(v.local) != NodeContent(v.node) ==> (p, v.node.meta.digest) in s.replaced)
    ensures BaseContent(w).Some? ==>
              Safe(t, naming, p, BaseContent(w).value) && (ContentOf(w.local) != BaseContent(w) ==> (p, BaseContent(w).value) in t.replaced)
  {
    if BaseContent(w).Some? {
      if confirmed.Some? {
        SafeHere(t, naming, p, BaseContent(w).value);
      } else {
        SafeOnSameNas(s, naming, t, p, BaseContent(v).value);
      }
    }
  }

  /** Before the record an effect changes a base only to forget it, and the disk only when
      it takes over the NAS version. */
  lemma EffectOnBase(v: PathView, p: Planned, phase: nat, listed: bool, confirmed: Option<Option<Fingerprint>>)
    requires phase != JOURNALED
    ensures var w := Effect(v, p, phase, listed, confirmed);
            && (w.baseline == v.baseline || BaseContent(w).None?)
            && (w.local == v.local || (phase == SENT && Adopts(p)))
  {
  }

  lemma EffectKeepsBase(s: State, naming: Naming, step: Step, t: State)
    requires ContentsHold(s, naming) && step.Advance? && Enabled(s, step) && Next(s, naming, step, t)
    requires forall p, d :: Safe(s, naming, p, d) ==> Safe(t, naming, p, d)
    ensures BaseOk(t, naming, s.session.value.owner, step.p)
  {
    hide Next, MayAdvance, Protected, LiveDigests, Safe, Effect;
    var (p, e) := (step.p, s.session.value);
    if e.phase[p] == JOURNALED {
      CommitKeepsBase(s, naming, step, t);
    } else {
      AdvanceLeaves(s, naming, step, t);
      assert PlanHolds(s, naming, p) && BaseOk(s, naming, e.owner, p);
      EffectOnBase(ViewAt(s, e.owner, p), e.plans[p], e.phase[p], p in e.listed, ReadBack(e, p));
    }
  }

  /** The local version an adoption replaces is stored. */
  lemma ReplacedLocalIsStored(s: State, naming: Naming, step: Step)
    requires ContentsHold(s, naming) && step.Advance? && Enabled(s, step)
    requires s.session.value.phase[step.p] == SENT && Adopts(s.session.value.plans[step.p])
    ensures var local := ContentOf(ViewAt(s, s.session.value.owner, step.p).local);
            local.Some? ==> Stored(s, naming, step.p, local.value)
  {
    hide BaseOk, Protected, LiveDigests, Stored;
    assert PlanHolds(s, naming, step.p);
  }

  lemma EffectKeepsLocal(s: State, naming: Naming, step: Step, t: State)
    requires ContentsHold(s, naming) && step.Advance? && Enabled(s, step) && Next(s, naming, step, t)
    requires BaseOk(t, naming, s.session.value.owner, step.p) && forall p, d :: Safe(s, naming, p, d) ==> Safe(t, naming, p, d)
    ensures var was := ContentOf(ViewAt(s, s.session.value.owner, step.p).local);
            was.Some? ==> Protected(t, naming, step.p, was.value)
  {
    hide Next, MayAdvance, ContentsHold, Safe, Effect, Waiting;
    AdvanceLeaves(s, naming, step, t);
    var (p, e) := (step.p, s.session.value);
    var v, w := ViewAt(s, e.owner, p), ViewAt(t, e.owner, p);
    var was := ContentOf(v.local);
    if e.phase[p] != JOURNALED {
      EffectOnBase(v, e.plans[p], e.phase[p], p in e.listed, ReadBack(e, p));
    } else {
      CommitKeepsLocal(v, e.plans[p], ReadBack(e, p), p in e.listed);
    }
    if was.Some? {
      if w.local != v.local {
        ReplacedLocalIsStored(s, naming, step);
        SafeWhenStored(s, naming, p, was.value);
      } else if ContentOf(w.baseline) != was {
        WaitingHere(t, naming, e.owner, p, was.value);
      }
    }
  }

  lemma CommitKeepsLocal(v: PathView, p: Planned, confirmed: Option<Option<Fingerprint>>, listed: bool)
    ensures Effect(v, p, JOURNALED, listed, confirmed).local == v.local
  {
  }

  lemma AdvanceKeepsOtherPlans(s: State, naming: Naming, step: Step, t: State, p: Path)
    requires ContentsHold(s, naming) && step.Advance? && Enabled(s, step) && Next(s, naming, step, t)
    requires p in s.session.value.plans && p != step.p
    ensures PlanHolds(t, naming, p)
  {
    hide Next, PathHolds, Effect, Listed, Authoritative, MayAdvance, ContentsHold;
    AdvanceLeaves(s, naming, step, t);
    PlanOfSession(s, naming, p);
    PlanOfSession(s, naming, step.p);
    UntouchedPlanHolds(s, naming, t, p);
  }

  lemma PlanOfSession(s: State, naming: Naming, p: Path)
    requires ContentsHold(s, naming) && s.session.Some? && p in s.session.value.plans
    ensures var e := s.session.value; e.owner in s.clients && p in e.snapshot && p in e.phase && PlanHolds(s, naming, p)
  {
    hide LiveDigests, BaseOk, Protected, PlanHolds;
  }

  lemma AdvanceKeepsDigests(s: State, naming: Naming, step: Step, t: State)
    requires ContentsHold(s, naming) && step.Advance? && Enabled(s, step) && Next(s, naming, step, t)
    requires ViewOk(ViewAt(t, s.session.value.owner, step.p))
    ensures LiveDigests(t)
  {
    var (x, e) := (step.p, s.session.value);
    forall id | id in t.clients ensures ClientOk(t.clients[id]) {
      assert ClientOk(s.clients[id]);
      assert Lookup(t.clients[e.owner].local, x) == ViewAt(t, e.owner, x).local;
      forall p | p in t.clients[id].local ensures t.clients[id].local[p].digest != "" {
        if !(id == e.owner && p == x) {
          assert SameClientPath(s.clients[id], t.clients[id], p);
        }
      }
    }
    forall p ensures NodeAt(t.share, p).File? ==> NodeAt(t.share, p).meta.digest != "" {
      if p != x {
        assert NodeAt(t.share, p) == NodeAt(s.share, p);
      }
    }
  }

  lemma AdvanceKeepsContents(s: State, naming: Naming, step: Step, t: State)
    requires ContentsHold(s, naming) && step.Advance? && Enabled(s, step) && Fair(s, naming, step) && Next(s, naming, step, t)
    ensures ContentsHold(t, naming)
  {
    hide Next, Effect, PlanHolds, BaseOk, Listed, Authoritative, MayAdvance, Safe, WaitsAt, Waiting;
    var (x, e) := (step.p, s.session.value);
    EffectKeepsPath(s, naming, step, t);
    AdvanceLeaves(s, naming, step, t);
    AdvanceKeepsDigests(s, naming, step, t);
    if NodeAt(s.share, x).File? && NodeContent(NodeAt(t.share, x)) == NodeContent(NodeAt(s.share, x)) {
      SafeHere(t, naming, x, NodeAt(s.share, x).meta.digest);
    }
    forall p, d | Safe(s, naming, p, d) ensures Safe(t, naming, p, d) {
      SafeAfterWrite(s, naming, t, x, p, d);
    }
    EffectKeepsBase(s, naming, step, t);
    EffectKeepsLocal(s, naming, step, t);
    ContentsStayProtected(s, naming, t, e.owner, x);
    forall p | p in e.plans ensures PlanHolds(t, naming, p) {
      if p != x {
        AdvanceKeepsOtherPlans(s, naming, step, t, p);
      }
    }
  }

  lemma SessionChangeKeepsContents(s: State, naming: Naming, t: State)
    requires ContentsHold(s, naming) && t == s.(session := t.session, staging := t.staging) && SessionOk(t, naming)
    ensures ContentsHold(t, naming)
  {
    hide Safe;
    forall p, d | Safe(s, naming, p, d) ensures Safe(t, naming, p, d) {
      SafeOnSameNas(s, naming, t, p, d);
    }
    ProtectedOnSameClients(s, naming, t);
  }

  /* ---- renames and publishes ---- */

  /** The source of a rename is gone from the disk, so its content was given up there. */
  lemma MoveAccounts(s: State, naming: Naming, step: Step, t: State)
    requires Inv(s, naming) && step.Move? && Enabled(s, step) && Next(s, naming, step, t)
    ensures forall y :: NodeAt(s.share, y).File? ==>
              NodeContent(NodeAt(t.share, y)) == NodeContent(NodeAt(s.share, y)) || (y, NodeAt(s.share, y).meta.digest) in t.replaced
    ensures forall y :: y != step.a && y != step.b ==> NodeAt(t.share, y) == NodeAt(s.share, y) && RecordAt(t.share, y) == RecordAt(s.share, y)
    ensures NodeAt(t.share, step.b) == NodeAt(s.share, step.a) && NodeAt(t.share, step.a) == Missing && step.a != step.b
    ensures NodeAt(s.share, step.a).File? && NodeAt(s.share, step.b).Missing?
  {
    hide Safe, Protected, SessionOk, DueOk, StagingOk;
    assert BaseOk(s, naming, s.session.value.owner, step.a);
  }

  lemma MoveKeepsSession(s: State, naming: Naming, step: Step, t: State)
    requires Inv(s, naming) && step.Move? && Enabled(s, step) && Next(s, naming, step, t)
    ensures SessionOk(t, naming)
  {
    hide Safe, PlanHolds, Rename.CanMove, Rename.MovedShare, DueOk, StagingOk, BaseOk, LiveDigests, Protected, Live;
    MoveAccounts(s, naming, step, t);
    forall p | p in s.session.value.plans ensures PlanHolds(t, naming, p) {
      MoveKeepsPlan(s, naming, step, t, p);
    }
  }

  lemma MoveKeepsContents(s: State, naming: Naming, step: Step, t: State)
    requires Inv(s, naming) && step.Move? && Enabled(s, step) && Next(s, naming, step, t)
    ensures ContentsHold(t, naming)
  {
    hide Safe, SessionOk, Rename.CanMove, Rename.MovedShare, DueOk, StagingOk, BaseOk, Protected;
    MoveAccounts(s, naming, step, t);
    MoveKeepsSession(s, naming, step, t);
    assert ShareOk(t.share) by {
      forall p ensures NodeAt(t.share, p).File? ==> NodeAt(t.share, p).meta.digest != "" {
        assert p != step.a && p != step.b ==> NodeAt(t.share, p) == NodeAt(s.share, p);
      }
    }
    NasStepKeepsContents(s, naming, t);
  }

  lemma MoveKeepsPlan(s: State, naming: Naming, step: Step, t: State, p: Path)
    requires Inv(s, naming) && step.Move? && Enabled(s, step) && Next(s, naming, step, t)
    requires p in s.session.value.plans
    ensures PlanHolds(t, naming, p)
  {
    hide PathHolds, Rename.CanMove, Rename.MovedShare, ContentsHold, DueOk, StagingOk;
    MoveAccounts(s, naming, step, t);
    PlanOfSession(s, naming, p);
    assert forall d :: Stored(s, naming, p, d) ==> Stored(t, naming, p, d);
    UntouchedPlanHolds(s, naming, t, p);
  }

  lemma PublishKeepsContents(s: State, naming: Naming, step: Step, t: State)
    requires Inv(s, naming) && step.Publish? && Enabled(s, step) && Next(s, naming, step, t)
    ensures ContentsHold(t, naming)
  {
    hide Safe, Staging.Publish, BaseOk, Protected;
    var batch := s.staging[step.id];
    Staging.PublishIsAllOrNothing(s.share, step.staged, batch, step.versions, step.stampNs);
    assert ShareOk(t.share) by {
      forall p ensures NodeAt(t.share, p).File? ==> NodeAt(t.share, p).meta.digest != "" {
        if p in batch {
          assert LocalOrReplaced(s, step.id, p, batch[p].digest);
        }
      }
    }
    NasStepKeepsContents(s, naming, t);
  }

  lemma RecordKeepsPlans(s: State, naming: Naming, step: Step, t: State)
    requires Inv(s, naming) && step.RecordDue? && Enabled(s, step) && Next(s, naming, step, t)
    ensures SessionOk(t, naming)
  {
    hide Safe, PathHolds, BaseOk, LiveDigests, Protected, StagingOk, LocalOrReplaced;
    forall y | y in s.session.value.plans ensures PlanHolds(t, naming, y) {
      assert PlanHolds(s, naming, y);
      assert forall d :: Stored(s, naming, y, d) ==> Stored(t, naming, y, d);
      UntouchedPlanHolds(s, naming, t, y);
    }
  }

  lemma RecordKeepsContents(s: State, naming: Naming, step: Step, t: State)
    requires Inv(s, naming) && step.RecordDue? && Enabled(s, step) && Next(s, naming, step, t)
    ensures ContentsHold(t, naming)
  {
    hide Safe, SessionOk, BaseOk, Protected, DueOk, StagingOk;
    var (p, e) := (step.p, s.session.value);
    forall y, d | Safe(s, naming, y, d) ensures Safe(t, naming, y, d) {
      SafeOnSameNas(s, naming, t, y, d);
    }
    RecordedDueIsOk(s, naming, step, t);
    ContentsStayProtected(s, naming, t, e.owner, p);
    RecordKeepsPlans(s, naming, step, t);
  }

  lemma RecordedDueIsOk(s: State, naming: Naming, step: Step, t: State)
    requires Inv(s, naming) && step.RecordDue? && Enabled(s, step) && Next(s, naming, step, t)
    ensures BaseOk(t, naming, s.session.value.owner, step.p)
    ensures var was := ContentOf(Lookup(s.clients[s.session.value.owner].local, step.p));
            was.Some? ==> Protected(t, naming, step.p, was.value)
  {
    hide Safe, Waiting;
    var (p, e) := (step.p, s.session.value);
    if e.due[p].Some? {
      SafeHere(t, naming, p, e.due[p].value.digest);
    }
    var was := ContentOf(Lookup(s.clients[e.owner].local, p));
    if was.Some? && ContentOf(Lookup(t.clients[e.owner].baseline, p)) != was {
      WaitingHere(t, naming, e.owner, p, was.value);
    }
  }

  /* ---- what is due and what is staged ---- */

  /** At a path neither the NAS content changes nor, but by its user, what the client has. */
  ghost predicate Undisturbed(s: State, t: State, id: ClientId, p: Path) {
    && s.replaced <= t.replaced
    && id in s.clients && id in t.clients
    && (ContentOf(Lookup(t.clients[id].local, p)) == ContentOf(Lookup(s.clients[id].local, p))
        || forall d :: ContentOf(Lookup(s.clients[id].local, p)) == Some(d) ==> (p, d) in t.replaced)
  }

  lemma StillLocalOrReplaced(s: State, t: State, id: ClientId, p: Path, d: string)
    requires LocalOrReplaced(s, id, p, d) && Undisturbed(s, t, id, p)
    ensures LocalOrReplaced(t, id, p, d)
  {
  }

  lemma DueStays(s: State, t: State)
    requires DueOk(s) && s.session.Some? && t.session.Some?
    requires var (e, e') := (s.session.value, t.session.value);
             && e'.owner == e.owner && e'.due.Keys <= e.due.Keys && (forall p :: p in e'.due ==> e'.due[p] == e.due[p])
             && e'.snapshot.Keys <= e.snapshot.Keys && e.owner in s.clients
             && forall p :: p in e'.due ==>
                  Undisturbed(s, t, e.owner, p) && (NodeAt(s.share, p).File? ==> NodeContent(NodeAt(t.share, p)) == NodeContent(NodeAt(s.share, p)))
    ensures DueOk(t)
  {
    hide Undisturbed, LocalOrReplaced;
    var (e, e') := (s.session.value, t.session.value);
    forall p | p in e'.due && e'.due[p].Some? ensures LocalOrReplaced(t, e.owner, p, e'.due[p].value.digest) {
      StillLocalOrReplaced(s, t, e.owner, p, e.due[p].value.digest);
    }
  }

  lemma StagingStays(s: State, t: State)
    requires StagingOk(s) && s.clients.Keys <= t.clients.Keys && t.staging.Keys <= s.staging.Keys && forall id :: id in t.staging ==> t.staging[id] == s.staging[id]
    requires t.session.Some? ==>
               t.session.value.owner !in t.staging || (s.session.Some? && s.session.value.owner == t.session.value.owner)
    requires forall id, p :: id in t.staging && id in s.clients && p in t.staging[id] ==> Undisturbed(s, t, id, p)
    ensures StagingOk(t)
  {
    hide Undisturbed;
    forall id, p | id in t.staging && p in t.staging[id] ensures LocalOrReplaced(t, id, p, t.staging[id][p].digest) {
      StillLocalOrReplaced(s, t, id, p, s.staging[id][p].digest);
    }
  }

  lemma OwnerIsClient(s: State, naming: Naming)
    requires ContentsHold(s, naming) && s.session.Some?
    ensures s.session.value.owner in s.clients && s.session.value.plans.Keys <= s.session.value.snapshot.Keys
  {
    hide LiveDigests, BaseOk, Protected, PlanHolds;
  }

  lemma SameClientsUndisturbed(s: State, t: State)
    requires t.clients == s.clients && s.replaced <= t.replaced
    ensures forall id, p :: id in s.clients ==> Undisturbed(s, t, id, p)
  {
  }

  lemma EditKeepsDue(s: State, naming: Naming, step: Step, t: State)
    requires Inv(s, naming) && step.Edit? && Enabled(s, step) && Next(s, naming, step, t)
    ensures DueOk(t) && StagingOk(t)
  {
    hide ContentsHold, DueOk, StagingOk;
    assert forall id, p :: id in s.clients ==> Undisturbed(s, t, id, p);
    hide Undisturbed;
    if s.session.Some? {
      OwnerIsClient(s, naming);
      DueStays(s, t);
    } else {
      NothingIsDue(t);
    }
    StagingStays(s, t);
  }

  /** Steps that change no client. */
  lemma NasStepKeepsDue(s: State, naming: Naming, step: Step, t: State)
    requires Inv(s, naming) && Enabled(s, step) && Next(s, naming, step, t)
    requires step.External? || step.Begin? || step.Stop? || step.Abandon?
    ensures DueOk(t) && StagingOk(t)
  {
    hide ContentsHold, DueOk, StagingOk, Undisturbed;
    SameClientsUndisturbed(s, t);
    StagingStays(s, t);
    if t.session.Some? && !step.Begin? {
      OwnerIsClient(s, naming);
      DueStays(s, t);
    } else {
      NothingIsDue(t);
    }
  }

  lemma NothingIsDue(t: State)
    requires t.session.Some? ==> t.session.value.due == map[]
    ensures DueOk(t)
  {
  }

  lemma StageKeepsDue(s: State, naming: Naming, step: Step, t: State)
    requires Inv(s, naming) && step.Stage? && Enabled(s, step) && Next(s, naming, step, t)
    ensures DueOk(t) && StagingOk(t)
  {
    assert ClientOk(s.clients[step.id]);
  }

  lemma PlanKeepsDue(s: State, naming: Naming, step: Step, t: State)
    requires Inv(s, naming) && step.Plan? && Enabled(s, step) && Fair(s, naming, step) && Next(s, naming, step, t)
    ensures DueOk(t) && StagingOk(t)
  {
    hide ContentsHold, StagingOk, Undisturbed, PlanOf, CopyFor, LocalOrReplaced;
    SameClientsUndisturbed(s, t);
    StagingStays(s, t);
    if t.session.Some? {
      OwnerIsClient(s, naming);
      DueStays(s, t);
    }
  }

  lemma AdvanceKeepsDue(s: State, naming: Naming, step: Step, t: State)
    requires Inv(s, naming) && step.Advance? && Enabled(s, step) && Next(s, naming, step, t)
    ensures DueOk(t) && StagingOk(t)
  {
    hide ContentsHold, StagingOk, Effect, MayAdvance, Listed, Authoritative, LocalOrReplaced;
    var e := s.session.value;
    OwnerIsClient(s, naming);
    assert forall id, p :: id in s.clients && !(id == e.owner && p == step.p) ==> Undisturbed(s, t, id, p);
    hide Undisturbed;
    assert step.p in e.snapshot;
    DueStays(s, t);
    StagingOwners(s, e.owner);
    StagingStays(s, t);
  }

  lemma StagingOwners(s: State, id: ClientId)
    requires StagingOk(s) && s.session.Some? && s.session.value.owner == id
    ensures id !in s.staging
  {
  }

  lemma MoveKeepsDue(s: State, naming: Naming, step: Step, t: State)
    requires Inv(s, naming) && step.Move? && Enabled(s, step) && Next(s, naming, step, t)
    ensures DueOk(t) && StagingOk(t)
  {
    hide ContentsHold, StagingOk, Undisturbed, LocalOrReplaced, Rename.MovedShare;
    MoveAccounts(s, naming, step, t);
    SameClientsUndisturbed(s, t);
    StagingStays(s, t);
    MovedIsDue(s, naming, step, t);
    forall p | p in s.session.value.due && s.session.value.due[p].Some?
      ensures LocalOrReplaced(t, s.session.value.owner, p, s.session.value.due[p].value.digest)
    {
      OwnerIsClient(s, naming);
      StillLocalOrReplaced(s, t, s.session.value.owner, p, s.session.value.due[p].value.digest);
    }
  }

  /** The destination holds on the NAS what the client has there. */
  lemma MovedIsDue(s: State, naming: Naming, step: Step, t: State)
    requires Inv(s, naming) && step.Move? && Enabled(s, step) && Next(s, naming, step, t)
    ensures var local := Lookup(s.clients[s.session.value.owner].local, step.b);
            && local.Some? && NodeContent(NodeAt(s.share, step.a)) == Some(local.value.digest)
            && LocalOrReplaced(t, s.session.value.owner, step.b, local.value.digest)
  {
    hide SessionOk, BaseOk, Protected, DueOk, StagingOk, Rename.MovedShare;
    assert ClientOk(s.clients[s.session.value.owner]);
  }

  lemma PublishKeepsDue(s: State, naming: Naming, step: Step, t: State)
    requires Inv(s, naming) && step.Publish? && Enabled(s, step) && Next(s, naming, step, t)
    ensures DueOk(t) && StagingOk(t)
  {
    hide ContentsHold, Staging.Publish, Undisturbed;
    Staging.PublishIsAllOrNothing(s.share, step.staged, s.staging[step.id], step.versions, step.stampNs);
    SameClientsUndisturbed(s, t);
    StagingStays(s, t);
  }

  lemma RecordKeepsDue(s: State, naming: Naming, step: Step, t: State)
    requires Inv(s, naming) && step.RecordDue? && Enabled(s, step) && Next(s, naming, step, t)
    ensures DueOk(t) && StagingOk(t)
  {
    hide ContentsHold, DueOk, StagingOk;
    assert forall id, p :: id in s.clients ==> Undisturbed(s, t, id, p);
    hide Undisturbed;
    DueStays(s, t);
    StagingStays(s, t);
  }

  lemma PullKeepsDue(s: State, naming: Naming, step: Step, t: State)
    requires Inv(s, naming) && step.PullRound? && Enabled(s, step) && Next(s, naming, step, t)
    ensures DueOk(t) && StagingOk(t)
  {
    hide ContentsHold, PullEffect;
    assert forall id, p :: id in s.clients && id != step.id ==> Undisturbed(s, t, id, p);
    hide Undisturbed;
    StagingStays(s, t);
  }

  lemma StepKeepsDue(s: State, naming: Naming, step: Step, t: State)
    requires Inv(s, naming) && Enabled(s, step) && Fair(s, naming, step) && Next(s, naming, step, t)
    ensures DueOk(t) && StagingOk(t)
  {
    hide Inv, Next, Enabled, Fair, DueOk, StagingOk;
    match step
    case Edit(_, _, _) => EditKeepsDue(s, naming, step, t);
    case External(_, _, _) => NasStepKeepsDue(s, naming, step, t);
    case Begin(_, _) => NasStepKeepsDue(s, naming, step, t);
    case Plan(_, _, _) => PlanKeepsDue(s, naming, step, t);
    case Advance(_) => AdvanceKeepsDue(s, naming, step, t);
    case Stop => NasStepKeepsDue(s, naming, step, t);
    case Move(_, _, _) => MoveKeepsDue(s, naming, step, t);
    case Stage(_, _) => StageKeepsDue(s, naming, step, t);
    case Abandon(_) => NasStepKeepsDue(s, naming, step, t);
    case Publish(_, _, _, _) => PublishKeepsDue(s, naming, step, t);
    case RecordDue(_, _) => RecordKeepsDue(s, naming, step, t);
    case PullRound(_, _, _, _, _) => PullKeepsDue(s, naming, step, t);
  }

  lemma StepKeepsContents(s: State, naming: Naming, step: Step, t: State)
    requires Inv(s, naming) && Enabled(s, step) && Fair(s, naming, step) && Next(s, naming, step, t)
    ensures ContentsHold(t, naming)
  {
    hide Safe, BaseOk, LiveDigests, Protected, PlanHolds, DueOk, StagingOk, Fair;
    match step
    case Edit(_, _, _) => EditKeepsContents(s, naming, step, t);
    case External(_, _, _) => ExternalKeepsContents(s, naming, step, t);
    case Begin(_, _) => SessionChangeKeepsContents(s, naming, t);
    case Plan(_, _, _) => PlanKeepsContents(s, naming, step, t);
    case Advance(_) => AdvanceKeepsContents(s, naming, step, t);
    case Stop => SessionChangeKeepsContents(s, naming, t);
    case Move(_, _, _) => MoveKeepsContents(s, naming, step, t);
    case Stage(_, _) => StagingKeepsContents(s, naming, t);
    case Abandon(_) => StagingKeepsContents(s, naming, t);
    case Publish(_, _, _, _) => PublishKeepsContents(s, naming, step, t);
    case RecordDue(_, _) => RecordKeepsContents(s, naming, step, t);
    case PullRound(_, _, _, _, _) => PullKeepsContents(s, naming, step, t);
  }

  lemma StagingKeepsContents(s: State, naming: Naming, t: State)
    requires ContentsHold(s, naming) && t == s.(staging := t.staging)
    ensures ContentsHold(t, naming)
  {
    hide Safe, PathHolds;
    if s.session.Some? {
      forall p | p in s.session.value.plans ensures PlanHolds(t, naming, p) {
        assert PlanHolds(s, naming, p);
        assert forall d :: Stored(s, naming, p, d) ==> Stored(t, naming, p, d);
        UntouchedPlanHolds(s, naming, t, p);
      }
    }
    SessionChangeKeepsContents(s, naming, t);
  }

  lemma StepKeepsInv(s: State, naming: Naming, step: Step, t: State)
    requires Inv(s, naming) && Enabled(s, step) && Fair(s, naming, step) && Next(s, naming, step, t)
    ensures Inv(t, naming)
  {
    hide Next, Enabled, Fair, ContentsHold, DueOk, StagingOk;
    StepKeepsContents(s, naming, step, t);
    StepKeepsDue(s, naming, step, t);
  }

  /* ---- every run ---- */

  /** Any trees, no bases yet; the contents written so far are where they were written. */
  ghost predicate Initial(s: State) {
    && LiveDigests(s)
    && s.session.None? && s.staging == map[] && s.replaced == {} && s.outdated == {}
    && (forall id :: id in s.clients ==> s.clients[id].baseline == map[])
    && (forall p, d :: (p, d) in s.introduced ==> NodeContent(NodeAt(s.share, p)) == Some(d) || exists id :: WaitsAt(s, id, p, d))
  }

  ghost predicate IsRun(states: seq<State>, naming: Naming, steps: seq<Step>) {
    && |states| == |steps| + 1
    && Initial(states[0])
    && forall i :: 0 <= i < |steps| ==>
         Enabled(states[i], steps[i]) && Fair(states[i], naming, steps[i]) && Next(states[i], naming, steps[i], states[i + 1])
  }

  lemma InitiallyProtected(s: State, naming: Naming)
    requires Initial(s)
    ensures Inv(s, naming)
  {
    hide Safe, Waiting;
    forall p, d | (p, d) in s.introduced ensures Protected(s, naming, p, d) {
      if NodeContent(NodeAt(s.share, p)) == Some(d) {
        SafeHere(s, naming, p, d);
      } else {
        var id :| WaitsAt(s, id, p, d);
        WaitingHere(s, naming, id, p, d);
      }
    }
  }

  lemma {:induction false} RunKeepsInv(states: seq<State>, naming: Naming, steps: seq<Step>, n: nat)
    requires IsRun(states, naming, steps) && n <= |steps|
    ensures Inv(states[n], naming)
  {
    hide Inv, Initial, Next;
    if n > 0 {
      RunKeepsInv(states, naming, steps, n - 1);
      StepKeepsInv(states[n - 1], naming, steps[n - 1], states[n]);
    } else {
      InitiallyProtected(states[0], naming);
    }
  }

  /** In every run, every content any user ever wrote at a path is, under that path or a
      conflict name derived from it: live on the NAS, or waiting on a client to be pushed,
      or itself replaced by a user, or NAS content older than the deletion that removed it. */
  lemma NothingIsLost(states: seq<State>, naming: Naming, steps: seq<Step>, n: nat, p: Path, d: string)
    requires IsRun(states, naming, steps) && n <= |steps| && (p, d) in states[n].introduced
    ensures exists k: nat ::
              var x := Home(naming, p, d, k);
              || NodeContent(NodeAt(states[n].share, x)) == Some(d)
              || (exists id :: WaitsAt(states[n], id, x, d))
              || (x, d) in states[n].replaced
              || (x, d) in states[n].outdated
  {
    RunKeepsInv(states, naming, steps, n);
    var s := states[n];
    assert Protected(s, naming, p, d);
    if Safe(s, naming, p, d) {
      var k: nat :| Accounted(s, Home(naming, p, d, k), d);
    } else {
      var k: nat, id :| WaitsAt(s, id, Home(naming, p, d, k), d);
    }
  }

  /* ---- the race the fairness condition excludes ---- */

  /** A path that was adopted but not listed for the journal is recorded as whatever is
      on the disk when it is read back. The recorded base is really on the NAS exactly
      when the path is still absent then, or happens to hold the NAS content; otherwise
      the next full pull removes the file. */
  lemma LateFileIsRecordedAsPushed(v: PathView, p: Planned)
    requires ViewOk(v) && p.action.ADOPT?
    ensures var w := Commit(v, p, Authoritative(v, p, false));
            && CleanView(w)
            && ((BaseContent(w).Some? ==> NodeContent(v.node) == BaseContent(w))
                <==> v.local.None? || ContentOf(v.local) == NodeContent(v.node))
            && (v.local.Some? && v.node.Missing? ==> SweepPath(w.local, v.node, true).None?)
  {
  }

  /** The record meets such a state: a deletion both sides agree on, and a file created
      while the chunk was confirming it. */
  lemma LateFileExample()
    ensures var before := PathView(None, Some(Fingerprint("old", 3, 0, None)), Missing, Some(Record(None, 0, None)), None);
            var plan := PlanFor(before, Settings(true, 0));
            var late := before.(local := Some(Fingerprint("new", 3, 5, None)));
            && plan.action.ADOPT? && !Listed(before, plan)
            && BaseContent(Commit(late, plan, Authoritative(late, plan, false))) == Some("new")
            && NodeContent(late.node) == None
  {
  }

  /** On the machine: of all effects of a chunk exactly these break the invariant. What
      the step has read back is then not on the NAS, and is what the record will use. */
  lemma LateFileBreaksInvExactly(s: State, naming: Naming, step: Step, t: State)
    requires Inv(s, naming) && step.Advance? && Enabled(s, step) && Next(s, naming, step, t)
    ensures Inv(t, naming) <==> Fair(s, naming, step)
    ensures !Fair(s, naming, step) ==>
              var back := ReadBack(t.session.value, step.p);
              back.Some? && ContentOf(back.value).Some? && ContentOf(back.value) != NodeContent(NodeAt(t.share, step.p))
  {
    hide ContentsHold, DueOk, StagingOk, PathHolds, Enabled, Next;
    if Fair(s, naming, step) {
      StepKeepsInv(s, naming, step, t);
    } else {
      LateFileIsReadBack(s, naming, step, t);
      if Inv(t, naming) {
        ConfirmedIsOnNas(t, naming, step.p);
      }
    }
  }

  lemma LateFileIsReadBack(s: State, naming: Naming, step: Step, t: State)
    requires Inv(s, naming) && step.Advance? && Enabled(s, step) && Next(s, naming, step, t) && !Fair(s, naming, step)
    ensures t.session.Some? && step.p in t.session.value.plans
    ensures var back := ReadBack(t.session.value, step.p);
            back.Some? && ContentOf(back.value).Some? && ContentOf(back.value) != NodeContent(NodeAt(t.share, step.p))
  {
    hide BaseOk, Protected, PathHolds, DueOk, StagingOk;
    assert ClientOk(s.clients[s.session.value.owner]);
  }

  lemma ConfirmedIsOnNas(t: State, naming: Naming, p: Path)
    requires ContentsHold(t, naming) && t.session.Some? && p in t.session.value.plans
    ensures var back := ReadBack(t.session.value, p);
            back.Some? && ContentOf(back.value).Some? ==> ContentOf(back.value) == NodeContent(NodeAt(t.share, p))
  {
    hide BaseOk, Protected, LiveDigests;
    assert PlanHolds(t, naming, p);
  }

  /* ---- the machine runs the chunk ---- */

  /** Left alone, the machine's effects are the chunk's phases: a path that is not obstructed
      may always take its next effect, and that leads exactly from one phase to the next. */
  lemma EffectsArePhases(v: PathView, settings: Settings, phase: nat)
    requires ViewOk(v) && !Obstructed(v, settings) && COPIED <= phase < COMMITTED
    ensures var p := PlanFor(v, settings);
            var (half, last) := (Through(v, p, phase), Through(v, p, REMOVED));
            var listed := phase >= REMOVED && Listed(last, p);
            var confirmed := if phase >= JOURNALED then Authoritative(last, p, Listed(last, p)) else None;
            && MayAdvance(half, p, phase, listed)
            && Effect(half, p, phase, listed, confirmed) == Through(v, p, phase + 1)
            && (phase + 1 == REMOVED ==> ListedAfter(half, p, phase, listed) == Listed(Through(v, p, REMOVED), p))
            && (phase == REMOVED ==> ConfirmedAfter(half, p, phase, listed, confirmed) == Authoritative(last, p, Listed(last, p)))
  {
  }

  /** And its plan is the planner's, for the NAS state read at the start of the chunk. */
  lemma PlanIsThePlanners(s: State, step: Step)
    requires step.Plan? && s.session.Some? && s.session.value.owner in s.clients && step.p in s.session.value.snapshot
    requires var v := ViewAt(s, s.session.value.owner, step.p);
             && s.session.value.snapshot[step.p] == Live(v.node, v.record)
             && step.version == if v.local.Some? then v.local.value.causal else v.deletionClock
    ensures var plan := PlanFor(ViewAt(s, s.session.value.owner, step.p), step.settings);
            var made := PlanOf(s, step);
            && made.action == plan.action && made.seen == plan.seen && made.remote == plan.remote && made.stampNs == plan.stampNs
            && CopyFor(s, step) == CopyOf(ViewAt(s, s.session.value.owner, step.p), plan)
  {
  }
}
