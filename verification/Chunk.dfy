/** One push chunk under the NAS lease, seen path by path: what is planned and what
    each later phase of the chunk does with the plan. */
module Chunk {
  import opened CausalVersions
  import opened SyncState
  import opened Reconcile

  /* ---- the NAS side of one path ---- */

  datatype FileMeta = FileMeta(digest: string, size: int, mtimeNs: int)

  datatype Node = Missing | File(meta: FileMeta) | Special

  /** The latest journal record of a path; `put` is None for a deletion. */
  datatype Record = Record(put: Option<FileMeta>, stampNs: int, causal: Option<Clock>)

  /** The live state the NAS reports. A file's clock is only known while its last
      record describes it; a missing file with any record is a tombstone. */
  function Live(node: Node, record: Option<Record>): RemoteState {
    match node
    case Special => RemoteState(OTHER, "", 0, 0, None)
    case File(m) =>
      RemoteState(FILE, m.digest, m.size, m.mtimeNs,
                  if record.Some? && record.value.put == Some(m) then record.value.causal else None)
    case Missing =>
      if record.Some? then RemoteState(TOMBSTONE, "", 0, record.value.stampNs, record.value.causal)
      else RemoteState(ABSENT, "", 0, 0, None)
  }

  function NodeContent(node: Node): Option<string> {
    if node.File? then Some(node.meta.digest) else None
  }

  /** None: no record; Some(None): a deletion; Some(Some(d)): content d. */
  function RecordContent(record: Option<Record>): Option<Option<string>> {
    if record.None? then None
    else if record.value.put.None? then Some(None)
    else Some(Some(record.value.put.value.digest))
  }

  /** A transferred file keeps its time in whole seconds. */
  function NasMeta(fp: Fingerprint): FileMeta {
    FileMeta(fp.digest, fp.size, Seconds(fp.mtimeNs) * 1_000_000_000)
  }

  function FromNas(node: Node, record: Option<Record>): Fingerprint
    requires node.File?
  {
    Fingerprint(node.meta.digest, node.meta.size, node.meta.mtimeNs, Live(node, record).causal)
  }

  /* ---- everything a chunk looks at for one path ---- */

  datatype PathView = PathView(
    local: Option<Fingerprint>,       // the observed local file, with its version
    baseline: Option<Fingerprint>,
    node: Node,
    record: Option<Record>,
    deletionClock: Option<Clock>)     // the version of an observed local absence

  datatype Planned = Planned(
    action: Action,
    seen: Option<Fingerprint>,        // the local file the plan was made for
    remote: RemoteState,              // the NAS state the plan was made for
    version: Option<Clock>,           // the clock to journal and record
    stampNs: int)                     // the server clock of this chunk's records

  datatype Settings = Settings(deleteEnabled: bool, stampNs: int)

  function PlanFor(v: PathView, settings: Settings): Planned {
    var remote := Live(v.node, v.record);
    var action := PlanPath(v.baseline, v.local, remote, settings.deleteEnabled,
                           if v.local.Some? then v.local.value.causal else v.deletionClock);
    var version :=
      match action
      case UPLOAD => if v.local.Some? then v.local.value.causal else None
      case CONFLICT_LOCAL_WINS => if v.local.Some? then v.local.value.causal else None
      case DELETE_REMOTE => v.deletionClock
      case CONFLICT_REMOTE_WINS => remote.causal
      case REMOTE_WINS => if StaleDelete(v) then remote.causal else None
      case _ => None;
    Planned(action, v.local, remote, version, settings.stampNs)
  }

  predicate StaleDelete(v: PathView) {
    v.local.None? && v.baseline.Some? && !v.baseline.value.IsTombstone()
  }

  predicate Uploads(p: Planned) {
    p.action.UPLOAD? || p.action.CONFLICT_LOCAL_WINS?
  }

  predicate Adopts(p: Planned) {
    p.action.CONFLICT_REMOTE_WINS? && p.seen.Some?
  }

  /* ---- the phases ---- */

  /** The losing version that is stored beside the path before anything replaces it. */
  function CopyOf(v: PathView, p: Planned): Option<FileMeta> {
    if p.action.CONFLICT_LOCAL_WINS? && v.node.File? then Some(v.node.meta)
    else if Adopts(p) then Some(NasMeta(p.seen.value))
    else None
  }

  function Forget(v: PathView, p: Planned): PathView {
    if p.action.REMOTE_WINS? && StaleDelete(v) then v.(baseline := Some(RecordedEntry(None, p.version))) else v
  }

  function Send(v: PathView, p: Planned): PathView {
    if Uploads(p) && v.local.Some? then v.(node := File(NasMeta(v.local.value))) else v
  }

  function Settle(v: PathView, p: Planned): PathView {
    if !Adopts(p) then v
    else match v.node
      case File(m) => v.(local := Some(Fingerprint(m.digest, m.size, m.mtimeNs, None)))
      case Missing => if v.record.Some? then v.(local := None) else v
      case Special => v
  }

  /** The conditional delete: content and whole-second time must still be those seen. */
  function Remove(v: PathView, p: Planned): PathView {
    if p.action.DELETE_REMOTE? && v.node.File? && v.node.meta.digest == p.remote.digest
       && Seconds(v.node.meta.mtimeNs) == Seconds(p.remote.mtimeNs)
    then v.(node := Missing, record := Some(Record(None, p.stampNs, None)))
    else v
  }

  /** Listed for the journal: what was sent, and what was adopted while on the disk. */
  predicate Listed(v: PathView, p: Planned) {
    Uploads(p) || (p.action.ADOPT? && v.local.Some?)
  }

  /** What is confirmed for a path present on the NAS: the local fingerprint if it is
      the same content, else the NAS one. */
  function Confirmed(v: PathView): Fingerprint
    requires v.node.File?
  {
    if v.local.Some? && v.local.value.digest == v.node.meta.digest then v.local.value
    else FromNas(v.node, v.record)
  }

  /** The state of a path to record, read back before the journal is written: None for
      "no record of this path". An adopted path that was not listed is confirmed as
      whatever is on the disk by then. */
  function Authoritative(v: PathView, p: Planned, listed: bool): Option<Option<Fingerprint>> {
    if listed && v.node.File? then Some(Some(Confirmed(v)))
    else if p.action.ADOPT? then Some(v.local)
    else if p.action.DELETE_REMOTE? && v.node.Missing? then Some(None)
    else if Adopts(p) && v.node.File? then Some(Some(FromNas(v.node, v.record)))
    else if Adopts(p) && v.node.Missing? && v.record.Some? then Some(None)
    else None
  }

  function Journal(v: PathView, p: Planned, listed: bool): PathView {
    if !(listed && v.node.File?) then v
    else
      var fp := Confirmed(v);
      v.(record := Some(Record(Some(FileMeta(fp.digest, fp.size, fp.mtimeNs)), p.stampNs, p.version)))
  }

  function Commit(v: PathView, p: Planned, confirmed: Option<Option<Fingerprint>>): PathView {
    if confirmed.None? then v else v.(baseline := Some(RecordedEntry(confirmed.value, p.version)))
  }

  /** The phases in the order the chunk runs them; phase 1 makes the conflict copy,
      which lands on another path. */
  const COPIED := 1
  const FORGOTTEN := 2
  const SENT := 3
  const SETTLED := 4
  const REMOVED := 5
  const JOURNALED := 6
  const COMMITTED := 7

  function Through(v: PathView, p: Planned, phase: nat): PathView {
    var v2 := if phase >= FORGOTTEN then Forget(v, p) else v;
    var v3 := if phase >= SENT then Send(v2, p) else v2;
    var v4 := if phase >= SETTLED then Settle(v3, p) else v3;
    var v5 := if phase >= REMOVED then Remove(v4, p) else v4;
    var listed := Listed(v5, p);
    var v6 := if phase >= JOURNALED then Journal(v5, p, listed) else v5;
    if phase >= COMMITTED then Commit(v6, p, Authoritative(v5, p, listed)) else v6
  }

  /* ---- properties of one path ---- */

  predicate ViewOk(v: PathView) {
    && (v.local.Some? ==> v.local.value.digest != "")
    && (v.node.File? ==> v.node.meta.digest != "")
  }

  /** The chunk cannot finish: the NAS path is not a regular file, or a local change
      lost to a NAS path that is absent without any trace of a deletion. */
  predicate Obstructed(v: PathView, settings: Settings) {
    var p := PlanFor(v, settings);
    p.action.BLOCK? || (p.action.CONFLICT_REMOTE_WINS? && p.remote.kind.ABSENT?)
  }

  /** And it fails every time: no phase of such a path changes anything, so the next plan
      finds it as it was. */
  lemma ObstructionStays(v: PathView, settings: Settings, settings': Settings, phase: nat)
    requires Obstructed(v, settings)
    ensures Through(v, PlanFor(v, settings), phase) == v
    ensures settings'.deleteEnabled == settings.deleteEnabled ==> Obstructed(Through(v, PlanFor(v, settings), phase), settings')
  {
  }

  /** A known file, deleted elsewhere so long ago that the record is gone too, and edited
      here: obstructed, although the edit is newer by its clock. */
  lemma ObstructedExample(settings: Settings, phase: nat)
    ensures var v := PathView(Some(Fingerprint("new", 3, 9, Some(map["other" := 1, "here" := 1]))),
                              Some(Fingerprint("old", 3, 5, Some(map["other" := 1]))), Missing, None, None);
            ViewOk(v) && Obstructed(v, settings) && Through(v, PlanFor(v, settings), phase) == v
  {
  }

  /** When that happens, from what is stored: a special NAS entry where a file is
      expected, or an edit of a known file whose every NAS trace is gone. */
  lemma ObstructedExactly(v: PathView, settings: Settings)
    requires ViewOk(v)
    ensures Obstructed(v, settings) <==>
              || (v.node.Special? && (v.local.Some? || ContentOf(v.baseline).Some?))
              || (v.node.Missing? && v.record.None? && v.local.Some? && ContentOf(v.baseline).Some?
                  && ContentOf(v.local) != ContentOf(v.baseline))
  {
  }

  function BaseContent(v: PathView): Option<string> {
    ContentOf(v.baseline)
  }

  predicate CleanView(v: PathView) {
    Clean(v.baseline, v.local)
  }

  /** A finished chunk leaves every planned path clean; and unless it was the NAS that
      moved, local, base and NAS then hold the same. */
  lemma FinishedPathIsClean(v: PathView, settings: Settings)
    requires ViewOk(v) && !Obstructed(v, settings)
    ensures var p := PlanFor(v, settings);
            var w := Through(v, p, COMMITTED);
            && CleanView(w)
            && ViewOk(w)
            && (!p.action.REMOTE_WINS? && !p.action.NOTHING? ==> NodeContent(w.node) == ContentOf(w.local))
  {
  }

  /** Nothing is lost at the path: what was live on either side is afterwards live on
      the NAS, or copied, or was the common base, or older than the local deletion. */
  lemma FinishedPathLosesNothing(v: PathView, settings: Settings, phase: nat)
    requires ViewOk(v)
    ensures var p := PlanFor(v, settings);
            var w := Through(v, p, phase);
            && (v.local.Some? ==>
                  || ContentOf(w.local) == ContentOf(v.local)
                  || (phase >= COPIED && CopyOf(v, p).Some? && Some(CopyOf(v, p).value.digest) == ContentOf(v.local)))
            && (v.node.File? ==>
                  || NodeContent(w.node) == NodeContent(v.node)
                  || (phase >= COPIED && CopyOf(v, p).Some? && Some(CopyOf(v, p).value.digest) == NodeContent(v.node))
                  || (NodeContent(v.node) == BaseContent(v) && ContentOf(v.local) != BaseContent(v))
                  || (v.local.None? && v.deletionClock.Some? && Dominates(v.deletionClock.value, p.remote.causal)))
  {
  }

  /** A clean path leaves the NAS content alone in every phase. */
  lemma CleanPathKeepsNas(v: PathView, settings: Settings, phase: nat)
    requires ViewOk(v) && CleanView(v)
    ensures var w := Through(v, PlanFor(v, settings), phase);
            && w.node == v.node
            && ContentOf(w.local) == ContentOf(v.local)
            && BaseContent(w) == BaseContent(v)
            && CopyOf(v, PlanFor(v, settings)) == None
  {
  }

  /* ---- crash recovery of one path ---- */

  /** The last record describes what is there. */
  predicate Accurate(v: PathView) {
    v.node.File? ==> RecordContent(v.record) == Some(NodeContent(v.node))
  }

  /** The same content on the disk, in the base and on the NAS. */
  predicate SameLive(v: PathView, w: PathView) {
    && ContentOf(v.local) == ContentOf(w.local)
    && BaseContent(v) == BaseContent(w)
    && NodeContent(v.node) == NodeContent(w.node) && (v.node.Special? <==> w.node.Special?)
  }

  predicate SameContents(v: PathView, w: PathView) {
    SameLive(v, w) && RecordContent(v.record) == RecordContent(w.record)
  }

  /** The NAS wins with a file its last record does not describe. A chunk that runs
      through leaves that record as it is. */
  predicate WinsUnrecorded(v: PathView, settings: Settings) {
    PlanFor(v, settings).action.CONFLICT_REMOTE_WINS? && !Accurate(v)
  }

  /** Whatever phase a crash interrupts, planning the path again from the state left
      behind and finishing gives the live contents of the uninterrupted chunk, and the
      second plan needs no conflict copy or the very same one. The last record has the
      same content too, unless an unrecorded NAS win had been taken over: then, and only
      then, the second plan journals what the first would not have. */
  lemma ReplanAfterCrash(v: PathView, settings: Settings, settings': Settings, phase: nat)
    requires ViewOk(v) && !Obstructed(v, settings) && settings'.deleteEnabled == settings.deleteEnabled
    ensures var p := PlanFor(v, settings);
            var half := Through(v, p, phase);
            var p' := PlanFor(half, settings');
            var redone, straight := Through(half, p', COMMITTED), Through(v, p, COMMITTED);
            && !Obstructed(half, settings')
            && ViewOk(half)
            && SameLive(redone, straight)
            && (RecordContent(redone.record) == RecordContent(straight.record) <==> !(WinsUnrecorded(v, settings) && phase >= SETTLED))
            && (WinsUnrecorded(v, settings) && phase >= SETTLED ==> Accurate(redone))
            && (CopyOf(half, p').Some? ==> CopyOf(half, p') == CopyOf(v, p))
            && (phase < COPIED ==> CopyOf(half, p') == CopyOf(v, p))
            && (WinsUnrecorded(half, settings') <==> WinsUnrecorded(v, settings) && phase < SETTLED)
  {
    var p := PlanFor(v, settings);
    var half := Through(v, p, phase);
    if Uploads(p) {
      SentIsAdopted(v, settings, settings', phase);
    } else if p.action.CONFLICT_REMOTE_WINS? {
      SettledIsAdopted(v, settings, settings', phase);
    } else {
      QuietPathReplans(v, settings, settings', phase);
    }
  }

  /** The actions that need no transfer: deletions, adoptions, NAS wins. */
  lemma QuietPathReplans(v: PathView, settings: Settings, settings': Settings, phase: nat)
    requires ViewOk(v) && !Obstructed(v, settings) && settings'.deleteEnabled == settings.deleteEnabled
    requires !Uploads(PlanFor(v, settings)) && !PlanFor(v, settings).action.CONFLICT_REMOTE_WINS?
    ensures var p := PlanFor(v, settings);
            var half := Through(v, p, phase);
            var p' := PlanFor(half, settings');
            && ViewOk(half)
            && p'.action in {ADOPT, REMOTE_WINS, NOTHING, DELETE_REMOTE}
            && SameContents(Through(half, p', COMMITTED), Through(v, p, COMMITTED))
            && CopyOf(half, p') == CopyOf(v, p) == None
  {
    var p := PlanFor(v, settings);
    if p.action.DELETE_REMOTE? {
      RemovedIsAdopted(v, settings, settings', phase);
    } else if p.action.ADOPT? {
      AdoptedIsAdopted(v, settings, settings', phase);
    }
  }

  lemma RemovedIsAdopted(v: PathView, settings: Settings, settings': Settings, phase: nat)
    requires ViewOk(v) && PlanFor(v, settings).action.DELETE_REMOTE? && settings'.deleteEnabled == settings.deleteEnabled
    ensures var p := PlanFor(v, settings);
            var half := Through(v, p, phase);
            var p' := PlanFor(half, settings');
            && ViewOk(half)
            && p'.action == (if phase >= REMOVED then ADOPT else DELETE_REMOTE)
            && SameContents(Through(half, p', COMMITTED), Through(v, p, COMMITTED))
            && CopyOf(half, p') == CopyOf(v, p) == None
  {
  }

  lemma AdoptedIsAdopted(v: PathView, settings: Settings, settings': Settings, phase: nat)
    requires ViewOk(v) && PlanFor(v, settings).action.ADOPT? && settings'.deleteEnabled == settings.deleteEnabled
    ensures var p := PlanFor(v, settings);
            var half := Through(v, p, phase);
            var p' := PlanFor(half, settings');
            && ViewOk(half)
            && p'.action.ADOPT?
            && SameContents(Through(half, p', COMMITTED), Through(v, p, COMMITTED))
            && CopyOf(half, p') == CopyOf(v, p) == None
  {
  }

  lemma SentIsAdopted(v: PathView, settings: Settings, settings': Settings, phase: nat)
    requires ViewOk(v) && Uploads(PlanFor(v, settings)) && settings'.deleteEnabled == settings.deleteEnabled
    ensures var p := PlanFor(v, settings);
            var half := Through(v, p, phase);
            var p' := PlanFor(half, settings');
            && ViewOk(half)
            && (phase >= SENT ==> p'.action.ADOPT?)
            && (phase < SENT ==> half == v && p'.action == p.action)
            && !Obstructed(half, settings')
            && SameContents(Through(half, p', COMMITTED), Through(v, p, COMMITTED))
            && (CopyOf(half, p').Some? ==> CopyOf(half, p') == CopyOf(v, p))
            && (phase < COPIED ==> CopyOf(half, p') == CopyOf(v, p))
  {
  }

  lemma SettledIsAdopted(v: PathView, settings: Settings, settings': Settings, phase: nat)
    requires ViewOk(v) && PlanFor(v, settings).action.CONFLICT_REMOTE_WINS? && !Obstructed(v, settings)
    requires settings'.deleteEnabled == settings.deleteEnabled
    ensures var p := PlanFor(v, settings);
            var half := Through(v, p, phase);
            var p' := PlanFor(half, settings');
            var redone, straight := Through(half, p', COMMITTED), Through(v, p, COMMITTED);
            && ViewOk(half)
            && (phase >= SETTLED ==> p'.action.ADOPT?)
            && (phase < SETTLED ==> half == v && p'.action == p.action)
            && !Obstructed(half, settings')
            && SameLive(redone, straight)
            && (RecordContent(redone.record) == RecordContent(straight.record) <==> Accurate(v) || phase < SETTLED)
            && (v.node.File? && phase >= SETTLED ==> RecordContent(redone.record) == Some(NodeContent(v.node)))
            && (CopyOf(half, p').Some? ==> CopyOf(half, p') == CopyOf(v, p))
            && (phase < COPIED ==> CopyOf(half, p') == CopyOf(v, p))
  {
  }

  /** The phase from which a crash leaves nothing that would plan the conflict copy again. */
  function LastReplan(p: Planned): nat {
    if Uploads(p) then SENT else SETTLED
  }

  lemma CopyIsPlannedAgain(v: PathView, settings: Settings, settings': Settings, phase: nat)
    requires ViewOk(v) && !Obstructed(v, settings) && settings'.deleteEnabled == settings.deleteEnabled
    ensures var p := PlanFor(v, settings);
            var half := Through(v, p, phase);
            CopyOf(half, PlanFor(half, settings')).Some? <==> CopyOf(v, p).Some? && phase < LastReplan(p)
  {
    var p := PlanFor(v, settings);
    if Uploads(p) {
      SentIsAdopted(v, settings, settings', phase);
    } else if p.action.CONFLICT_REMOTE_WINS? {
      SettledIsAdopted(v, settings, settings', phase);
    } else {
      QuietPathReplans(v, settings, settings', phase);
    }
  }

  /* ---- what stays queued ---- */

  /** What the path is recorded as at the end of a finished chunk; None for "no record". */
  function Confirmation(v: PathView, settings: Settings): Option<Option<Fingerprint>> {
    var p := PlanFor(v, settings);
    var w := Through(v, p, REMOVED);
    Authoritative(w, p, Listed(w, p))
  }

  /** The path keeps its entry in the durable queue: what is on the disk when the queue is
      cleared is not what was recorded. A path without a record is cleared in any case. */
  predicate StaysQueued(v: PathView, settings: Settings, now: Option<Fingerprint>) {
    Confirmation(v, settings).Some? && now != Confirmation(v, settings).value
  }

  /** An edit that landed during a finished chunk, so that the disk no longer holds the
      recorded base, keeps its entry exactly if the chunk recorded the path: if the plan
      was neither to leave the path to the NAS nor to do nothing. */
  lemma LateEditStaysQueuedExactly(v: PathView, settings: Settings, now: Option<Fingerprint>)
    requires ViewOk(v) && !Obstructed(v, settings)
    requires ContentOf(now) != BaseContent(Through(v, PlanFor(v, settings), COMMITTED))
    ensures StaysQueued(v, settings, now) <==> PlanFor(v, settings).action !in {REMOTE_WINS, NOTHING}
  {
    RecordedExactly(v, settings);
  }

  lemma RecordedExactly(v: PathView, settings: Settings)
    requires ViewOk(v) && !Obstructed(v, settings)
    ensures Confirmation(v, settings).Some? <==> PlanFor(v, settings).action !in {REMOTE_WINS, NOTHING}
    ensures Confirmation(v, settings).Some? ==>
              BaseContent(Through(v, PlanFor(v, settings), COMMITTED)) == ContentOf(Confirmation(v, settings).value)
  {
  }

  /** A file changed on the NAS only: nothing to push. The user edits it before the chunk
      has cleared the queue, and the edit is not queued any more. */
  lemma LateEditIsForgottenExample(settings: Settings)
    ensures var known := Fingerprint("old", 3, 5, None);
            var nas := FileMeta("nas", 3, 7);
            var v := PathView(Some(known), Some(known), File(nas), Some(Record(Some(nas), 7, None)), None);
            var edit := Fingerprint("new", 3, 9, None);
            && ViewOk(v) && PlanFor(v, settings).action.REMOTE_WINS?
            && BaseContent(Through(v, PlanFor(v, settings), COMMITTED)) == Some("old")
            && !StaysQueued(v, settings, Some(edit))
  {
  }

  /* ---- files, records and clocks of a finished path ---- */

  /** What the NAS reports of a path. A clock comes with a file only if it was journaled
      for exactly this content, size and time. */
  lemma ReportedExactly(node: Node, record: Option<Record>)
    ensures var live := Live(node, record);
            && (live.kind.OTHER? <==> node.Special?)
            && (live.kind.FILE? <==> node.File?)
            && (live.kind.TOMBSTONE? <==> node.Missing? && record.Some?)
            && (live.kind.ABSENT? <==> node.Missing? && record.None?)
            && (node.File? ==> live.digest == node.meta.digest && live.size == node.meta.size && live.mtimeNs == node.meta.mtimeNs)
            && (!node.File? ==> live.digest == "" && live.size == 0)
            && (node.Missing? && record.Some? ==> live.mtimeNs == record.value.stampNs)
            && (live.kind.ABSENT? || live.kind.OTHER? ==> live.mtimeNs == 0)
            && live.causal == if record.Some? && (node.Missing? || (node.File? && record.value.put == Some(node.meta))) then record.value.causal
                              else None
  {
  }

  /** A clock as it is read back from the tables: an empty one is none. */
  function NonEmpty(clock: Option<Clock>): Option<Clock> {
    if clock.Some? && clock.value == map[] then None else clock
  }

  /** An upload that ran to the end. The NAS holds the local file with its time in whole
      seconds; journal and base have the local size, time and clock; nothing else moved. */
  lemma FinishedUpload(v: PathView, settings: Settings)
    requires ViewOk(v) && PlanFor(v, settings).action in {UPLOAD, CONFLICT_LOCAL_WINS}
    ensures var w := Through(v, PlanFor(v, settings), COMMITTED);
            v.local.Some? &&
            var l := v.local.value;
            && w.local == v.local && w.deletionClock == v.deletionClock
            && w.node == File(FileMeta(l.digest, l.size, l.mtimeNs - l.mtimeNs % 1_000_000_000))
            && w.record == Some(Record(Some(FileMeta(l.digest, l.size, l.mtimeNs)), settings.stampNs, l.causal))
            && w.baseline == Some(Fingerprint(l.digest, l.size, l.mtimeNs, NonEmpty(l.causal)))
  {
  }

  /** A checked delete: no file, a record of the deletion, and a base that carries the
      clock of the local deletion. */
  lemma FinishedDelete(v: PathView, settings: Settings)
    requires ViewOk(v) && PlanFor(v, settings).action.DELETE_REMOTE?
    ensures var w := Through(v, PlanFor(v, settings), COMMITTED);
            && w.local == v.local == None && w.deletionClock == v.deletionClock
            && w.node == Missing
            && w.record == Some(Record(None, settings.stampNs, None))
            && w.baseline == Some(Fingerprint("", -1, -1, NonEmpty(v.deletionClock)))
  {
  }

  /** A NAS win over a local version: the local side takes over file and clock of the NAS,
      or its deletion. */
  lemma FinishedNasWin(v: PathView, settings: Settings)
    requires ViewOk(v) && !Obstructed(v, settings) && PlanFor(v, settings).action.CONFLICT_REMOTE_WINS?
    ensures var w := Through(v, PlanFor(v, settings), COMMITTED);
            && w.node == v.node && w.record == v.record && w.deletionClock == v.deletionClock
            && (match v.node
                case File(m) =>
                  && w.local == Some(Fingerprint(m.digest, m.size, m.mtimeNs, None))
                  && w.baseline == Some(Fingerprint(m.digest, m.size, m.mtimeNs,
                                                    if v.record.Some? && v.record.value.put == Some(m) then NonEmpty(v.record.value.causal) else None))
                case Missing =>
                  v.record.Some? && w.local == None && w.baseline == Some(Fingerprint("", -1, -1, NonEmpty(v.record.value.causal)))
                case Special => false)
  {
  }

  /** An agreement: only the base changes, and the journal if there is a file. What is
      journaled then has no clock: an upload adopted after a crash loses its version. */
  lemma FinishedAdoption(v: PathView, settings: Settings)
    requires ViewOk(v) && PlanFor(v, settings).action.ADOPT?
    ensures var w := Through(v, PlanFor(v, settings), COMMITTED);
            && w.local == v.local && w.node == v.node && w.deletionClock == v.deletionClock
            && (match v.local
                case Some(l) =>
                  && w.baseline == Some(Fingerprint(l.digest, l.size, l.mtimeNs, NonEmpty(l.causal)))
                  && w.record == Some(Record(Some(FileMeta(l.digest, l.size, l.mtimeNs)), settings.stampNs, None))
                case None =>
                  w.baseline == Some(Fingerprint("", -1, -1, None)) && w.record == v.record)
  {
  }

  /** Everything else is left to a pull; a local deletion that the NAS overrules is
      recorded, with the clock of the NAS version. */
  lemma FinishedByNas(v: PathView, settings: Settings)
    requires ViewOk(v) && PlanFor(v, settings).action in {REMOTE_WINS, NOTHING, BLOCK}
    ensures var w := Through(v, PlanFor(v, settings), COMMITTED);
            if v.local.None? && ContentOf(v.baseline).Some? && v.node.File? then
              w == v.(baseline := Some(Fingerprint("", -1, -1, if v.record.Some? && v.record.value.put == Some(v.node.meta) then NonEmpty(v.record.value.causal) else None)))
            else w == v
  {
  }

  /** Nobody reading the journal takes a finished upload for older than it is: its record
      includes whatever the file's version included. */
  lemma UploadKeepsHistory(v: PathView, settings: Settings, past: Clock)
    requires ViewOk(v) && PlanFor(v, settings).action in {UPLOAD, CONFLICT_LOCAL_WINS}
    requires v.local.Some? && v.local.value.causal.Some? && Includes(v.local.value.causal.value, past)
    ensures var record := Through(v, PlanFor(v, settings), COMMITTED).record;
            record.Some? && record.value.causal.Some? && Includes(record.value.causal.value, past)
  {
    FinishedUpload(v, settings);
  }

  /** The journal has the local time in full, the NAS file whole seconds, and the NAS
      reports a clock only where the two agree: so the clock of an upload can be seen
      exactly when its time is a whole second. */
  lemma UploadedClockIsSeenExactly(v: PathView, settings: Settings)
    requires ViewOk(v) && PlanFor(v, settings).action in {UPLOAD, CONFLICT_LOCAL_WINS}
    ensures var w := Through(v, PlanFor(v, settings), COMMITTED);
            v.local.Some? &&
            (Live(w.node, w.record).causal == v.local.value.causal
             <==> v.local.value.causal.None? || v.local.value.mtimeNs % 1_000_000_000 == 0)
  {
    FinishedUpload(v, settings);
  }

  /** The losing version, stored beside the path: the NAS file as it is, or the local file
      as a transfer leaves it. */
  lemma CopyExactly(v: PathView, settings: Settings)
    requires ViewOk(v)
    ensures CopyOf(v, PlanFor(v, settings)) ==
              match PlanFor(v, settings).action
              case CONFLICT_LOCAL_WINS => if v.node.File? then Some(v.node.meta) else None
              case CONFLICT_REMOTE_WINS =>
                if v.local.Some? then
                  Some(FileMeta(v.local.value.digest, v.local.value.size, v.local.value.mtimeNs - v.local.value.mtimeNs % 1_000_000_000))
                else None
              case _ => None
    ensures PlanFor(v, settings).action.CONFLICT_LOCAL_WINS? ==> v.node.File?
    ensures PlanFor(v, settings).action.CONFLICT_REMOTE_WINS? ==> v.local.Some?
  {
  }

  /** The conditional delete spares a file that is no longer the one planned for. */
  lemma RemoveSparesChanges(v: PathView, p: Planned)
    requires p.action.DELETE_REMOTE?
    ensures Remove(v, p) ==
              if v.node.File? && v.node.meta.digest == p.remote.digest
                 && v.node.meta.mtimeNs / 1_000_000_000 == p.remote.mtimeNs / 1_000_000_000
              then v.(node := Missing, record := Some(Record(None, p.stampNs, None))) else v
  {
  }

  /** The order of effects: contents reach the NAS before the disk is touched, the disk
      before anything is deleted, the journal follows all of these, and a base is recorded
      after the journal; only an overruled deletion is recorded at once. */
  lemma EffectsInOrder(v: PathView, settings: Settings, phase: nat)
    requires ViewOk(v)
    ensures var p := PlanFor(v, settings);
            var half, w := Through(v, p, phase), Through(v, p, COMMITTED);
            && half.local == (if phase < SETTLED then v.local else w.local)
            && half.node == (if p.action.DELETE_REMOTE? then (if phase < REMOVED then v.node else w.node)
                             else if phase < SENT then v.node else w.node)
            && half.record == (if p.action.DELETE_REMOTE? then (if phase < REMOVED then v.record else w.record)
                               else if phase < JOURNALED then v.record else w.record)
            && half.baseline == (if p.action.REMOTE_WINS? then (if phase < FORGOTTEN then v.baseline else w.baseline)
                                 else if phase < COMMITTED then v.baseline else w.baseline)
            && half.deletionClock == v.deletionClock
            && COPIED == 1 && FORGOTTEN == 2 && SENT == 3 && SETTLED == 4 && REMOVED == 5 && JOURNALED == 6 && COMMITTED == 7
  {
  }

  /** The read-back of any path, edited meanwhile or not. A listed file is confirmed as the
      local one only if that is still what the NAS has; an unlisted agreement as whatever is
      on the disk; a delete only if the file is really gone. */
  lemma ReadBackExactly(v: PathView, p: Planned, listed: bool)
    ensures Authoritative(v, p, listed) ==
              match v.node
              case File(m) =>
                var nas := Fingerprint(m.digest, m.size, m.mtimeNs, if v.record.Some? && v.record.value.put == Some(m) then v.record.value.causal else None);
                if listed then Some(if v.local.Some? && v.local.value.digest == m.digest then v.local else Some(nas))
                else if p.action.ADOPT? then Some(v.local)
                else if p.action.CONFLICT_REMOTE_WINS? && p.seen.Some? then Some(Some(nas))
                else None
              case Missing =>
                if p.action.ADOPT? then Some(v.local)
                else if p.action.DELETE_REMOTE? || (p.action.CONFLICT_REMOTE_WINS? && p.seen.Some? && v.record.Some?) then Some(None)
                else None
              case Special => if p.action.ADOPT? then Some(v.local) else None
  {
  }

  /** What the read-back takes for the state of a path, by its plan. */
  lemma ConfirmedExactly(v: PathView, settings: Settings)
    requires ViewOk(v) && !Obstructed(v, settings)
    ensures Confirmation(v, settings) ==
              match PlanFor(v, settings).action
              case UPLOAD => Some(v.local)
              case CONFLICT_LOCAL_WINS => Some(v.local)
              case ADOPT => Some(v.local)
              case DELETE_REMOTE => Some(None)
              case CONFLICT_REMOTE_WINS =>
                (match v.node
                 case File(m) =>
                   Some(Some(Fingerprint(m.digest, m.size, m.mtimeNs, if v.record.Some? && v.record.value.put == Some(m) then v.record.value.causal else None)))
                 case _ => Some(None))
              case _ => None
  {
  }
}
