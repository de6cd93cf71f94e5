/** The per-path planner: one action from the common base and both live states. */
module Reconcile {
  import opened CausalVersions
  import opened SyncState

  datatype RemoteKind = ABSENT | FILE | TOMBSTONE | OTHER

  datatype RemoteState = RemoteState(kind: RemoteKind, digest: string, size: int, mtimeNs: int, causal: Option<Clock>)

  datatype Action =
    | NOTHING
    | ADOPT
    | UPLOAD
    | DELETE_REMOTE
    | REMOTE_WINS
    | CONFLICT_LOCAL_WINS
    | CONFLICT_REMOTE_WINS
    | BLOCK

  datatype Winner = LocalVersion | RemoteVersion

  predicate SameFile(left: Option<Fingerprint>, right: RemoteState) {
    left.Some? && !left.value.IsTombstone() && right.kind.FILE? && left.value.digest == right.digest
  }

  /** Whole seconds, rounded down. */
  function Seconds(mtimeNs: int): int {
    mtimeNs / 1_000_000_000
  }

  predicate EventIsNewer(local: Fingerprint, remote: RemoteState) {
    Seconds(local.mtimeNs) > Seconds(remote.mtimeNs)
  }

  function CausalWinner(local: Option<Fingerprint>, remote: RemoteState, localCausal: Option<Clock>): Option<Winner> {
    var localVersion := if local.Some? then local.value.causal else localCausal;
    if localVersion.Some? && Dominates(localVersion.value, remote.causal) then Some(LocalVersion)
    else if remote.causal.Some? && Dominates(remote.causal.value, localVersion) then Some(RemoteVersion)
    else None
  }

  function ResolveConcurrent(local: Fingerprint, remote: RemoteState, localCausal: Option<Clock>): Action {
    match CausalWinner(Some(local), remote, localCausal)
    case Some(LocalVersion) => CONFLICT_LOCAL_WINS
    case Some(RemoteVersion) => CONFLICT_REMOTE_WINS
    case None => if EventIsNewer(local, remote) then CONFLICT_LOCAL_WINS else CONFLICT_REMOTE_WINS
  }

  function PlanPath(baseline: Option<Fingerprint>, local: Option<Fingerprint>, remote: RemoteState,
                    deleteEnabled: bool, localCausal: Option<Clock>): Action
  {
    if remote.kind.OTHER? then
      if (baseline.None? || baseline.value.IsTombstone()) && local.None? then NOTHING else BLOCK
    else if baseline.None? then
      if local.None? then
        if remote.kind.TOMBSTONE? then ADOPT else REMOTE_WINS
      else if remote.kind.ABSENT? then UPLOAD
      else if remote.kind.TOMBSTONE? then CONFLICT_REMOTE_WINS
      else if SameFile(local, remote) then ADOPT
      else ResolveConcurrent(local.value, remote, localCausal)
    else if baseline.value.IsTombstone() then
      if local.None? then
        if !remote.kind.FILE? then ADOPT else REMOTE_WINS
      else if remote.kind.ABSENT? then UPLOAD
      else if remote.kind.TOMBSTONE? then
        if CausalWinner(local, remote, localCausal) == Some(RemoteVersion) then CONFLICT_REMOTE_WINS else UPLOAD
      else if SameFile(local, remote) then ADOPT
      else ResolveConcurrent(local.value, remote, localCausal)
    else if local.None? then
      if remote.kind.ABSENT? || remote.kind.TOMBSTONE? then ADOPT
      else
        var winner := CausalWinner(None, remote, localCausal);
        if winner == Some(LocalVersion) && deleteEnabled then DELETE_REMOTE
        else if winner == Some(RemoteVersion) then REMOTE_WINS
        else if deleteEnabled && remote.digest == baseline.value.digest then DELETE_REMOTE
        else REMOTE_WINS
    else
      var localChanged := local.value.digest != baseline.value.digest;
      if remote.kind.ABSENT? || remote.kind.TOMBSTONE? then
        if !localChanged then REMOTE_WINS
        else if CausalWinner(local, remote, localCausal) == Some(LocalVersion) then UPLOAD
        else CONFLICT_REMOTE_WINS
      else if SameFile(local, remote) then ADOPT
      else
        var remoteChanged := remote.digest != baseline.value.digest;
        if localChanged && !remoteChanged then UPLOAD
        else if !localChanged && remoteChanged then REMOTE_WINS
        else if !localChanged && !remoteChanged then ADOPT
        else ResolveConcurrent(local.value, remote, localCausal)
  }

  /* ---- what a side holds, as content: None is "no file" ---- */

  function ContentOf(fp: Option<Fingerprint>): Option<string> {
    if fp.None? || fp.value.IsTombstone() then None else Some(fp.value.digest)
  }

  function RemoteContent(remote: RemoteState): Option<string> {
    if remote.kind.FILE? then Some(remote.digest) else None
  }

  /** Digests are never empty on live files. */
  predicate WellFormed(local: Option<Fingerprint>, remote: RemoteState) {
    (local.Some? ==> local.value.digest != "") && (remote.kind.FILE? ==> remote.digest != "")
  }

  /* ---- the reference: a three-way merge on contents ---- */

  datatype Merge3 = Agree | TakeLocal | TakeRemote | Both

  function ThreeWay(base: Option<string>, local: Option<string>, remote: Option<string>): Merge3 {
    if local == remote then Agree
    else if remote == base then TakeLocal
    else if local == base then TakeRemote
    else if local.None? then TakeRemote  // a deletion does not stand against a changed file
    else Both
  }

  /** The action that carries out a merge verdict. */
  predicate CarriesOut(action: Action, verdict: Merge3, local: Option<string>) {
    match verdict
    case Agree => action.ADOPT?
    case TakeLocal => if local.Some? then action.UPLOAD? else action.DELETE_REMOTE?
    case TakeRemote => action.REMOTE_WINS?
    case Both => action.CONFLICT_LOCAL_WINS? || action.CONFLICT_REMOTE_WINS?
  }

  /** The situations in which the planner departs from the plain merge: nothing is
      known about the path, a local file meets the trace of a NAS deletion it has never
      adopted, or a clock (or the delete switch) overrules the base comparison. */
  predicate Departs(baseline: Option<Fingerprint>, local: Option<Fingerprint>, remote: RemoteState,
                    deleteEnabled: bool, localCausal: Option<Clock>)
  {
    var version := if local.Some? then local.value.causal else localCausal;
    var ahead := version.Some? && Dominates(version.value, remote.causal);
    var behind := remote.causal.Some? && Dominates(remote.causal.value, version);
    match (ContentOf(baseline), local, remote.kind)
    case (None, None, ABSENT) => baseline.None?
    case (None, Some(_), TOMBSTONE) => baseline.None? || behind
    case (Some(_), None, FILE) =>
      if remote.digest == baseline.value.digest then !deleteEnabled || behind
      else deleteEnabled && ahead
    case (Some(b), Some(l), ABSENT) => l.digest != b && ahead
    case (Some(b), Some(l), TOMBSTONE) => l.digest != b && ahead
    case _ => false
  }

  /** The planner is the three-way merge exactly outside the listed departures. */
  lemma PlanIsThreeWayMerge(baseline: Option<Fingerprint>, local: Option<Fingerprint>, remote: RemoteState,
                            deleteEnabled: bool, localCausal: Option<Clock>)
    requires WellFormed(local, remote) && !remote.kind.OTHER?
    ensures CarriesOut(PlanPath(baseline, local, remote, deleteEnabled, localCausal),
                       ThreeWay(ContentOf(baseline), ContentOf(local), RemoteContent(remote)), ContentOf(local))
            <==> !Departs(baseline, local, remote, deleteEnabled, localCausal)
  {
    ClocksAreOrderedOnce(if local.Some? then local.value.causal else localCausal, remote.causal);
  }

  lemma ClocksAreOrderedOnce(v: Option<Clock>, u: Option<Clock>)
    ensures !(v.Some? && Dominates(v.value, u) && u.Some? && Dominates(u.value, v))
  {
    if v.Some? && u.Some? {
      DominanceIsStrictOrder(v.value, u.value, v.value);
    }
  }

  /** Both sides changed and the NAS has a file: the version that dominates the other wins,
      and only where neither does, the later whole second, with a tie for the NAS. */
  lemma LaterVersionWins(baseline: Option<Fingerprint>, local: Fingerprint, remote: RemoteState,
                         deleteEnabled: bool, localCausal: Option<Clock>)
    requires WellFormed(Some(local), remote) && remote.kind.FILE?
    requires ThreeWay(ContentOf(baseline), Some(local.digest), Some(remote.digest)) == Both
    ensures var a := PlanPath(baseline, Some(local), remote, deleteEnabled, localCausal);
            && (local.causal.Some? && Dominates(local.causal.value, remote.causal) ==> a.CONFLICT_LOCAL_WINS?)
            && (remote.causal.Some? && Dominates(remote.causal.value, local.causal) ==> a.CONFLICT_REMOTE_WINS?)
            && (!(local.causal.Some? && Dominates(local.causal.value, remote.causal))
                && !(remote.causal.Some? && Dominates(remote.causal.value, local.causal)) ==>
                  a == if local.mtimeNs / 1_000_000_000 > remote.mtimeNs / 1_000_000_000 then CONFLICT_LOCAL_WINS else CONFLICT_REMOTE_WINS)
  {
    ClocksAreOrderedOnce(local.causal, remote.causal);
  }

  /** The planner read backwards: when each action is planned, in terms of the three
      contents, the delete switch and which clock dominates. */
  lemma ActionsExactly(baseline: Option<Fingerprint>, local: Option<Fingerprint>, remote: RemoteState,
                       deleteEnabled: bool, localCausal: Option<Clock>)
    requires WellFormed(local, remote)
    ensures var a := PlanPath(baseline, local, remote, deleteEnabled, localCausal);
            var b := if baseline.Some? && baseline.value.digest != "" then Some(baseline.value.digest) else None;
            var l := if local.Some? then Some(local.value.digest) else None;
            var r := if remote.kind.FILE? then Some(remote.digest) else None;
            var version := if local.Some? then local.value.causal else localCausal;
            var ahead := version.Some? && Dominates(version.value, remote.causal);
            var behind := remote.causal.Some? && Dominates(remote.causal.value, version);
            var later := local.Some? && local.value.mtimeNs / 1_000_000_000 > remote.mtimeNs / 1_000_000_000;
            && (a.BLOCK? <==> remote.kind.OTHER? && (l.Some? || b.Some?))
            && (a.NOTHING? <==> remote.kind.OTHER? && l.None? && b.None?)
            && (a.ADOPT? <==> !remote.kind.OTHER? && l == r && (baseline.Some? || l.Some? || remote.kind.TOMBSTONE?))
            && (a.DELETE_REMOTE? <==> l.None? && b.Some? && r.Some? && deleteEnabled && (ahead || (!behind && r == b)))
            && (a.UPLOAD? <==> (
                  && !remote.kind.OTHER? && l.Some? && l != r && l != b
                  && (|| (r.Some? && r == b)
                      || (r.None? && b.Some? && ahead)
                      || (r.None? && b.None? && (remote.kind.ABSENT? || (baseline.Some? && !behind))))))
            && (a.CONFLICT_LOCAL_WINS? <==> l.Some? && r.Some? && l != r && l != b && r != b && (ahead || (!behind && later)))
            && (a.CONFLICT_REMOTE_WINS? <==> (
                  && !remote.kind.OTHER? && l.Some? && l != r && l != b
                  && (|| (r.Some? && r != b && !ahead && (behind || !later))
                      || (r.None? && b.Some? && !ahead)
                      || (remote.kind.TOMBSTONE? && b.None? && (baseline.None? || behind)))))
  {
    ClocksAreOrderedOnce(if local.Some? then local.value.causal else localCausal, remote.causal);
  }

  /** What each action may retire. UPLOAD and DELETE_REMOTE replace NAS content only
      if it is the common base, or (deletion) older than the local one by its clock;
      the conflict actions always have two different versions, ADOPT never has. */
  lemma PlanRetiresOnlyKnownContent(baseline: Option<Fingerprint>, local: Option<Fingerprint>, remote: RemoteState,
                                    deleteEnabled: bool, localCausal: Option<Clock>)
    requires WellFormed(local, remote)
    ensures var a := PlanPath(baseline, local, remote, deleteEnabled, localCausal);
            var (b, l, r) := (ContentOf(baseline), ContentOf(local), RemoteContent(remote));
            && (a.UPLOAD? ==> l.Some? && l != r && (r.None? || (r == b && l != b)))
            && (a.DELETE_REMOTE? ==> l.None? && r.Some? && b.Some? && deleteEnabled &&
                                     (r == b || CausalWinner(None, remote, localCausal) == Some(LocalVersion)))
            && (a.ADOPT? ==> l == r && !remote.kind.OTHER?)
            && (a.CONFLICT_LOCAL_WINS? ==> l.Some? && r.Some? && l != r)
            && (a.CONFLICT_REMOTE_WINS? ==> l.Some? && l != r && !remote.kind.OTHER? && (b.Some? ==> l != b))
            && (a.REMOTE_WINS? ==> l.None? || l == b)
            && (a.NOTHING? ==> l.None? && b.None?)
            && (a.BLOCK? <==> remote.kind.OTHER? && (l.Some? || b.Some?))
  {
  }

  /** A clean path: the client holds exactly its base. */
  predicate Clean(baseline: Option<Fingerprint>, local: Option<Fingerprint>) {
    ContentOf(local) == ContentOf(baseline)
  }

  /** Planning a clean path never asks for a change on the NAS. */
  lemma CleanPathIsInert(baseline: Option<Fingerprint>, local: Option<Fingerprint>, remote: RemoteState,
                         deleteEnabled: bool, localCausal: Option<Clock>)
    requires WellFormed(local, remote) && Clean(baseline, local)
    ensures PlanPath(baseline, local, remote, deleteEnabled, localCausal) in {ADOPT, REMOTE_WINS, NOTHING, BLOCK}
  {
  }

  /** Once both sides hold the same content every later plan is ADOPT, whatever the
      clocks, the timestamps and the base say (for an absent path: once it is known). */
  lemma AgreementIsAdopted(baseline: Option<Fingerprint>, local: Option<Fingerprint>, remote: RemoteState,
                           deleteEnabled: bool, localCausal: Option<Clock>)
    requires WellFormed(local, remote) && !remote.kind.OTHER?
    ensures PlanPath(baseline, local, remote, deleteEnabled, localCausal).ADOPT?
            <==> ContentOf(local) == RemoteContent(remote) && !(baseline.None? && local.None? && remote.kind.ABSENT?)
  {
  }

  /** On two changed versions that clocks do not order, equal seconds go to the NAS. */
  lemma ConcurrentTieGoesToNas(baseline: Option<Fingerprint>, local: Fingerprint, remote: RemoteState,
                               deleteEnabled: bool, localCausal: Option<Clock>)
    requires WellFormed(Some(local), remote) && remote.kind.FILE?
    requires ThreeWay(ContentOf(baseline), Some(local.digest), Some(remote.digest)) == Both
    requires CausalWinner(Some(local), remote, localCausal) == None
    ensures PlanPath(baseline, Some(local), remote, deleteEnabled, localCausal).CONFLICT_LOCAL_WINS?
            <==> local.mtimeNs >= (Seconds(remote.mtimeNs) + 1) * 1_000_000_000
  {
  }
}
