/** Crashes: any number of attempts at one chunk, each with some renames carried out and
    every path stopped anywhere, against the chunk that ran through at once. */
module Recovery {
  import opened CausalVersions
  import opened SyncState
  import opened Reconcile
  import opened Chunk
  import opened Repository
  import opened Rename

  /* ---- renames of an attempt ---- */

  /** The two paths of a rename; a client that died before recording it keeps its bases. */
  function SourceAfter(v: PathView, stampNs: int, recorded: bool): PathView {
    var moved := MovedSource(v, stampNs);
    if recorded then moved else moved.(baseline := v.baseline)
  }

  function TargetAfter(v: PathView, from: Node, stampNs: int, recorded: bool): PathView
    requires from.File?
  {
    var placed := MovedTarget(v, from, stampNs);
    if recorded then placed else placed.(baseline := v.baseline)
  }

  /** The renames in `moves` have been carried out on the NAS, those in `unrecorded`
      without a record on the client. */
  ghost predicate MovedOnNas(c: Client, s: Share, moves: map<Path, Path>, unrecorded: set<Path>, stampNs: int, c': Client, s': Share) {
    && (forall a :: a in moves ==>
          && NodeAt(s, a).File?
          && At(c', s', a) == SourceAfter(At(c, s, a), stampNs, a !in unrecorded)
          && At(c', s', moves[a]) == TargetAfter(At(c, s, moves[a]), NodeAt(s, a), stampNs, a !in unrecorded))
    && (forall x :: x !in moves.Keys + moves.Values ==> At(c', s', x) == At(c, s, x))
  }

  /** Completed renames are the case in which nothing is unrecorded. */
  lemma CompletedRenames(c: Client, s: Share, moves: map<Path, Path>, stampNs: int, c': Client, s': Share)
    ensures Renamed(c, s, moves, stampNs, c', s') <==> MovedOnNas(c, s, moves, {}, stampNs, c', s')
  {
    hide At;
  }

  /** Planned again, the path is adopted and ends as its plan before would have. */
  predicate Replans(half: PathView, v: PathView, settings: Settings) {
    var p, p' := PlanFor(v, settings), PlanFor(half, settings);
    && ViewOk(half) && p'.action.ADOPT? && !p.action.CONFLICT_REMOTE_WINS?
    && CopyOf(v, p).None? && CopyOf(half, p').None?
    && SameContents(Through(half, p', COMMITTED), Through(v, p, COMMITTED))
  }

  lemma RenamedPairReplans(from: PathView, to: PathView, settings: Settings, recorded: bool)
    requires CanMove(from, to) && Harmless(from, to, settings) && ViewOk(from) && ViewOk(to)
    ensures Replans(SourceAfter(from, settings.stampNs, recorded), from, settings)
    ensures Replans(TargetAfter(to, from.node, settings.stampNs, recorded), to, settings)
  {
    RenameIsPlainExactly(from, to, settings);
  }

  lemma MovedPathReplans(c: Client, s: Share, moves: map<Path, Path>, unrecorded: set<Path>, settings: Settings, paths: set<Path>,
                         c1: Client, s1: Share, p: Path)
    requires AllHarmless(c, s, moves, settings, paths) && MovedOnNas(c, s, moves, unrecorded, settings.stampNs, c1, s1)
    requires p in moves.Keys + moves.Values
    ensures Replans(At(c1, s1, p), At(c, s, p), settings)
  {
    hide At, Replans, CanMove, Harmless, SourceAfter, TargetAfter, ViewOk;
    var a := if p in moves then p else var a :| a in moves && moves[a] == p; a;
    RenamedPairReplans(At(c, s, a), At(c, s, moves[a]), settings, a !in unrecorded) by {
      NodeOfView(c, s, a);
    }
    NodeOfView(c, s, a);
  }

  lemma NodeOfView(c: Client, s: Share, p: Path)
    ensures At(c, s, p).node == NodeAt(s, p)
  {
  }

  lemma MovedIsPlanned(c: Client, s: Share, moves: map<Path, Path>, settings: Settings, paths: set<Path>, p: Path)
    requires AllHarmless(c, s, moves, settings, paths) && p in moves.Keys + moves.Values
    ensures p in paths
  {
    hide At, CanMove, Harmless, ViewOk;
  }

  lemma UnmovedOnNas(c: Client, s: Share, moves: map<Path, Path>, unrecorded: set<Path>, stampNs: int, c1: Client, s1: Share, p: Path)
    requires MovedOnNas(c, s, moves, unrecorded, stampNs, c1, s1) && p !in moves.Keys + moves.Values
    ensures At(c1, s1, p) == At(c, s, p)
  {
    hide At;
  }

  lemma ViewFields(c: Client, s: Share, c1: Client, s1: Share, p: Path)
    requires At(c1, s1, p) == At(c, s, p)
    ensures NodeAt(s1, p) == NodeAt(s, p) && SameClientPath(c, c1, p)
  {
  }

  /** What the renames of an attempt leave at one of its paths. */
  lemma PathAfterRenames(c: Client, s: Share, naming: Naming, moves: map<Path, Path>, unrecorded: set<Path>, settings: Settings, paths: set<Path>,
                         c1: Client, s1: Share, p: Path)
    requires AllHarmless(c, s, moves, settings, paths) && MovedOnNas(c, s, moves, unrecorded, settings.stampNs, c1, s1)
    requires p in paths && ViewOk(At(c, s, p)) && !Obstructed(At(c, s, p), settings)
    ensures ViewOk(At(c1, s1, p)) && !Obstructed(At(c1, s1, p), settings)
    ensures SameLive(Outcome(c1, s1, settings, p), Outcome(c, s, settings, p))
    ensures SameRecord(c1, s1, settings, c, s, settings, p)
    ensures WinsUnrecorded(At(c1, s1, p), settings) <==> WinsUnrecorded(At(c, s, p), settings)
    ensures CopyAt(c1, s1, naming, settings, p) == CopyAt(c, s, naming, settings, p)
  {
    hide At, PlanFor, CopyOf, MovedOnNas, AllHarmless, ViewOk, Through;
    if p in moves.Keys + moves.Values {
      MovedPathReplans(c, s, moves, unrecorded, settings, paths, c1, s1, p);
    } else {
      UnmovedOnNas(c, s, moves, unrecorded, settings.stampNs, c1, s1, p);
    }
  }

  lemma OutsideRenames(c: Client, s: Share, moves: map<Path, Path>, unrecorded: set<Path>, settings: Settings, paths: set<Path>,
                       c1: Client, s1: Share, x: Path)
    requires AllHarmless(c, s, moves, settings, paths) && MovedOnNas(c, s, moves, unrecorded, settings.stampNs, c1, s1)
    requires x !in paths
    ensures NodeAt(s1, x) == NodeAt(s, x) && SameClientPath(c, c1, x)
  {
    hide At, MovedOnNas, AllHarmless, SameClientPath, NodeAt;
    if x in moves.Keys + moves.Values {
      MovedIsPlanned(c, s, moves, settings, paths, x);
    } else {
      UnmovedOnNas(c, s, moves, unrecorded, settings.stampNs, c1, s1, x);
      ViewFields(c, s, c1, s1, x);
    }
  }

  /** Renames, recorded or not, leave a state with the same future. */
  lemma RenamesKeepFuture(c: Client, s: Share, naming: Naming, moves: map<Path, Path>, unrecorded: set<Path>, settings: Settings, paths: set<Path>,
                          c1: Client, s1: Share)
    requires AllHarmless(c, s, moves, settings, paths) && MovedOnNas(c, s, moves, unrecorded, settings.stampNs, c1, s1)
    requires Recoverable(c, s, naming, settings, paths)
    ensures Recoverable(c1, s1, naming, settings, paths)
    ensures SameFuture(c1, s1, settings, c, s, settings, naming, paths)
    ensures forall p :: p in paths ==>
              && SameRecord(c1, s1, settings, c, s, settings, p)
              && (WinsUnrecorded(At(c1, s1, p), settings) <==> WinsUnrecorded(At(c, s, p), settings))
  {
    hide At, MovedOnNas, AllHarmless, ViewOk, Obstructed, SameLive, SameRecord, WinsUnrecorded, CopyAt, Outcome, SameClientPath;
    forall p | p in paths
      ensures ViewOk(At(c1, s1, p)) && !Obstructed(At(c1, s1, p), settings)
      ensures SameLive(Outcome(c1, s1, settings, p), Outcome(c, s, settings, p))
      ensures SameRecord(c1, s1, settings, c, s, settings, p)
      ensures WinsUnrecorded(At(c1, s1, p), settings) <==> WinsUnrecorded(At(c, s, p), settings)
      ensures CopyAt(c1, s1, naming, settings, p) == CopyAt(c, s, naming, settings, p)
    {
      PathAfterRenames(c, s, naming, moves, unrecorded, settings, paths, c1, s1, p);
    }
    forall x | x !in paths ensures NodeAt(s1, x) == NodeAt(s, x) && SameClientPath(c, c1, x) {
      OutsideRenames(c, s, moves, unrecorded, settings, paths, c1, s1, x);
    }
    var copies, copies' := Copies(c, s, naming, settings, paths), Copies(c1, s1, naming, settings, paths);
    assert copies' == copies;
    SameNames(s, s1, paths, copies);
    forall x | x !in paths ensures Expected(s1, copies, x) == Expected(s, copies, x) {
      SameExpected(s, s1, copies, x);
    }
  }

  lemma SameNames(s: Share, s': Share, paths: set<Path>, copies: map<Path, Copy>)
    requires SafeNames(s, paths, copies) && forall x :: x !in paths ==> NodeAt(s', x) == NodeAt(s, x)
    ensures SafeNames(s', paths, copies)
  {
  }

  lemma SameExpected(s: Share, s': Share, copies: map<Path, Copy>, x: Path)
    requires NodeAt(s', x) == NodeAt(s, x)
    ensures Expected(s', copies, x) == Expected(s, copies, x)
  {
    if p :| p in copies && copies[p].target == x {
      assert Expected(s, copies, x) == Expected(s', copies, x);
    }
  }

  /* ---- attempts ---- */

  /** One attempt: where it started, what it renamed, and how far every path got. */
  datatype Attempt = Attempt(client: Client, share: Share, settings: Settings, moves: map<Path, Path>, unrecorded: set<Path>,
                             middle: Client, middleShare: Share, cut: map<Path, nat>)

  /** The attempt leaves the given state. A renamed path takes no part in the phases. */
  ghost predicate LeadsTo(a: Attempt, naming: Naming, paths: set<Path>, c: Client, s: Share) {
    && AllHarmless(a.client, a.share, a.moves, a.settings, paths)
    && MovedOnNas(a.client, a.share, a.moves, a.unrecorded, a.settings.stampNs, a.middle, a.middleShare)
    && ChunkEffect(a.middle, a.middleShare, naming, a.settings, paths, a.cut, c, s)
    && forall p :: p in a.moves.Keys + a.moves.Values && p in a.cut ==> a.cut[p] == 0
  }

  /** An attempt that runs to the end. */
  predicate Completes(a: Attempt, paths: set<Path>) {
    a.unrecorded == {} && forall p :: p in paths && p !in a.moves.Keys + a.moves.Values ==> p in a.cut && a.cut[p] == COMMITTED
  }

  /** A series of attempts at one chunk, each starting where the previous one died. */
  ghost predicate Attempts(series: seq<Attempt>, naming: Naming, paths: set<Path>) {
    && series != []
    && forall i :: 0 < i < |series| ==>
         && series[i].settings.deleteEnabled == series[i - 1].settings.deleteEnabled
         && LeadsTo(series[i - 1], naming, paths, series[i].client, series[i].share)
  }

  /** One of the first `n` attempts had taken over the NAS version of the path. */
  ghost predicate TakenOver(series: seq<Attempt>, p: Path, n: nat)
    requires n <= |series|
  {
    exists i :: 0 <= i < n && p in series[i].cut && series[i].cut[p] >= SETTLED
  }

  predicate RecordStays(a: Attempt, z: Attempt, p: Path) {
    SameRecord(a.client, a.share, a.settings, z.client, z.share, z.settings, p)
  }

  predicate UnrecordedWin(a: Attempt, p: Path) {
    WinsUnrecorded(At(a.client, a.share, p), a.settings)
  }

  /** The last record of the path will describe its file. */
  predicate WillDescribe(a: Attempt, p: Path) {
    Accurate(Outcome(a.client, a.share, a.settings, p))
  }

  ghost predicate FutureStays(a: Attempt, z: Attempt, naming: Naming, paths: set<Path>) {
    SameFuture(a.client, a.share, a.settings, z.client, z.share, z.settings, naming, paths)
  }

  lemma AttemptKeepsFuture(a: Attempt, b: Attempt, naming: Naming, paths: set<Path>)
    requires Recoverable(a.client, a.share, naming, a.settings, paths) && b.settings.deleteEnabled == a.settings.deleteEnabled
    requires LeadsTo(a, naming, paths, b.client, b.share)
    ensures Recoverable(b.client, b.share, naming, b.settings, paths)
    ensures FutureStays(b, a, naming, paths)
    ensures forall p :: p in paths ==>
              && p in a.cut
              && (RecordStays(b, a, p) <==> !(UnrecordedWin(a, p) && a.cut[p] >= SETTLED))
              && (UnrecordedWin(a, p) && a.cut[p] >= SETTLED ==> WillDescribe(b, p))
              && (UnrecordedWin(b, p) <==> UnrecordedWin(a, p) && a.cut[p] < SETTLED)
  {
    hide At, MovedOnNas, AllHarmless, SameLive, WinsUnrecorded, Outcome, SameClientPath, Recoverable, SameFuture, Expected;
    var (c, s) := (a.middle, a.middleShare);
    RenamesKeepFuture(a.client, a.share, naming, a.moves, a.unrecorded, a.settings, paths, c, s);
    AttemptKeepsOutcome(c, s, naming, a.settings, b.settings, paths, a.cut, b.client, b.share);
    SameFutureIsTransitive(b.client, b.share, b.settings, c, s, a.settings, a.client, a.share, a.settings, naming, paths);
  }

  lemma SameFutureIsTransitive(c: Client, s: Share, settings: Settings, c1: Client, s1: Share, settings1: Settings,
                               c0: Client, s0: Share, settings0: Settings, naming: Naming, paths: set<Path>)
    requires SameFuture(c, s, settings, c1, s1, settings1, naming, paths)
    requires SameFuture(c1, s1, settings1, c0, s0, settings0, naming, paths)
    ensures SameFuture(c, s, settings, c0, s0, settings0, naming, paths)
  {
    hide Outcome, Expected, SameLive;
    forall p | p in paths ensures SameLive(Outcome(c, s, settings, p), Outcome(c0, s0, settings0, p)) {
      SameLiveIsTransitive(Outcome(c, s, settings, p), Outcome(c1, s1, settings1, p), Outcome(c0, s0, settings0, p));
    }
    forall x | x !in paths ensures SameClientPath(c0, c, x) {
      assert SameClientPath(c0, c1, x) && SameClientPath(c1, c, x);
    }
  }

  lemma SameLiveIsTransitive(u: PathView, v: PathView, w: PathView)
    requires SameLive(u, v) && SameLive(v, w)
    ensures SameLive(u, w)
  {
  }

  lemma {:induction false} AttemptsKeepFuture(series: seq<Attempt>, naming: Naming, paths: set<Path>, n: nat)
    requires Attempts(series, naming, paths) && n < |series|
    requires Recoverable(series[0].client, series[0].share, naming, series[0].settings, paths)
    ensures Recoverable(series[n].client, series[n].share, naming, series[n].settings, paths)
    ensures FutureStays(series[n], series[0], naming, paths)
    ensures forall p :: p in paths ==>
              && (RecordStays(series[n], series[0], p) <==> !(UnrecordedWin(series[0], p) && TakenOver(series, p, n)))
              && (UnrecordedWin(series[0], p) && TakenOver(series, p, n) ==> WillDescribe(series[n], p))
              && (UnrecordedWin(series[n], p) <==> UnrecordedWin(series[0], p) && !TakenOver(series, p, n))
  {
    hide WillDescribe, At, SameLive, WinsUnrecorded, Outcome, SameClientPath, Recoverable, SameFuture, LeadsTo, UnrecordedWin;
    if n > 0 {
      AttemptsKeepFuture(series, naming, paths, n - 1);
      var a, b, z := series[n - 1], series[n], series[0];
      AttemptKeepsFuture(a, b, naming, paths);
      SameFutureIsTransitive(b.client, b.share, b.settings, a.client, a.share, a.settings, z.client, z.share, z.settings, naming, paths);
      forall p | p in paths
        ensures TakenOver(series, p, n) <==> TakenOver(series, p, n - 1) || a.cut[p] >= SETTLED
        ensures WillDescribe(a, p) && RecordStays(b, a, p) ==> WillDescribe(b, p)
      {
        DescriptionStays(b, a, naming, paths, p);
      }
    } else {
      FutureStaysItself(series[0], naming, paths);
    }
  }

  lemma DescriptionStays(b: Attempt, a: Attempt, naming: Naming, paths: set<Path>, p: Path)
    requires FutureStays(b, a, naming, paths) && p in paths
    ensures WillDescribe(a, p) && RecordStays(b, a, p) ==> WillDescribe(b, p)
  {
    hide Outcome, Expected;
    assert SameLive(Outcome(b.client, b.share, b.settings, p), Outcome(a.client, a.share, a.settings, p));
  }

  lemma FutureStaysItself(a: Attempt, naming: Naming, paths: set<Path>)
    ensures FutureStays(a, a, naming, paths)
  {
    hide Outcome, Expected;
  }

  /** Crash a chunk anywhere, any number of times, with renames carried out and recorded or
      not, and finish it at last: the contents of every path on the NAS, on the disk and in
      the base are those of the chunk that never crashed and never renamed. The recorded
      contents are too, at exactly the paths where no attempt had taken over an unrecorded
      NAS win before it died; there the record now describes the file. */
  lemma CrashRecovery(series: seq<Attempt>, naming: Naming, paths: set<Path>,
                      redone: Client, redoneShare: Share, straight: Client, straightShare: Share)
    requires Attempts(series, naming, paths)
    requires Recoverable(series[0].client, series[0].share, naming, series[0].settings, paths)
    requires var last := series[|series| - 1]; Completes(last, paths) && LeadsTo(last, naming, paths, redone, redoneShare)
    requires Finished(series[0].client, series[0].share, naming, series[0].settings, paths, straight, straightShare)
    ensures forall p :: p in paths ==>
              var v, w := At(redone, redoneShare, p), At(straight, straightShare, p);
              && SameLive(v, w)
              && (RecordContent(v.record) == RecordContent(w.record)
                  <==> !(UnrecordedWin(series[0], p) && TakenOver(series, p, |series| - 1)))
              && (UnrecordedWin(series[0], p) && TakenOver(series, p, |series| - 1) ==> Accurate(v))
    ensures forall x :: x !in paths ==>
              SameClientPath(straight, redone, x) && NodeContent(NodeAt(redoneShare, x)) == NodeContent(NodeAt(straightShare, x))
  {
    hide Accurate, At, SameLive, WinsUnrecorded, Outcome, SameClientPath, Recoverable, SameFuture, LeadsTo, UnrecordedWin, TakenOver, Finished;
    var z, n := series[0], |series| - 1;
    AttemptsKeepFuture(series, naming, paths, n);
    forall p | p in paths
      ensures SameLive(At(redone, redoneShare, p), At(straight, straightShare, p))
      ensures RecordContent(At(redone, redoneShare, p).record) == RecordContent(At(straight, straightShare, p).record)
              <==> RecordStays(series[n], z, p)
      ensures WillDescribe(series[n], p) ==> Accurate(At(redone, redoneShare, p))
    {
      LastAttemptOnPath(series[n], naming, paths, redone, redoneShare, p);
      FinishedOnPath(z.client, z.share, naming, z.settings, paths, straight, straightShare, p);
      LiveThrough(series[n], z, naming, paths, At(redone, redoneShare, p), p);
    }
    forall x | x !in paths
      ensures SameClientPath(straight, redone, x) && NodeContent(NodeAt(redoneShare, x)) == NodeContent(NodeAt(straightShare, x))
    {
      OutsideIsTheSame(series[n], z, naming, paths, redone, redoneShare, straight, straightShare, x);
    }
  }

  lemma FinishedOnPath(c: Client, s: Share, naming: Naming, settings: Settings, paths: set<Path>, c': Client, s': Share, p: Path)
    requires Finished(c, s, naming, settings, paths, c', s') && p in paths
    ensures At(c', s', p) == Outcome(c, s, settings, p)
  {
    assert ToTheEnd(paths)[p] == COMMITTED;
  }

  /** The completed attempt gives every path the contents its plan at the start would. */
  lemma LastAttemptOnPath(a: Attempt, naming: Naming, paths: set<Path>, c: Client, s: Share, p: Path)
    requires Completes(a, paths) && LeadsTo(a, naming, paths, c, s) && p in paths
    ensures SameContents(At(c, s, p), Outcome(a.client, a.share, a.settings, p))
  {
    hide AllHarmless, MovedOnNas, PlanFor, At, CopyOf;
    assert At(c, s, p) == Through(At(a.middle, a.middleShare, p), PlanAt(a.middle, a.middleShare, a.settings, p), a.cut[p]);
    if p in a.moves.Keys + a.moves.Values {
      CompletedRenames(a.client, a.share, a.moves, a.settings.stampNs, a.middle, a.middleShare);
      RenamedPathIsPlain(a.client, a.share, a.moves, a.settings, paths, a.middle, a.middleShare, p);
      NothingDone(At(a.middle, a.middleShare, p), PlanAt(a.middle, a.middleShare, a.settings, p));
    } else {
      UnmovedOnNas(a.client, a.share, a.moves, a.unrecorded, a.settings.stampNs, a.middle, a.middleShare, p);
    }
  }

  lemma NothingDone(v: PathView, p: Planned)
    ensures Through(v, p, 0) == v
  {
  }

  lemma LiveThrough(a: Attempt, z: Attempt, naming: Naming, paths: set<Path>, v: PathView, p: Path)
    requires FutureStays(a, z, naming, paths) && p in paths && SameContents(v, Outcome(a.client, a.share, a.settings, p))
    ensures SameLive(v, Outcome(z.client, z.share, z.settings, p))
    ensures RecordContent(v.record) == RecordContent(Outcome(z.client, z.share, z.settings, p).record) <==> RecordStays(a, z, p)
    ensures WillDescribe(a, p) ==> Accurate(v)
  {
    hide Outcome;
  }

  lemma OutsideIsTheSame(a: Attempt, z: Attempt, naming: Naming, paths: set<Path>, redone: Client, redoneShare: Share,
                         straight: Client, straightShare: Share, x: Path)
    requires Recoverable(a.client, a.share, naming, a.settings, paths) && Recoverable(z.client, z.share, naming, z.settings, paths)
    requires FutureStays(a, z, naming, paths) && x !in paths
    requires Completes(a, paths) && LeadsTo(a, naming, paths, redone, redoneShare)
    requires Finished(z.client, z.share, naming, z.settings, paths, straight, straightShare)
    ensures SameClientPath(straight, redone, x) && NodeContent(NodeAt(redoneShare, x)) == NodeContent(NodeAt(straightShare, x))
  {
    hide AllHarmless, MovedOnNas, Outcome, SameLive, Expected, Copies, At;
    var (c, s) := (a.middle, a.middleShare);
    var copies := Copies(c, s, naming, a.settings, paths);
    RenamesKeepFuture(a.client, a.share, naming, a.moves, a.unrecorded, a.settings, paths, c, s);
    MovedNeedNoCopies(a, naming, paths, redone, redoneShare);
    FinishedContent(s, redoneShare, paths, copies, a.cut, a.settings.stampNs, x);
    FinishedContent(z.share, straightShare, paths, Copies(z.client, z.share, naming, z.settings, paths), ToTheEnd(paths), z.settings.stampNs, x);
    assert SameClientPath(z.client, straight, x) && SameClientPath(z.client, a.client, x)
           && SameClientPath(a.client, c, x) && SameClientPath(c, redone, x);
  }

  lemma MovedNeedNoCopies(a: Attempt, naming: Naming, paths: set<Path>, c: Client, s: Share)
    requires Completes(a, paths) && LeadsTo(a, naming, paths, c, s)
    ensures forall p :: p in Copies(a.middle, a.middleShare, naming, a.settings, paths) ==> p in a.cut && a.cut[p] >= COPIED
  {
    hide AllHarmless, MovedOnNas, ChunkEffect, PlanFor, At, CopyOf;
    forall p | p in a.moves.Keys + a.moves.Values ensures CopyAt(a.middle, a.middleShare, naming, a.settings, p).None? {
      MovedPathReplans(a.client, a.share, a.moves, a.unrecorded, a.settings, paths, a.middle, a.middleShare, p);
    }
  }
}
