/** The whole chunk: recognised moves are published as renames first, everything else goes
    through the phases, a move whose rename failed included. */
module PushRename {
  import opened CausalVersions
  import opened SyncState
  import opened Reconcile
  import opened Chunk
  import opened Repository
  import opened Rename
  import opened PushChunk
  import Recovery

  function Moved(moves: map<Path, Path>): set<Path> {
    moves.Keys + moves.Values
  }

  /** Recognised moves that were carried out. */
  ghost predicate Recognised(c: Client, s: Share, moves: map<Path, Path>, paths: set<Path>) {
    forall a :: a in moves ==> a in paths && moves[a] in paths && CanMove(At(c, s, a), At(c, s, moves[a]))
  }

  lemma MovedWithin(c: Client, s: Share, moves: map<Path, Path>, paths: set<Path>)
    requires Recognised(c, s, moves, paths)
    ensures Moved(moves) <= paths
  {
    hide At, CanMove;
  }

  lemma PathsAreRecognised(c: Client, s: Share, paths: set<Path>, plans: seq<Plan>, moves: map<Path, Path>)
    requires forall i :: 0 <= i < |plans| ==> Movable(c, s, paths, plans[i].source, plans[i].destination)
    requires forall x :: x in moves ==> (x, moves[x]) in Pairs(plans)
    ensures Recognised(c, s, moves, paths)
  {
    hide At, CanMove, Movable, Pairs;
    forall a | a in moves ensures a in paths && moves[a] in paths && CanMove(At(c, s, a), At(c, s, moves[a])) {
      RecognisedMovesCanMove(c, s, paths, plans, moves, a);
    }
  }

  /** After the renames the other paths are what they were, and so are their conflict names. */
  lemma RestIsUnchanged(c: Client, s: Share, naming: Naming, settings: Settings, paths: set<Path>, moves: map<Path, Path>, c1: Client, s1: Share)
    requires Renamed(c, s, moves, settings.stampNs, c1, s1) && Recognised(c, s, moves, paths)
    requires SafeNames(s, paths, Copies(c, s, naming, settings, paths))
    requires forall p :: p in paths ==> ViewOk(At(c, s, p))
    ensures var rest := paths - Moved(moves);
            && SafeNames(s1, rest, Copies(c1, s1, naming, settings, rest))
            && (forall p :: p in rest ==> At(c1, s1, p) == At(c, s, p) && ViewOk(At(c1, s1, p)))
  {
    hide At, CanMove, CopyAt, Renamed, ViewOk;
    var rest := paths - Moved(moves);
    MovedWithin(c, s, moves, paths);
    forall p | p in rest ensures At(c1, s1, p) == At(c, s, p) && CopyAt(c1, s1, naming, settings, p) == CopyAt(c, s, naming, settings, p) {
      UnmovedPath(c, s, moves, settings.stampNs, c1, s1, p);
      SameViewSameCopy(c, s, naming, settings, c1, s1, p);
    }
    var copies, copies' := Copies(c, s, naming, settings, paths), Copies(c1, s1, naming, settings, rest);
    assert forall p :: p in copies' ==> p in copies && copies'[p] == copies[p];
    forall x | x !in paths ensures NodeAt(s1, x) == NodeAt(s, x) {
      UnmovedPath(c, s, moves, settings.stampNs, c1, s1, x);
    }
  }

  lemma SameViewSameCopy(c: Client, s: Share, naming: Naming, settings: Settings, c1: Client, s1: Share, p: Path)
    requires At(c1, s1, p) == At(c, s, p)
    ensures CopyAt(c1, s1, naming, settings, p) == CopyAt(c, s, naming, settings, p)
  {
  }

  /** The chunk did what a chunk planned without renames would have done. */
  ghost predicate AsPlanned(c: Client, s: Share, settings: Settings, paths: set<Path>, c': Client, s': Share) {
    forall p :: p in paths ==> SameContents(At(c', s', p), Outcome(c, s, settings, p))
  }

  lemma HarmlessRunIsAsPlanned(c: Client, s: Share, naming: Naming, settings: Settings, paths: set<Path>, moves: map<Path, Path>,
                               c1: Client, s1: Share, c2: Client, s2: Share)
    requires Renamed(c, s, moves, settings.stampNs, c1, s1) && AllHarmless(c, s, moves, settings, paths)
    requires SafeNames(s, paths, Copies(c, s, naming, settings, paths))
    requires Finished(c1, s1, naming, settings, paths - Moved(moves), c2, s2)
    ensures AsPlanned(c, s, settings, paths, c2, s2)
  {
    hide At, AllHarmless, Renamed, Finished, SafeNames, CopyAt, SameContents;
    var rest := paths - Moved(moves);
    assert rest == paths - moves.Keys - moves.Values;
    CopiesAfterRenames(c, s, naming, moves, settings, paths, c1, s1);
    forall p | p in paths ensures SameContents(At(c2, s2, p), Outcome(c, s, settings, p)) {
      if p in rest {
        UnmovedPath(c, s, moves, settings.stampNs, c1, s1, p);
        Recovery.FinishedOnPath(c1, s1, naming, settings, rest, c2, s2, p);
        SameViewSameOutcome(c, s, settings, c1, s1, p);
        SameContentsItself(Outcome(c, s, settings, p));
      } else {
        NoCopyThere(s, paths, Copies(c, s, naming, settings, paths), rest, p);
        UntouchedPath(c1, s1, naming, settings, rest, c2, s2, p);
        RenamedPathIsPlain(c, s, moves, settings, paths, c1, s1, p);
      }
    }
  }

  lemma SameViewSameOutcome(c: Client, s: Share, settings: Settings, c1: Client, s1: Share, p: Path)
    requires At(c1, s1, p) == At(c, s, p)
    ensures Outcome(c1, s1, settings, p) == Outcome(c, s, settings, p)
  {
  }

  lemma SameContentsItself(v: PathView)
    ensures SameContents(v, v)
  {
  }

  lemma NoCopyThere(s: Share, paths: set<Path>, copies: map<Path, Copy>, rest: set<Path>, p: Path)
    requires SafeNames(s, paths, copies) && p in paths
    ensures !CopiedTo(copies, ToTheEnd(rest), p)
  {
  }

  class ChunkRunner {
    const naming: Naming
    var client: Client
    var share: Share
    var pending: set<Path>

    constructor (naming: Naming, client: Client, share: Share, pending: set<Path>)
      ensures this.naming == naming && this.client == client && this.share == share && this.pending == pending
    {
      this.naming, this.client, this.share, this.pending := naming, client, share, pending;
    }

    /** One chunk with its renames. `middle` is the state between the two parts, `disk` what
        the local tree shows when the queue is cleared. */
    method Run(paths: set<Path>, settings: Settings, maxDeletes: int, deletesCommitted: int)
      returns (ok: bool, deleted: set<Path>, limitHit: bool, ghost moves: map<Path, Path>, ghost middle: Client, ghost middleShare: Share,
               ghost cut: map<Path, nat>, ghost disk: map<Path, Fingerprint>)
      requires SafeNames(share, paths, Copies(client, share, naming, settings, paths))
      requires forall p :: p in paths ==> ViewOk(At(client, share, p))
      modifies this
      ensures Renamed(old(client), old(share), moves, settings.stampNs, middle, middleShare)
      ensures Recognised(old(client), old(share), moves, paths)
      ensures ChunkEffect(middle, middleShare, naming, settings, paths - Moved(moves), cut, client, share)
      ensures deletesCommitted <= maxDeletes ==> deletesCommitted + |deleted| <= maxDeletes
      ensures ok && AllHarmless(old(client), old(share), moves, settings, paths) ==>
                AsPlanned(old(client), old(share), settings, paths, client, share)
      ensures ok ==> forall p :: p in paths && p !in Moved(moves) && p != "" ==>
                (p in pending <==> p in old(pending) && StaysQueued(At(old(client), old(share), p), settings, Lookup(disk, p)))
    {
      hide SafeNames, Renamed, Recognised, ChunkEffect, AsPlanned, AllHarmless, Movable, StaysQueued, Finished, At, ViewOk, Copies, Pushable;
      ghost var (c, s) := (client, share);
      var plans := FindPlans(client, share, paths);
      PlansAreRunnable(client, share, paths, plans);
      var renamer := new RenameWorker(client, share);
      var failed;
      ghost var refused;
      failed, moves, refused := renamer.RunRenames(plans, settings.stampNs);
      middle, middleShare := renamer.client, renamer.share;
      PathsAreRecognised(c, s, paths, plans, moves);
      RestIsUnchanged(c, s, naming, settings, paths, moves, middle, middleShare);
      var rest := paths - renamer.completed;
      var worker := new PushWorker(naming, renamer.client, renamer.share, pending);
      ok, deleted, limitHit, cut, disk := worker.RunChunk(rest, settings, maxDeletes, deletesCommitted);
      client, share, pending := worker.client, worker.share, worker.pending;
      if ok && AllHarmless(c, s, moves, settings, paths) {
        HarmlessRunIsAsPlanned(c, s, naming, settings, paths, moves, middle, middleShare, client, share);
      }
    }
  }

  lemma PlansAreRunnable(c: Client, s: Share, paths: set<Path>, plans: seq<Plan>)
    requires forall i :: 0 <= i < |plans| ==>
               Movable(c, s, paths, plans[i].source, plans[i].destination) && plans[i] == Rename.PlanOf(c, s, plans[i].source, plans[i].destination)
    ensures forall i :: 0 <= i < |plans| ==> plans[i].source != plans[i].destination
    ensures forall i :: 0 <= i < |plans| ==> plans[i].sourceVersion == Lookup(c.deletions, plans[i].source)
  {
    forall i | 0 <= i < |plans| ensures plans[i].source != plans[i].destination {
      MovableCanMove(c, s, paths, plans[i].source, plans[i].destination);
    }
  }
}
