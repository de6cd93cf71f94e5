/** A fleet of clients around one share: once every client has pushed its changes and
    then pulled, all trees are the NAS tree. */
module Convergence {
  import opened CausalVersions
  import opened SyncState
  import opened Reconcile
  import opened Chunk
  import opened Repository
  import opened Pull

  type ClientId = string

  datatype Fleet = Fleet(clients: map<ClientId, Client>, share: Share)

  /** The last record of the file, if any, describes something else: an upload whose client
      died before the journal, or a change behind the journal. */
  predicate Unlisted(s: Share, p: Path) {
    NodeAt(s, p).File? && RecordContent(RecordAt(s, p)) != Some(NodeContent(NodeAt(s, p)))
  }

  predicate TracedAt(s: Share, p: Path) {
    NodeAt(s, p).File? || p in s.records
  }

  /** A fleet that can go on: no special entries, no record of a file without the file. An
      unlisted file is one that its uploader still has to push; and what a client has
      edited has left some trace on the NAS. */
  ghost predicate FleetOk(f: Fleet) {
    && ShareOk(f.share)
    && (forall p :: !NodeAt(f.share, p).Special?)
    && (forall p :: p in f.share.records && f.share.records[p].put.Some? ==> NodeAt(f.share, p).File?)
    && (forall p :: Unlisted(f.share, p) ==> exists id :: HasUploaded(f, id, p))
    && (forall id :: id in f.clients ==> ClientOk(f.clients[id]))
    && (forall id, p :: DirtyBase(f, id, p) ==> TracedAt(f.share, p))
  }

  /** The client holds the NAS content and has not recorded it. */
  predicate HasUploaded(f: Fleet, id: ClientId, p: Path) {
    id in f.clients && !CleanAt(f, id, p) && ContentOf(Lookup(f.clients[id].local, p)) == NodeContent(NodeAt(f.share, p))
  }

  predicate DirtyBase(f: Fleet, id: ClientId, p: Path) {
    id in f.clients && !CleanAt(f, id, p) && ContentOf(Lookup(f.clients[id].baseline, p)).Some?
  }

  /** Everything the client has as a base is still traced on the NAS. */
  ghost predicate TracedClient(f: Fleet, id: ClientId) {
    id in f.clients && Traced(f.clients[id], f.share)
  }

  /** A path the client has nothing to push for. */
  predicate CleanAt(f: Fleet, id: ClientId, p: Path) {
    id in f.clients && Clean(Lookup(f.clients[id].baseline, p), Lookup(f.clients[id].local, p))
  }

  /** One chunk of one client; chunks of different clients may alternate. */
  datatype Push = Push(id: ClientId, naming: Naming, settings: Settings, paths: set<Path>)

  ghost predicate PushStep(f: Fleet, push: Push, f': Fleet) {
    && push.id in f.clients
    && f'.clients.Keys == f.clients.Keys
    && (forall id :: id in f.clients && id != push.id ==> f'.clients[id] == f.clients[id])
    && SafeNames(f.share, push.paths, Copies(f.clients[push.id], f.share, push.naming, push.settings, push.paths))
    && Finished(f.clients[push.id], f.share, push.naming, push.settings, push.paths, f'.clients[push.id], f'.share)
  }

  datatype Pulling = Pulling(id: ClientId, fullRequired: bool, stampNs: int)

  ghost predicate PullStep(f: Fleet, pull: Pulling, f': Fleet) {
    && pull.id in f.clients
    && f'.clients.Keys == f.clients.Keys
    && (forall o :: o in f.clients && o != pull.id ==> f'.clients[o] == f.clients[o])
    && (var c := f.clients[pull.id];
        PullEffect(c, f.share, Targeted(c, f.share, pull.fullRequired), true, pull.stampNs, f'.clients[pull.id], f'.share))
  }

  /* ---- pushes ---- */

  /** No chunk of such a fleet is obstructed. */
  lemma TracedIsPushable(f: Fleet, push: Push)
    requires FleetOk(f) && push.id in f.clients
    ensures Pushable(f.clients[push.id], f.share, push.settings, push.paths)
  {
    var c := f.clients[push.id];
    forall p | p in push.paths ensures ViewOk(At(c, f.share, p)) && !Obstructed(At(c, f.share, p), push.settings) {
      ObstructedExactly(At(c, f.share, p), push.settings);
      assert DirtyBase(f, push.id, p) ==> TracedAt(f.share, p);
    }
  }

  predicate UnlistedView(v: PathView) {
    v.node.File? && RecordContent(v.record) != Some(NodeContent(v.node))
  }

  /** A finished path has its file listed, unless the chunk did not write it and the client
      does not hold it; and no trace of the path is lost. */
  lemma FinishedPathIsListed(v: PathView, settings: Settings)
    requires ViewOk(v) && !Obstructed(v, settings) && !v.node.Special?
    requires v.record.Some? && v.record.value.put.Some? ==> v.node.File?
    ensures var w := Through(v, PlanFor(v, settings), COMMITTED);
            && !w.node.Special?
            && (w.node.File? ==> w.node.meta.digest != "")
            && (w.record.Some? && w.record.value.put.Some? ==> w.node.File?)
            && (UnlistedView(w) ==> w.node == v.node && w.record == v.record && ContentOf(v.local) != NodeContent(v.node))
            && (v.node.File? || v.record.Some? ==> w.node.File? || w.record.Some?)
            && ((BaseContent(v).Some? ==> v.node.File? || v.record.Some?) ==> (BaseContent(w).Some? ==> w.node.File? || w.record.Some?))
  {
  }

  lemma PushedPath(f: Fleet, push: Push, f': Fleet, p: Path)
    requires FleetOk(f) && PushStep(f, push, f') && p in push.paths
    ensures var c := f.clients[push.id];
            var w := At(f'.clients[push.id], f'.share, p);
            && ViewOk(w) && CleanView(w) && !w.node.Special?
            && (w.node.File? ==> w.node.meta.digest != "")
            && (w.record.Some? && w.record.value.put.Some? ==> w.node.File?)
            && (UnlistedView(w) ==>
                  w.node == NodeAt(f.share, p) && w.record == RecordAt(f.share, p) && ContentOf(Lookup(c.local, p)) != NodeContent(NodeAt(f.share, p)))
            && (TracedAt(f.share, p) ==> w.node.File? || w.record.Some?)
            && (Traced(c, f.share) ==> BaseContent(w).Some? ==> w.node.File? || w.record.Some?)
  {
    var c := f.clients[push.id];
    var v := At(c, f.share, p);
    TracedIsPushable(f, push);
    assert ToTheEnd(push.paths)[p] == COMMITTED;
    assert At(f'.clients[push.id], f'.share, p) == Through(v, PlanFor(v, push.settings), COMMITTED);
    hide Through, PlanFor, Obstructed, CleanView;
    FinishedPathIsClean(v, push.settings);
    FinishedPathIsListed(v, push.settings);
  }

  lemma OtherPath(f: Fleet, push: Push, f': Fleet, p: Path)
    requires FleetOk(f) && PushStep(f, push, f') && p !in push.paths
    ensures SameClientPath(f.clients[push.id], f'.clients[push.id], p)
    ensures var w := NodeAt(f'.share, p);
            && !w.Special?
            && (w.File? ==> w.meta.digest != "")
            && (p in f'.share.records && f'.share.records[p].put.Some? ==> w.File?)
            && (Unlisted(f'.share, p) ==> w == NodeAt(f.share, p) && RecordAt(f'.share, p) == RecordAt(f.share, p))
            && (TracedAt(f.share, p) ==> TracedAt(f'.share, p))
  {
    hide CopyAt;
    var c := f.clients[push.id];
    var copies := Copies(c, f.share, push.naming, push.settings, push.paths);
    if CopiedTo(copies, ToTheEnd(push.paths), p) {
      var o :| o in copies && copies[o].target == p;
      assert ToTheEnd(push.paths)[o] == COMMITTED;
      CopiesAreLive(c, f.share, push.naming, push.settings, push.paths, o);
    }
  }

  lemma CopiesAreLive(c: Client, s: Share, naming: Naming, settings: Settings, paths: set<Path>, p: Path)
    requires ClientOk(c) && ShareOk(s) && p in Copies(c, s, naming, settings, paths)
    ensures Copies(c, s, naming, settings, paths)[p].meta.digest != ""
  {
  }

  /** What a chunk leaves at any path, its own or not. */
  lemma AnyPath(f: Fleet, push: Push, f': Fleet, p: Path)
    requires FleetOk(f) && PushStep(f, push, f')
    ensures var c, c' := f.clients[push.id], f'.clients[push.id];
            && (if p in push.paths then Clean(Lookup(c'.baseline, p), Lookup(c'.local, p)) else SameClientPath(c, c', p))
            && (p in c'.local ==> c'.local[p].digest != "")
            && !NodeAt(f'.share, p).Special?
            && (NodeAt(f'.share, p).File? ==> NodeAt(f'.share, p).meta.digest != "")
            && (p in f'.share.records && f'.share.records[p].put.Some? ==> NodeAt(f'.share, p).File?)
            && (Unlisted(f'.share, p) ==>
                  && Unlisted(f.share, p) && NodeAt(f'.share, p) == NodeAt(f.share, p)
                  && (p in push.paths ==> !HasUploaded(f, push.id, p)))
            && (TracedAt(f.share, p) ==> TracedAt(f'.share, p))
            && (Traced(c, f.share) ==> ContentOf(Lookup(c'.baseline, p)).Some? ==> TracedAt(f'.share, p))
  {
    hide CopyAt, PlanFor, Through, Finished, SafeNames;
    var c, c' := f.clients[push.id], f'.clients[push.id];
    if p in push.paths {
      PushedPath(f, push, f', p);
      var w := At(c', f'.share, p);
      assert w.local == Lookup(c'.local, p) && w.baseline == Lookup(c'.baseline, p);
      assert w.node == NodeAt(f'.share, p) && w.record == RecordAt(f'.share, p);
    } else {
      OtherPath(f, push, f', p);
      assert Lookup(c'.local, p) == Lookup(c.local, p);
      assert ClientOk(c);
    }
  }

  /** An unlisted file still has its uploader. */
  lemma UploaderStays(f: Fleet, push: Push, f': Fleet, p: Path)
    requires FleetOk(f) && PushStep(f, push, f') && Unlisted(f'.share, p)
    ensures exists id :: HasUploaded(f', id, p)
  {
    hide PushStep, FleetOk;
    AnyPath(f, push, f', p);
    assert exists id :: HasUploaded(f, id, p) by {
      UploaderOf(f, p);
    }
    var id :| HasUploaded(f, id, p);
    OtherClientsStay(f, push, f');
    assert HasUploaded(f', id, p);
  }

  lemma UploaderOf(f: Fleet, p: Path)
    requires FleetOk(f) && Unlisted(f.share, p)
    ensures exists id :: HasUploaded(f, id, p)
  {
  }

  lemma OtherClientsStay(f: Fleet, push: Push, f': Fleet)
    requires PushStep(f, push, f')
    ensures push.id in f.clients && f'.clients.Keys == f.clients.Keys
    ensures forall id :: id in f.clients && id != push.id ==> f'.clients[id] == f.clients[id]
  {
  }

  /** A chunk leaves its paths clean and nobody else's path different, and the fleet in
      order. */
  lemma PushCleans(f: Fleet, push: Push, f': Fleet)
    requires FleetOk(f) && PushStep(f, push, f')
    ensures FleetOk(f') && f'.clients.Keys == f.clients.Keys
    ensures forall p :: p in push.paths ==> CleanAt(f', push.id, p)
    ensures forall id, p :: !(id == push.id && p in push.paths) ==> (CleanAt(f', id, p) <==> CleanAt(f, id, p))
    ensures forall id :: TracedClient(f, id) ==> TracedClient(f', id)
  {
    hide PushStep;
    OtherClientsStay(f, push, f');
    var c, c' := f.clients[push.id], f'.clients[push.id];
    forall p
      ensures p in push.paths ==> Clean(Lookup(c'.baseline, p), Lookup(c'.local, p))
      ensures p !in push.paths ==> SameClientPath(c, c', p)
      ensures p in c'.local ==> c'.local[p].digest != ""
      ensures !NodeAt(f'.share, p).Special?
      ensures NodeAt(f'.share, p).File? ==> NodeAt(f'.share, p).meta.digest != ""
      ensures p in f'.share.records && f'.share.records[p].put.Some? ==> NodeAt(f'.share, p).File?
      ensures TracedAt(f.share, p) ==> TracedAt(f'.share, p)
      ensures Traced(c, f.share) ==> ContentOf(Lookup(c'.baseline, p)).Some? ==> TracedAt(f'.share, p)
    {
      AnyPath(f, push, f', p);
    }
    forall p | Unlisted(f'.share, p) ensures exists id :: HasUploaded(f', id, p) {
      UploaderStays(f, push, f', p);
    }
    forall id, p | DirtyBase(f', id, p) ensures TracedAt(f'.share, p) {
      assert DirtyBase(f, id, p);
    }
  }

  /** A push by a clean client never changes NAS content. */
  lemma CleanPushKeepsNas(f: Fleet, push: Push, f': Fleet)
    requires FleetOk(f) && PushStep(f, push, f') && CleanClient(f.clients[push.id])
    ensures forall p :: NodeContent(NodeAt(f'.share, p)) == NodeContent(NodeAt(f.share, p))
  {
    var c := f.clients[push.id];
    forall p | p in push.paths
      ensures NodeAt(f'.share, p) == NodeAt(f.share, p)
      ensures CopyAt(c, f.share, push.naming, push.settings, p).None?
    {
      CleanPathKeepsNas(At(c, f.share, p), push.settings, COMMITTED);
      assert ToTheEnd(push.paths)[p] == COMMITTED;
      assert At(f'.clients[push.id], f'.share, p).node == NodeAt(f'.share, p);
    }
    assert Copies(c, f.share, push.naming, push.settings, push.paths) == map[];
    forall p | p !in push.paths ensures NodeAt(f'.share, p) == NodeAt(f.share, p) {
      assert !CopiedTo(map[], ToTheEnd(push.paths), p);
    }
  }

  /* ---- pulls ---- */

  lemma PulledPathStaysClean(c: Client, s: Share, targeted: bool, calledOff: bool, stampNs: int, p: Path)
    requires Clean(Lookup(c.baseline, p), Lookup(c.local, p)) && ClientOk(c) && ShareOk(s) && !Stale(c, s, p)
    ensures var local := PulledLocal(c, s, targeted, true, calledOff, p);
            Clean(PulledBase(c, s, targeted, true, calledOff, stampNs, p), local) && (local.Some? ==> local.value.digest != "")
  {
  }

  /** A clean client's pull keeps it clean and leaves the NAS alone, whatever is unlisted;
      it makes it a mirror where nothing is, and no base is without a trace or the round
      is a full one. */
  lemma PullSettles(f: Fleet, pull: Pulling, f': Fleet)
    requires FleetOk(f) && PullStep(f, pull, f') && CleanClient(f.clients[pull.id])
    ensures FleetOk(f') && f'.share == f.share && CleanClient(f'.clients[pull.id])
    ensures (forall p :: !Unlisted(f.share, p)) && (pull.fullRequired || TracedClient(f, pull.id)) ==> Mirrors(f'.clients[pull.id], f'.share)
  {
    hide Mirrors, PulledLocal, PulledBase, CalledOff, NeedsChecksum;
    var id := pull.id;
    var c, c' := f.clients[id], f'.clients[id];
    var targeted := Targeted(c, f.share, pull.fullRequired);
    NothingIsRepaired(c, f.share, targeted, true, pull.stampNs, c', f'.share);
    forall p
      ensures Clean(Lookup(c'.baseline, p), Lookup(c'.local, p)) && (p in c'.local ==> c'.local[p].digest != "")
    {
      assert Clean(Lookup(c.baseline, p), Lookup(c.local, p));
      NothingIsStale(f, c, p);
      PulledPathStaysClean(c, f.share, targeted, CalledOff(c, f.share, targeted, true), pull.stampNs, p);
      assert Lookup(c'.local, p) == PulledLocal(c, f.share, targeted, true, CalledOff(c, f.share, targeted, true), p);
    }
    forall p | Unlisted(f.share, p) ensures exists o :: HasUploaded(f', o, p) {
      var o :| HasUploaded(f, o, p);
      assert o != id;
      assert HasUploaded(f', o, p);
    }
    forall o, p | DirtyBase(f', o, p) ensures TracedAt(f'.share, p) {
      assert o != id && DirtyBase(f, o, p);
    }
    if (forall p :: !Unlisted(f.share, p)) && (pull.fullRequired || TracedClient(f, id)) {
      ListedIsInSync(f);
      CleanPullMirrors(c, f.share, pull.fullRequired, {}, pull.stampNs, c', f'.share);
    }
  }

  lemma NothingIsStale(f: Fleet, c: Client, p: Path)
    requires FleetOk(f)
    ensures !Stale(c, f.share, p)
  {
  }

  lemma ListedIsInSync(f: Fleet)
    requires FleetOk(f) && forall p :: !Unlisted(f.share, p)
    ensures InSync(f.share)
  {
    forall p
      ensures p in f.share.records && f.share.records[p].put.Some? ==>
                NodeContent(NodeAt(f.share, p)) == Some(f.share.records[p].put.value.digest)
      ensures NodeAt(f.share, p).File? ==> p in f.share.records && f.share.records[p].put.Some?
    {
      assert !Unlisted(f.share, p);
    }
  }

  /* ---- rounds ---- */

  ghost predicate PushRound(fleets: seq<Fleet>, pushes: seq<Push>) {
    && |fleets| == |pushes| + 1
    && forall i :: 0 <= i < |pushes| ==> PushStep(fleets[i], pushes[i], fleets[i + 1])
  }

  ghost predicate PullRound(fleets: seq<Fleet>, pulls: seq<Pulling>) {
    && |fleets| == |pulls| + 1
    && forall i :: 0 <= i < |pulls| ==> PullStep(fleets[i], pulls[i], fleets[i + 1])
  }

  ghost predicate Covered(pushes: seq<Push>, n: nat, id: ClientId, p: Path)
    requires n <= |pushes|
  {
    exists i :: 0 <= i < n && pushes[i].id == id && p in pushes[i].paths
  }

  lemma {:induction false} KeysAndOrder(fleets: seq<Fleet>, pushes: seq<Push>, n: nat)
    requires PushRound(fleets, pushes) && FleetOk(fleets[0]) && n <= |pushes|
    ensures FleetOk(fleets[n]) && fleets[n].clients.Keys == fleets[0].clients.Keys
    ensures forall id :: TracedClient(fleets[0], id) ==> TracedClient(fleets[n], id)
  {
    hide FleetOk, PushStep, TracedClient, CleanAt;
    if n > 0 {
      KeysAndOrder(fleets, pushes, n - 1);
      PushCleans(fleets[n - 1], pushes[n - 1], fleets[n]);
    }
  }

  lemma PushCleansPath(f: Fleet, push: Push, f': Fleet, id: ClientId, p: Path)
    requires FleetOk(f) && PushStep(f, push, f')
    ensures CleanAt(f, id, p) || (push.id == id && p in push.paths) ==> CleanAt(f', id, p)
  {
    PushCleans(f, push, f');
  }

  /** A path that was clean or has been in a chunk of its client is clean from then on. */
  lemma {:induction false} PushRoundCleans(fleets: seq<Fleet>, pushes: seq<Push>, n: nat, id: ClientId, p: Path)
    requires PushRound(fleets, pushes) && FleetOk(fleets[0]) && n <= |pushes| && id in fleets[0].clients
    ensures CleanAt(fleets[0], id, p) || Covered(pushes, n, id, p) ==> CleanAt(fleets[n], id, p)
  {
    hide FleetOk, PushStep, CleanAt, TracedClient;
    if n > 0 && (CleanAt(fleets[0], id, p) || Covered(pushes, n, id, p)) {
      PushRoundCleans(fleets, pushes, n - 1, id, p);
      KeysAndOrder(fleets, pushes, n - 1);
      PushCleansPath(fleets[n - 1], pushes[n - 1], fleets[n], id, p);
      if !CleanAt(fleets[0], id, p) && !Covered(pushes, n - 1, id, p) {
        assert pushes[n - 1].id == id && p in pushes[n - 1].paths;
      }
    }
  }

  ghost predicate AllClean(f: Fleet) {
    forall id :: id in f.clients ==> CleanClient(f.clients[id])
  }

  /** The client mirrors the share as it now is. */
  ghost predicate MirrorsNow(f: Fleet, id: ClientId) {
    id in f.clients && Mirrors(f.clients[id], f.share)
  }

  /** With everybody clean no file is unlisted any more. */
  lemma CleanFleetIsListed(f: Fleet)
    requires FleetOk(f) && AllClean(f)
    ensures forall p :: !Unlisted(f.share, p)
  {
    forall p ensures !Unlisted(f.share, p) {
      forall id ensures !HasUploaded(f, id, p) {
        assert id in f.clients ==> CleanClient(f.clients[id]);
        assert id in f.clients ==> Clean(Lookup(f.clients[id].baseline, p), Lookup(f.clients[id].local, p));
      }
    }
  }

  /** The pull brings its client to the NAS contents: all bases have their trace, or the
      whole tree is compared. */
  ghost predicate Reaches(f: Fleet, pull: Pulling) {
    pull.fullRequired || TracedClient(f, pull.id)
  }

  lemma MirrorIsTraced(f: Fleet, id: ClientId)
    requires MirrorsNow(f, id)
    ensures TracedClient(f, id)
  {
    var c := f.clients[id];
    forall p | ContentOf(Lookup(c.baseline, p)).Some? ensures NodeAt(f.share, p).File? {
      assert ContentOf(Lookup(c.baseline, p)) == NodeContent(NodeAt(f.share, p));
    }
  }

  lemma PullKeepsAllClean(f: Fleet, pull: Pulling, f': Fleet)
    requires FleetOk(f) && PullStep(f, pull, f') && AllClean(f)
    ensures FleetOk(f') && AllClean(f') && f'.share == f.share && f'.clients.Keys == f.clients.Keys
    ensures Reaches(f, pull) ==> MirrorsNow(f', pull.id)
    ensures forall o :: MirrorsNow(f, o) ==> MirrorsNow(f', o)
    ensures forall o :: TracedClient(f, o) ==> TracedClient(f', o)
  {
    hide FleetOk, Mirrors, PullEffect, Traced;
    CleanFleetIsListed(f);
    PullSettles(f, pull, f');
    forall o
      ensures MirrorsNow(f, o) ==> MirrorsNow(f', o)
      ensures TracedClient(f, o) ==> TracedClient(f', o)
    {
      if MirrorsNow(f, o) {
        MirrorIsTraced(f, o);
      }
      if MirrorsNow(f', o) {
        MirrorIsTraced(f', o);
      }
      if o != pull.id && o in f.clients {
        assert f'.clients[o] == f.clients[o];
      }
    }
  }

  /** How far a pull round has come: in order, on the same share, and every client in
      `done` mirrors it. */
  ghost predicate Settled(start: Fleet, f: Fleet, done: set<ClientId>) {
    && FleetOk(f) && AllClean(f)
    && f.share == start.share && f.clients.Keys == start.clients.Keys
    && (forall id :: id in done ==> MirrorsNow(f, id))
    && (forall id :: TracedClient(start, id) ==> TracedClient(f, id))
  }

  lemma PullSettlesOne(start: Fleet, f: Fleet, done: set<ClientId>, pull: Pulling, f': Fleet)
    requires Settled(start, f, done) && PullStep(f, pull, f')
    ensures Settled(start, f', if Reaches(start, pull) then done + {pull.id} else done)
  {
    hide FleetOk, AllClean, TracedClient, MirrorsNow, PullStep;
    PullKeepsAllClean(f, pull, f');
  }

  /** The clients one of the pulls has brought to the NAS contents. */
  ghost function Brought(start: Fleet, pulls: seq<Pulling>): set<ClientId> {
    if pulls == [] then {} else
      var (rest, last) := (Brought(start, pulls[..|pulls| - 1]), pulls[|pulls| - 1]);
      if Reaches(start, last) then rest + {last.id} else rest
  }

  lemma {:induction false} PullRoundSettles(fleets: seq<Fleet>, pulls: seq<Pulling>)
    requires PullRound(fleets, pulls) && FleetOk(fleets[0]) && AllClean(fleets[0])
    ensures Settled(fleets[0], fleets[|pulls|], Brought(fleets[0], pulls))
  {
    hide FleetOk, AllClean, PullStep, TracedClient, MirrorsNow;
    if pulls != [] {
      var n := |pulls| - 1;
      assert PullRound(fleets[..n + 1], pulls[..n]);
      PullRoundSettles(fleets[..n + 1], pulls[..n]);
      PullSettlesOne(fleets[0], fleets[n], Brought(fleets[0], pulls[..n]), pulls[n], fleets[n + 1]);
    }
  }

  lemma {:induction false} BroughtByPull(start: Fleet, pulls: seq<Pulling>, i: nat)
    requires i < |pulls| && Reaches(start, pulls[i])
    ensures pulls[i].id in Brought(start, pulls)
  {
    var n := |pulls| - 1;
    if i < n {
      assert pulls[..n][i] == pulls[i];
      BroughtByPull(start, pulls[..n], i);
    }
  }

  /** Every path a client has changed, a crashed upload included, is pushed in some chunk of
      that client, the chunks of all clients in any order; then every client pulls, in any
      order, at least once by a full round or with every base traced: all local trees equal
      the NAS, which no pull has changed. */
  lemma FleetConverges(pushed: seq<Fleet>, pushes: seq<Push>, pulled: seq<Fleet>, pulls: seq<Pulling>)
    requires PushRound(pushed, pushes) && FleetOk(pushed[0])
    requires PullRound(pulled, pulls) && pulled[0] == pushed[|pushes|]
    requires forall id, p :: id in pushed[0].clients && !CleanAt(pushed[0], id, p) ==> Covered(pushes, |pushes|, id, p)
    requires forall id :: id in pushed[0].clients ==> exists i :: 0 <= i < |pulls| && pulls[i].id == id && Reaches(pushed[0], pulls[i])
    ensures var final := pulled[|pulls|];
            && final.share == pulled[0].share
            && final.clients.Keys == pushed[0].clients.Keys
            && forall id :: id in final.clients ==> MirrorsNow(final, id)
  {
    hide FleetOk, PushStep, PullStep, TracedClient, MirrorsNow;
    var mid := pulled[0];
    KeysAndOrder(pushed, pushes, |pushes|);
    forall id | id in pushed[0].clients ensures id in mid.clients && CleanClient(mid.clients[id]) {
      forall p ensures Clean(Lookup(mid.clients[id].baseline, p), Lookup(mid.clients[id].local, p)) {
        PushRoundCleans(pushed, pushes, |pushes|, id, p);
        assert CleanAt(mid, id, p);
      }
    }
    assert AllClean(mid);
    PullRoundSettles(pulled, pulls);
    forall id | id in pushed[0].clients ensures id in Brought(mid, pulls) {
      var i :| 0 <= i < |pulls| && pulls[i].id == id && Reaches(pushed[0], pulls[i]);
      BroughtByPull(mid, pulls, i);
    }
  }

  /* ---- progress of a push round ---- */

  ghost function DirtyClients(f: Fleet): set<ClientId> {
    set id | id in f.clients && !CleanClient(f.clients[id])
  }

  /** No chunk makes a client dirty; a chunk that covers what its client has to push
      takes that client off the list, and only that one. */
  lemma PushReducesDirtyClients(f: Fleet, push: Push, f': Fleet)
    requires FleetOk(f) && PushStep(f, push, f')
    ensures DirtyClients(f) - {push.id} <= DirtyClients(f') <= DirtyClients(f)
    ensures push.id in DirtyClients(f) ==>
              ((forall p :: !CleanAt(f, push.id, p) ==> p in push.paths) <==> |DirtyClients(f')| == |DirtyClients(f)| - 1)
  {
    hide FleetOk, PushStep, CleanClient, CleanAt, TracedClient;
    PushCleans(f, push, f');
    OtherClientsStay(f, push, f') by {
      assert PushStep(f, push, f');
    }
    forall id | id in f.clients
      ensures id in DirtyClients(f) <==> !forall p :: CleanAt(f, id, p)
      ensures id in DirtyClients(f') <==> !forall p :: CleanAt(f', id, p)
    {
      CleanEverywhere(f, id);
      CleanEverywhere(f', id);
    }
    var (dirty, dirty') := (DirtyClients(f), DirtyClients(f'));
    assert forall id :: id in dirty' <==> id in dirty && (id != push.id || exists p :: !CleanAt(f, id, p) && p !in push.paths);
    if push.id in dirty && push.id !in dirty' {
      assert dirty' == dirty - {push.id};
    } else {
      assert dirty' == dirty;
    }
  }

  lemma CleanEverywhere(f: Fleet, id: ClientId)
    requires id in f.clients
    ensures CleanClient(f.clients[id]) <==> forall p :: CleanAt(f, id, p)
  {
    if forall p :: CleanAt(f, id, p) {
      forall p ensures Clean(Lookup(f.clients[id].baseline, p), Lookup(f.clients[id].local, p)) {
        assert CleanAt(f, id, p);
      }
    }
  }

  /** A converged fleet stays as it is: no push changes contents any more. */
  lemma ConvergedIsQuiet(f: Fleet, push: Push, f': Fleet)
    requires FleetOk(f) && PushStep(f, push, f')
    requires forall id :: id in f.clients ==> Mirrors(f.clients[id], f.share)
    ensures forall p :: NodeContent(NodeAt(f'.share, p)) == NodeContent(NodeAt(f.share, p))
    ensures forall p :: ContentOf(Lookup(f'.clients[push.id].local, p)) == NodeContent(NodeAt(f'.share, p))
  {
    var c, c' := f.clients[push.id], f'.clients[push.id];
    CleanPushKeepsNas(f, push, f');
    forall p ensures ContentOf(Lookup(c'.local, p)) == ContentOf(Lookup(c.local, p)) {
      if p in push.paths {
        CleanPathKeepsNas(At(c, f.share, p), push.settings, COMMITTED);
        assert ToTheEnd(push.paths)[p] == COMMITTED;
        assert At(c', f'.share, p).local == Lookup(c'.local, p);
      } else {
        assert SameClientPath(c, c', p);
      }
    }
  }
}
