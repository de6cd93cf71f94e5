/** The NAS -> local direction: which paths a pull fetches, what it leaves alone, and
    what it records. The manifest handed in is the exported record of every path. */
module Pull {
  import opened CausalVersions
  import opened SyncState
  import opened Reconcile
  import opened Chunk
  import opened Repository

  /* ---- the manifest ---- */

  /** A file entry the client has no matching base for. */
  predicate NeedsChecksum(c: Client, s: Share, p: Path) {
    && p in s.records
    && s.records[p].put.Some?
    && (p !in c.baseline || c.baseline[p].IsTombstone() || c.baseline[p].digest != s.records[p].put.value.digest)
  }

  /** A recorded deletion the client has not seen. */
  predicate DeletionDue(c: Client, s: Share, p: Path) {
    && p in s.records
    && s.records[p].put.None?
    && p in c.baseline
    && !c.baseline[p].IsTombstone()
  }

  /** A file entry without a file: its record is repaired. */
  predicate Stale(c: Client, s: Share, p: Path) {
    NeedsChecksum(c, s, p) && NodeAt(s, p).Missing?
  }

  predicate Fetchable(c: Client, s: Share, p: Path) {
    NeedsChecksum(c, s, p) && NodeAt(s, p).File?
  }

  /* ---- transfers ---- */

  function Fetched(m: FileMeta): Fingerprint {
    Fingerprint(m.digest, m.size, m.mtimeNs, None)
  }

  /** The whole-tree transfer of one path: files that look the same, or are newer
      locally, are skipped; files gone from the NAS are removed when allowed. */
  function SweepPath(local: Option<Fingerprint>, node: Node, deleteEnabled: bool): Option<Fingerprint> {
    match node
    case File(m) =>
      if local.None? then Some(Fetched(m))
      else if local.value.size == m.size && Seconds(local.value.mtimeNs) == Seconds(m.mtimeNs) then local
      else if Seconds(local.value.mtimeNs) > Seconds(m.mtimeNs) then local
      else Some(Fetched(m))
    case Missing => if deleteEnabled then None else local
    case Special => local
  }

  /** The local tree after the first transfer; a targeted round has none. */
  function SweptLocal(c: Client, s: Share, targeted: bool, deleteEnabled: bool, p: Path): Option<Fingerprint> {
    if targeted then Lookup(c.local, p) else SweepPath(Lookup(c.local, p), NodeAt(s, p), deleteEnabled)
  }

  /** A local edit of a known file that a fetch would replace. */
  predicate Edited(c: Client, s: Share, local: Option<Fingerprint>, p: Path)
    requires Fetchable(c, s, p)
  {
    local.Some? && p in c.baseline && !c.baseline[p].IsTombstone()
    && local.value.digest != c.baseline[p].digest && local.value.digest != s.records[p].put.value.digest
  }

  predicate InTheWay(c: Client, s: Share, targeted: bool, deleteEnabled: bool, p: Path) {
    Fetchable(c, s, p) && Edited(c, s, SweptLocal(c, s, targeted, deleteEnabled, p), p)
  }

  /** One edit in the way calls off all fetches; the first transfer has happened by then. */
  ghost predicate CalledOff(c: Client, s: Share, targeted: bool, deleteEnabled: bool) {
    exists p :: InTheWay(c, s, targeted, deleteEnabled, p)
  }

  /** The local tree after the round. */
  function PulledLocal(c: Client, s: Share, targeted: bool, deleteEnabled: bool, calledOff: bool, p: Path): Option<Fingerprint> {
    if Fetchable(c, s, p) && !calledOff then Some(Fetched(NodeAt(s, p).meta)) else SweptLocal(c, s, targeted, deleteEnabled, p)
  }

  /** A stale entry is recorded as a deletion unless the local file is a change of its own. */
  function RepairedBase(c: Client, s: Share, p: Path): Option<Fingerprint> {
    if Stale(c, s, p) && (p !in c.local || (p in c.baseline && !c.baseline[p].IsTombstone() && c.local[p].digest == c.baseline[p].digest))
    then Some(RecordedEntry(None, s.records[p].causal))
    else Lookup(c.baseline, p)
  }

  function RepairedRecord(c: Client, s: Share, stampNs: int, p: Path): Option<Record> {
    if Stale(c, s, p) then Some(Record(None, stampNs, None)) else RecordAt(s, p)
  }

  predicate Touched(c: Client, s: Share, targeted: bool, deleteEnabled: bool, calledOff: bool, p: Path) {
    (Fetchable(c, s, p) && !calledOff) || SweptLocal(c, s, targeted, deleteEnabled, p) != Lookup(c.local, p)
  }

  /** What a path that a transfer touched is recorded as, from the live NAS state. */
  function Arrived(node: Node, record: Option<Record>, local: Option<Fingerprint>): Fingerprint {
    match node
    case File(m) =>
      RecordedEntry(if local.Some? && local.value.digest == m.digest then local else Some(FromNas(node, record)), Live(node, record).causal)
    case _ => RecordedEntry(None, Live(node, record).causal)
  }

  function PulledBase(c: Client, s: Share, targeted: bool, deleteEnabled: bool, calledOff: bool, stampNs: int, p: Path): Option<Fingerprint> {
    if Touched(c, s, targeted, deleteEnabled, calledOff, p) then
      Some(Arrived(NodeAt(s, p), RepairedRecord(c, s, stampNs, p), PulledLocal(c, s, targeted, deleteEnabled, calledOff, p)))
    else RepairedBase(c, s, p)
  }

  ghost predicate PullEffect(c: Client, s: Share, targeted: bool, deleteEnabled: bool, stampNs: int, c': Client, s': Share) {
    var calledOff := CalledOff(c, s, targeted, deleteEnabled);
    && s'.nodes == s.nodes
    && (forall p :: RecordAt(s', p) == RepairedRecord(c, s, stampNs, p))
    && forall p ::
      && Lookup(c'.local, p) == PulledLocal(c, s, targeted, deleteEnabled, calledOff, p)
      && Lookup(c'.baseline, p) == PulledBase(c, s, targeted, deleteEnabled, calledOff, stampNs, p)
      && Lookup(c'.deletions, p) == Lookup(c.deletions, p)
  }

  /** Only the named files are fetched unless a deletion or the clock asks for more. */
  ghost predicate Targeted(c: Client, s: Share, fullRequired: bool) {
    !fullRequired && forall p :: p in s.records ==> !DeletionDue(c, s, p)
  }

  /** A round that may delete waits for local changes to be pushed first; and it fails
      when a listed file is something else on the NAS. */
  ghost predicate RoundRuns(c: Client, s: Share, fullRequired: bool, deleteEnabled: bool, pending: set<Path>) {
    && !(deleteEnabled && !Targeted(c, s, fullRequired) && pending != {})
    && forall p :: NeedsChecksum(c, s, p) ==> !NodeAt(s, p).Special?
  }

  /** The manifest has a deletion of a file the client still has as its base. */
  ghost predicate UnseenDeletion(c: Client, s: Share) {
    exists p :: p in s.records && s.records[p].put.None? && p in c.baseline && c.baseline[p].digest != ""
  }

  /** A round runs unless it may delete, something is queued, and it is a full one or has
      an unseen deletion to carry out; or a file the manifest lists, and the base does not
      have, is no file on the NAS. */
  lemma RoundRunsExactly(c: Client, s: Share, fullRequired: bool, deleteEnabled: bool, pending: set<Path>)
    ensures RoundRuns(c, s, fullRequired, deleteEnabled, pending) <==>
              && !(deleteEnabled && pending != {} && (fullRequired || UnseenDeletion(c, s)))
              && forall p :: p in s.records && s.records[p].put.Some? && p in s.nodes
                             && !(p in c.baseline && c.baseline[p].digest != "" && c.baseline[p].digest == s.records[p].put.value.digest) ==>
                   !s.nodes[p].Special?
    ensures Targeted(c, s, fullRequired) <==> !fullRequired && !UnseenDeletion(c, s)
  {
    assert UnseenDeletion(c, s) <==> exists p :: p in s.records && DeletionDue(c, s, p);
    forall p
      ensures NeedsChecksum(c, s, p) && NodeAt(s, p).Special? <==>
                && p in s.records && s.records[p].put.Some? && p in s.nodes && s.nodes[p].Special?
                && !(p in c.baseline && c.baseline[p].digest != "" && c.baseline[p].digest == s.records[p].put.value.digest)
    {
    }
  }

  lemma NoDeletionsDue(c: Client, s: Share)
    ensures |set p | p in s.records.Keys && DeletionDue(c, s, p)| == 0 <==> forall p :: p in s.records ==> !DeletionDue(c, s, p)
  {
    var due := set p | p in s.records.Keys && DeletionDue(c, s, p);
    if p :| p in s.records && DeletionDue(c, s, p) {
      assert p in due;
    }
  }

  /* ---- the worker ---- */

  class PullWorker {
    var client: Client
    var share: Share
    var selfCancelled: bool

    constructor (client: Client, share: Share)
      ensures this.client == client && this.share == share && !selfCancelled
    {
      this.client, this.share, selfCancelled := client, share, false;
    }

    /** Compare the manifest with the base: what to fetch, and whether some deletion is due. */
    method Preflight() returns (checksum: set<Path>, deletions: nat)
      ensures checksum == set p | p in share.records.Keys && NeedsChecksum(client, share, p)
      ensures deletions == |set p | p in share.records.Keys && DeletionDue(client, share, p)|
    {
      checksum, deletions := {}, 0;
      ghost var due: set<Path> := {};
      var todo := share.records.Keys;
      while todo != {}
        invariant todo <= share.records.Keys
        invariant checksum == set p | p in share.records.Keys - todo && NeedsChecksum(client, share, p)
        invariant due == set p | p in share.records.Keys - todo && DeletionDue(client, share, p)
        invariant deletions == |due|
        decreases todo
      {
        var p :| p in todo;
        todo := todo - {p};
        if NeedsChecksum(client, share, p) {
          checksum := checksum + {p};
        }
        if DeletionDue(client, share, p) {
          deletions := deletions + 1;
          due := due + {p};
        }
      }
      assert due == set p | p in share.records.Keys && DeletionDue(client, share, p);
    }

    /** Repair the records of files that are gone from the NAS; what is left can be fetched. */
    method Repair(checksum: set<Path>, stampNs: int) returns (ok: bool, rest: set<Path>)
      requires checksum == set p | p in share.records.Keys && NeedsChecksum(client, share, p)
      modifies this`client, this`share
      ensures share.nodes == old(share).nodes
      ensures ok <==> forall p :: NeedsChecksum(old(client), old(share), p) ==> !NodeAt(old(share), p).Special?
      ensures !ok ==> client == old(client)
      ensures ok ==> (forall p :: p in rest <==> Fetchable(old(client), old(share), p))
      ensures ok ==> client.local == old(client).local && client.deletions == old(client).deletions
      ensures ok ==> forall p :: Lookup(client.baseline, p) == RepairedBase(old(client), old(share), p)
                              && RecordAt(share, p) == RepairedRecord(old(client), old(share), stampNs, p)
    {
      ghost var (c, s) := (client, share);
      var todo := checksum;
      var baseline := client.baseline;
      rest := checksum;
      while todo != {}
        invariant todo <= checksum && client == c && share.nodes == s.nodes
        invariant forall p :: p in checksum && p !in todo ==> !NodeAt(s, p).Special?
        invariant forall p :: p in rest <==> p in checksum && (p in todo || NodeAt(s, p).File?)
        invariant forall p :: Lookup(baseline, p) == (if p in todo then Lookup(c.baseline, p) else RepairedBase(c, s, p))
        invariant forall p :: RecordAt(share, p) == if p in todo then RecordAt(s, p) else RepairedRecord(c, s, stampNs, p)
        decreases todo
      {
        var p :| p in todo;
        todo := todo - {p};
        if NodeAt(share, p).Special? {
          return false, {};
        } else if NodeAt(share, p).Missing? {
          var expected := share.records[p].causal;
          share := share.(records := share.records[p := Record(None, stampNs, None)]);
          if p !in client.local || (p in client.baseline && !client.baseline[p].IsTombstone() && client.local[p].digest == client.baseline[p].digest) {
            baseline := baseline[p := RecordedEntry(None, expected)];
          }
          rest := rest - {p};
        }
      }
      client := client.(baseline := baseline);
      ok := true;
    }

    /** The whole-tree transfer. */
    method SweepTree(deleteEnabled: bool)
      modifies this`client
      ensures client.baseline == old(client).baseline && client.deletions == old(client).deletions
      ensures forall p :: Lookup(client.local, p) == SweepPath(Lookup(old(client).local, p), NodeAt(share, p), deleteEnabled)
    {
      var start := client;
      var todo := share.nodes.Keys + start.local.Keys;
      while todo != {}
        invariant client.baseline == start.baseline && client.deletions == start.deletions
        invariant forall p :: Lookup(client.local, p) ==
                              if p in todo then Lookup(start.local, p) else SweepPath(Lookup(start.local, p), NodeAt(share, p), deleteEnabled)
        decreases todo
      {
        var p :| p in todo;
        todo := todo - {p};
        client := client.(local := Put(client.local, p, SweepPath(Lookup(start.local, p), NodeAt(share, p), deleteEnabled)));
      }
    }

    /** Fetch the named files over whatever is there. */
    method Fetch(paths: set<Path>)
      requires forall p :: p in paths ==> NodeAt(share, p).File?
      modifies this`client
      ensures client.baseline == old(client).baseline && client.deletions == old(client).deletions
      ensures forall p :: Lookup(client.local, p) == if p in paths then Some(Fetched(NodeAt(share, p).meta)) else Lookup(old(client).local, p)
    {
      var todo := paths;
      while todo != {}
        invariant todo <= paths && client.baseline == old(client).baseline && client.deletions == old(client).deletions
        invariant forall p :: Lookup(client.local, p) ==
                              if p in paths && p !in todo then Some(Fetched(NodeAt(share, p).meta)) else Lookup(old(client).local, p)
        decreases todo
      {
        var p :| p in todo;
        todo := todo - {p};
        client := client.(local := client.local[p := Fetched(NodeAt(share, p).meta)]);
      }
    }

    /** Record the live NAS state of every path a transfer touched. */
    method RecordArrivals(touched: set<Path>)
      modifies this`client
      ensures client.local == old(client).local && client.deletions == old(client).deletions
      ensures forall p :: Lookup(client.baseline, p) ==
                if p in touched then Some(Arrived(NodeAt(share, p), RecordAt(share, p), Lookup(client.local, p))) else Lookup(old(client).baseline, p)
    {
      var todo := touched;
      while todo != {}
        invariant todo <= touched && client.local == old(client).local && client.deletions == old(client).deletions
        invariant forall p :: Lookup(client.baseline, p) ==
                    if p in touched && p !in todo then Some(Arrived(NodeAt(share, p), RecordAt(share, p), Lookup(client.local, p)))
                    else Lookup(old(client).baseline, p)
        decreases todo
      {
        var p :| p in todo;
        todo := todo - {p};
        client := client.(baseline := client.baseline[p := Arrived(NodeAt(share, p), RecordAt(share, p), Lookup(client.local, p))]);
      }
    }

    /** Look for a local edit of a known file among what is to be fetched. */
    method FindEdit(ghost c: Client, ghost s: Share, rest: set<Path>, bases: map<Path, Fingerprint>, entries: map<Path, Record>)
      returns (found: bool)
      requires c.baseline == bases && s.records == entries && forall p :: p in rest ==> Fetchable(c, s, p)
      ensures found <==> exists p :: p in rest && Fetchable(c, s, p) && Edited(c, s, Lookup(client.local, p), p)
    {
      found := false;
      var todo := rest;
      while todo != {}
        invariant todo <= rest
        invariant found <==> exists p :: p in rest && p !in todo && Fetchable(c, s, p) && Edited(c, s, Lookup(client.local, p), p)
        decreases todo
      {
        var p :| p in todo;
        todo := todo - {p};
        assert Fetchable(c, s, p);
        var inTheWay := p in client.local && p in bases && !bases[p].IsTombstone()
                        && client.local[p].digest != bases[p].digest && client.local[p].digest != entries[p].put.value.digest;
        assert inTheWay <==> Edited(c, s, Lookup(client.local, p), p);
        found := found || inTheWay;
      }
    }

    /** The transfers and the record, after the repair. */
    method Transfer(ghost c: Client, ghost s: Share, rest: set<Path>, targeted: bool, deleteEnabled: bool, ghost stampNs: int,
                    tree: map<Path, Fingerprint>, bases: map<Path, Fingerprint>, entries: map<Path, Record>)
      requires c.local == tree && c.baseline == bases && s.records == entries
      requires client.local == c.local && client.deletions == c.deletions && share.nodes == s.nodes
      requires forall p :: p in rest <==> Fetchable(c, s, p)
      requires forall p :: Lookup(client.baseline, p) == RepairedBase(c, s, p) && RecordAt(share, p) == RepairedRecord(c, s, stampNs, p)
      modifies this`client, this`selfCancelled
      ensures PullEffect(c, s, targeted, deleteEnabled, stampNs, client, share) && selfCancelled == CalledOff(c, s, targeted, deleteEnabled)
      ensures client.deletions == c.deletions
    {
      hide SweepPath, SweptLocal, RepairedBase, RepairedRecord, NeedsChecksum, Arrived, PullEffect, CalledOff, Edited;
      if !targeted {
        SweepTree(deleteEnabled);
      }
      var swept := client.local;
      assert forall p :: NodeAt(share, p) == NodeAt(s, p);
      TreeIsSwept(c, s, targeted, deleteEnabled, swept);
      selfCancelled := FindEdit(c, s, rest, bases, entries);
      WayIsBlocked(c, s, targeted, deleteEnabled, rest, swept, selfCancelled);
      var fetched := if selfCancelled then {} else rest;
      Fetch(fetched);
      var touched := fetched + set p | p in swept.Keys + tree.Keys && Lookup(swept, p) != Lookup(tree, p);
      TouchedExactly(tree, swept, fetched, touched);
      RecordArrivals(touched);
      RoundIsDone(c, s, targeted, deleteEnabled, selfCancelled, stampNs, fetched, touched, client, share);
    }

    /** `pending` is the durable queue or, when that is empty, the changed paths. */
    method Tick(fullRequired: bool, deleteEnabled: bool, pending: set<Path>, stampNs: int) returns (ran: bool)
      modifies this
      ensures ran <==> RoundRuns(old(client), old(share), fullRequired, deleteEnabled, pending)
      ensures share.nodes == old(share).nodes && client.deletions == old(client).deletions
      ensures !ran ==> client == old(client)
                       && (selfCancelled <==> deleteEnabled && pending != {} && (fullRequired || UnseenDeletion(old(client), old(share))))
      // a round that may delete and finds something queued is put off as it stands
      ensures deleteEnabled && pending != {} && (fullRequired || UnseenDeletion(old(client), old(share))) ==>
                !ran && client == old(client) && share == old(share)
      // so one that runs has nothing to delete, and removes no local file
      ensures ran && deleteEnabled && pending != {} ==>
                !fullRequired && !UnseenDeletion(old(client), old(share)) && old(client).local.Keys <= client.local.Keys
      ensures ran ==> var targeted := Targeted(old(client), old(share), fullRequired);
                      && PullEffect(old(client), old(share), targeted, deleteEnabled, stampNs, client, share)
                      && selfCancelled == CalledOff(old(client), old(share), targeted, deleteEnabled)
    {
      hide PullEffect, CalledOff, NeedsChecksum, RepairedBase, RepairedRecord, UnseenDeletion;
      ghost var (c, s) := (client, share);
      RoundRunsExactly(c, s, fullRequired, deleteEnabled, pending);
      selfCancelled := false;
      var checksum, deletions := Preflight();
      var targeted := !fullRequired && deletions == 0;
      NoDeletionsDue(client, share);
      if deleteEnabled && !targeted && pending != {} {
        selfCancelled := true;
        return false;
      }
      var tree, bases, entries := client.local, client.baseline, share.records;
      var ok, rest := Repair(checksum, stampNs);
      if !ok {
        return false;
      }
      Transfer(c, s, rest, targeted, deleteEnabled, stampNs, tree, bases, entries);
      ran := true;
      if targeted {
        TargetedRoundRemovesNothing(c, s, deleteEnabled, stampNs, client, share);
      }
    }
  }

  lemma TreeIsSwept(c: Client, s: Share, targeted: bool, deleteEnabled: bool, swept: map<Path, Fingerprint>)
    requires if targeted then swept == c.local else forall p :: Lookup(swept, p) == SweepPath(Lookup(c.local, p), NodeAt(s, p), deleteEnabled)
    ensures forall p :: Lookup(swept, p) == SweptLocal(c, s, targeted, deleteEnabled, p)
  {
    hide SweepPath;
  }

  lemma TouchedExactly(tree: map<Path, Fingerprint>, swept: map<Path, Fingerprint>, fetched: set<Path>, touched: set<Path>)
    requires touched == fetched + set p | p in swept.Keys + tree.Keys && Lookup(swept, p) != Lookup(tree, p)
    ensures forall p :: p in touched <==> p in fetched || Lookup(swept, p) != Lookup(tree, p)
  {
  }

  lemma TargetedRoundRemovesNothing(c: Client, s: Share, deleteEnabled: bool, stampNs: int, c': Client, s': Share)
    requires PullEffect(c, s, true, deleteEnabled, stampNs, c', s')
    ensures c.local.Keys <= c'.local.Keys
  {
    hide PulledBase, CalledOff;
    forall p | p in c.local ensures p in c'.local {
      assert Lookup(c'.local, p) == PulledLocal(c, s, true, deleteEnabled, CalledOff(c, s, true, deleteEnabled), p);
    }
  }

  lemma WayIsBlocked(c: Client, s: Share, targeted: bool, deleteEnabled: bool, rest: set<Path>, swept: map<Path, Fingerprint>, found: bool)
    requires forall p :: p in rest <==> Fetchable(c, s, p)
    requires forall p :: Lookup(swept, p) == SweptLocal(c, s, targeted, deleteEnabled, p)
    requires found <==> exists p :: p in rest && Fetchable(c, s, p) && Edited(c, s, Lookup(swept, p), p)
    ensures found <==> CalledOff(c, s, targeted, deleteEnabled)
  {
    hide SweptLocal, NeedsChecksum;
    if CalledOff(c, s, targeted, deleteEnabled) {
      var p :| InTheWay(c, s, targeted, deleteEnabled, p);
      assert p in rest && Edited(c, s, Lookup(swept, p), p);
    }
    if found {
      var p :| p in rest && Fetchable(c, s, p) && Edited(c, s, Lookup(swept, p), p);
      assert InTheWay(c, s, targeted, deleteEnabled, p);
    }
  }

  lemma RoundIsDone(c: Client, s: Share, targeted: bool, deleteEnabled: bool, calledOff: bool, stampNs: int, fetched: set<Path>, touched: set<Path>,
                    c': Client, s': Share)
    requires calledOff <==> CalledOff(c, s, targeted, deleteEnabled)
    requires forall p :: p in fetched <==> Fetchable(c, s, p) && !calledOff
    requires s'.nodes == s.nodes && forall p :: RecordAt(s', p) == RepairedRecord(c, s, stampNs, p)
    requires forall p :: Lookup(c'.local, p) == if Fetchable(c, s, p) && p in fetched then Some(Fetched(NodeAt(s, p).meta))
                                                else SweptLocal(c, s, targeted, deleteEnabled, p)
    requires forall p :: p in touched <==> p in fetched || SweptLocal(c, s, targeted, deleteEnabled, p) != Lookup(c.local, p)
    requires forall p :: Lookup(c'.baseline, p) ==
               if p in touched then Some(Arrived(NodeAt(s', p), RecordAt(s', p), Lookup(c'.local, p))) else RepairedBase(c, s, p)
    requires c'.deletions == c.deletions
    ensures PullEffect(c, s, targeted, deleteEnabled, stampNs, c', s')
  {
    hide Arrived, RepairedBase, RepairedRecord, SweptLocal, NeedsChecksum, CalledOff;
    forall p
      ensures Lookup(c'.local, p) == PulledLocal(c, s, targeted, deleteEnabled, calledOff, p)
      ensures Lookup(c'.baseline, p) == PulledBase(c, s, targeted, deleteEnabled, calledOff, stampNs, p)
    {
      assert NodeAt(s', p) == NodeAt(s, p);
    }
  }

  function Put<T>(m: map<Path, T>, p: Path, v: Option<T>): (r: map<Path, T>)
    ensures forall x :: Lookup(r, x) == if x == p then v else Lookup(m, x)
  {
    match v
    case Some(t) => m[p := t]
    case None => m - {p}
  }

  /* ---- what a pull guarantees ---- */

  /** Files and records of the share agree: what no one touched behind the journal. */
  ghost predicate InSync(s: Share) {
    && (forall p :: p in s.records && s.records[p].put.Some? ==> NodeContent(NodeAt(s, p)) == Some(s.records[p].put.value.digest))
    && (forall p :: NodeAt(s, p).File? ==> p in s.records && s.records[p].put.Some?)
  }

  ghost predicate CleanClient(c: Client) {
    forall p :: Clean(Lookup(c.baseline, p), Lookup(c.local, p))
  }

  ghost predicate ClientOk(c: Client) {
    forall p :: p in c.local ==> c.local[p].digest != ""
  }

  ghost predicate ShareOk(s: Share) {
    forall p :: NodeAt(s, p).File? ==> NodeAt(s, p).meta.digest != ""
  }

  /** Everything the client has as a base is still traced on the NAS. */
  ghost predicate Traced(c: Client, s: Share) {
    forall p :: ContentOf(Lookup(c.baseline, p)).Some? ==> NodeAt(s, p).File? || p in s.records
  }

  ghost predicate Mirrors(c: Client, s: Share) {
    forall p ::
      && ContentOf(Lookup(c.local, p)) == NodeContent(NodeAt(s, p))
      && ContentOf(Lookup(c.baseline, p)) == NodeContent(NodeAt(s, p))
  }

  lemma NobodyInTheWay(c: Client, s: Share, targeted: bool, deleteEnabled: bool)
    requires CleanClient(c) && InSync(s)
    ensures !CalledOff(c, s, targeted, deleteEnabled)
  {
    forall p ensures !InTheWay(c, s, targeted, deleteEnabled, p) {
      assert Clean(Lookup(c.baseline, p), Lookup(c.local, p));
      if Fetchable(c, s, p) {
        assert NodeContent(NodeAt(s, p)) == Some(s.records[p].put.value.digest);
      }
    }
  }

  /** Which paths of a clean client a round with deletions brings to the NAS content: those
      that have it; files it fetches by name; in a full round also missing files, files that
      look older, and files to remove. */
  predicate Reached(c: Client, s: Share, targeted: bool, calledOff: bool, p: Path) {
    || ContentOf(Lookup(c.baseline, p)) == NodeContent(NodeAt(s, p))
    || (match NodeAt(s, p)
        case File(m) =>
          || (NeedsChecksum(c, s, p) && !calledOff)
          || (!targeted && (p !in c.local || LooksOlder(c.local[p], m)))
        case Missing => !targeted
        case Special => false)
  }

  /** Whatever state manifest, files and bases are in. */
  lemma CleanPullReachesExactly(c: Client, s: Share, targeted: bool, calledOff: bool, stampNs: int, p: Path)
    requires Clean(Lookup(c.baseline, p), Lookup(c.local, p)) && ClientOk(c) && ShareOk(s)
    ensures Reached(c, s, targeted, calledOff, p) <==>
              && ContentOf(PulledLocal(c, s, targeted, true, calledOff, p)) == NodeContent(NodeAt(s, p))
              && ContentOf(PulledBase(c, s, targeted, true, calledOff, stampNs, p)) == NodeContent(NodeAt(s, p))
  {
  }

  /** A round on a clean client makes it a mirror exactly when it reaches every path. */
  lemma CleanPullMirrorsExactly(c: Client, s: Share, targeted: bool, stampNs: int, c': Client, s': Share)
    requires CleanClient(c) && ClientOk(c) && ShareOk(s) && PullEffect(c, s, targeted, true, stampNs, c', s')
    ensures Mirrors(c', s) <==> forall p :: Reached(c, s, targeted, CalledOff(c, s, targeted, true), p)
  {
    hide CalledOff, PulledLocal, PulledBase, Reached;
    var calledOff := CalledOff(c, s, targeted, true);
    forall p
      ensures Reached(c, s, targeted, calledOff, p) <==>
                ContentOf(Lookup(c'.local, p)) == NodeContent(NodeAt(s, p)) && ContentOf(Lookup(c'.baseline, p)) == NodeContent(NodeAt(s, p))
    {
      assert Clean(Lookup(c.baseline, p), Lookup(c.local, p));
      CleanPullReachesExactly(c, s, targeted, calledOff, stampNs, p);
      assert Lookup(c'.local, p) == PulledLocal(c, s, targeted, true, calledOff, p);
    }
  }

  /** Where manifest and files agree, every round on a clean client with deletions allowed
      runs and leaves exactly the NAS contents, targeted or full, and does not change the
      NAS. A base whose NAS trace is gone takes a full round. */
  lemma CleanPullMirrors(c: Client, s: Share, fullRequired: bool, pending: set<Path>, stampNs: int, c': Client, s': Share)
    requires CleanClient(c) && ClientOk(c) && ShareOk(s) && InSync(s) && (fullRequired || Traced(c, s)) && pending == {}
    requires forall p :: !NodeAt(s, p).Special?
    requires PullEffect(c, s, Targeted(c, s, fullRequired), true, stampNs, c', s')
    ensures RoundRuns(c, s, fullRequired, true, pending)
    ensures Mirrors(c', s)
    ensures s' == s
  {
    hide PullEffect, Reached, CalledOff, Mirrors;
    var targeted := Targeted(c, s, fullRequired);
    NobodyInTheWay(c, s, targeted, true);
    CleanPullMirrorsExactly(c, s, targeted, stampNs, c', s');
    forall p ensures Reached(c, s, targeted, false, p) {
      CleanPathIsReached(c, s, targeted, p);
    }
    NothingIsRepaired(c, s, targeted, true, stampNs, c', s');
  }

  /** Without stale entries a round leaves the whole share alone. */
  lemma NothingIsRepaired(c: Client, s: Share, targeted: bool, deleteEnabled: bool, stampNs: int, c': Client, s': Share)
    requires forall p :: p in s.records && s.records[p].put.Some? ==> NodeAt(s, p).File?
    requires PullEffect(c, s, targeted, deleteEnabled, stampNs, c', s')
    ensures s' == s
  {
    hide CalledOff, PulledLocal, PulledBase;
    forall p ensures Lookup(s'.records, p) == Lookup(s.records, p) {
      assert RecordAt(s', p) == RepairedRecord(c, s, stampNs, p);
    }
    SameLookups(s.records, s'.records);
  }

  lemma SameLookups<T>(a: map<Path, T>, b: map<Path, T>)
    requires forall p :: Lookup(b, p) == Lookup(a, p)
    ensures a == b
  {
    forall p ensures p in a <==> p in b {
      assert Lookup(b, p) == Lookup(a, p);
    }
    forall p | p in a ensures a[p] == b[p] {
      assert Lookup(b, p) == Lookup(a, p);
    }
  }

  lemma CleanPathIsReached(c: Client, s: Share, targeted: bool, p: Path)
    requires Clean(Lookup(c.baseline, p), Lookup(c.local, p)) && InSync(s) && !NodeAt(s, p).Special?
    requires targeted ==> Traced(c, s) && !DeletionDue(c, s, p)
    ensures Reached(c, s, targeted, false, p)
  {
    var node := NodeAt(s, p);
    if node.File? {
      assert p in s.records && s.records[p].put.value.digest == node.meta.digest;
    } else {
      assert p in s.records ==> s.records[p].put.None?;
    }
  }

  /* ---- what a pull may replace ---- */

  /** A new file or an edit: content on the disk that is not the recorded base. */
  predicate Unpushed(c: Client, p: Path) {
    p in c.local && ContentOf(Lookup(c.baseline, p)) != Some(c.local[p].digest)
  }

  /** The whole-tree transfer takes the NAS file to be the later one. */
  predicate LooksOlder(local: Fingerprint, m: FileMeta) {
    Seconds(local.mtimeNs) <= Seconds(m.mtimeNs) && !(local.size == m.size && Seconds(local.mtimeNs) == Seconds(m.mtimeNs))
  }

  /** A round in which unpushed content at the path is replaced, from what is stored: the
      whole-tree transfer removes it or takes it for the older file, before anything
      looks for edits; or the file is fetched by name, and either has no live base or the
      manifest lists its content for a NAS file that holds another. */
  predicate Overwrites(c: Client, s: Share, targeted: bool, deleteEnabled: bool, calledOff: bool, p: Path)
    requires p in c.local
  {
    match NodeAt(s, p)
    case Missing => !targeted && deleteEnabled
    case Special => false
    case File(m) =>
      && m.digest != c.local[p].digest
      && (|| (!targeted && LooksOlder(c.local[p], m))
          || (!calledOff && NeedsChecksum(c, s, p)
              && (ContentOf(Lookup(c.baseline, p)).None? || s.records[p].put.value.digest == c.local[p].digest)))
  }

  /** Exactly then; any other unpushed content survives the round. */
  lemma PullReplacesUnpushedExactly(c: Client, s: Share, targeted: bool, deleteEnabled: bool, p: Path)
    requires Unpushed(c, p) && c.local[p].digest != ""
    ensures var calledOff := CalledOff(c, s, targeted, deleteEnabled);
            ContentOf(PulledLocal(c, s, targeted, deleteEnabled, calledOff, p)) != Some(c.local[p].digest)
            <==> Overwrites(c, s, targeted, deleteEnabled, calledOff, p)
  {
    hide CalledOff;
    var calledOff := CalledOff(c, s, targeted, deleteEnabled);
    assert InTheWay(c, s, targeted, deleteEnabled, p) ==> calledOff by {
      NotInTheWay(c, s, targeted, deleteEnabled, p);
    }
    FetchedOverExactly(c, s, targeted, deleteEnabled, calledOff, p);
  }

  lemma NotInTheWay(c: Client, s: Share, targeted: bool, deleteEnabled: bool, p: Path)
    ensures InTheWay(c, s, targeted, deleteEnabled, p) ==> CalledOff(c, s, targeted, deleteEnabled)
  {
  }

  lemma FetchedOverExactly(c: Client, s: Share, targeted: bool, deleteEnabled: bool, calledOff: bool, p: Path)
    requires Unpushed(c, p) && c.local[p].digest != "" && (InTheWay(c, s, targeted, deleteEnabled, p) ==> calledOff)
    ensures ContentOf(PulledLocal(c, s, targeted, deleteEnabled, calledOff, p)) != Some(c.local[p].digest)
            <==> Overwrites(c, s, targeted, deleteEnabled, calledOff, p)
  {
  }

  const NAS_FILE := FileMeta("nas", 3, 5_000_000_000)
  const EDITING := Client(map["a" := Fingerprint("edit", 4, 1_000_000_000, None)], map["a" := Fingerprint("base", 4, 0, None)], map[])
  const EDIT_LOST := Client(map["a" := Fetched(NAS_FILE)], map["a" := Fetched(NAS_FILE)], map[])
  const CHANGED_ON_NAS := Share(map["a" := File(NAS_FILE)], map["a" := Record(Some(NAS_FILE), 0, None)])

  lemma FullPullOnPath(p: Path)
    ensures NeedsChecksum(EDITING, CHANGED_ON_NAS, p) ==> NodeAt(CHANGED_ON_NAS, p).File?
    ensures !InTheWay(EDITING, CHANGED_ON_NAS, false, false, p)
    ensures RecordAt(CHANGED_ON_NAS, p) == RepairedRecord(EDITING, CHANGED_ON_NAS, 0, p)
    ensures Lookup(EDIT_LOST.local, p) == PulledLocal(EDITING, CHANGED_ON_NAS, false, false, false, p)
    ensures Lookup(EDIT_LOST.baseline, p) == PulledBase(EDITING, CHANGED_ON_NAS, false, false, false, 0, p)
  {
    assert p != "a" ==> NodeAt(CHANGED_ON_NAS, p).Missing? && !NeedsChecksum(EDITING, CHANGED_ON_NAS, p);
  }

  /** With deletions off a full round runs although an edit is queued. Base "base", edited
      here at 1 s, changed on the NAS at 5 s: the transfer takes the NAS file, nobody is in
      the way any more, and the edit is gone from both sides without a copy. */
  lemma FullPullReplacesEditExample()
    ensures var (c, s) := (EDITING, CHANGED_ON_NAS);
            && Unpushed(c, "a") && RoundRuns(c, s, true, false, {"a"}) && !Targeted(c, s, true)
            && !CalledOff(c, s, false, false) && Overwrites(c, s, false, false, false, "a")
            && PullEffect(c, s, false, false, 0, EDIT_LOST, s)
  {
    hide PulledLocal, PulledBase, InTheWay, NeedsChecksum, RepairedRecord;
    forall p
      ensures NeedsChecksum(EDITING, CHANGED_ON_NAS, p) ==> NodeAt(CHANGED_ON_NAS, p).File?
      ensures !InTheWay(EDITING, CHANGED_ON_NAS, false, false, p)
      ensures RecordAt(CHANGED_ON_NAS, p) == RepairedRecord(EDITING, CHANGED_ON_NAS, 0, p)
      ensures Lookup(EDIT_LOST.local, p) == PulledLocal(EDITING, CHANGED_ON_NAS, false, false, false, p)
      ensures Lookup(EDIT_LOST.baseline, p) == PulledBase(EDITING, CHANGED_ON_NAS, false, false, false, 0, p)
    {
      FullPullOnPath(p);
    }
  }

  /** A new file whose name another client has taken: a targeted round, which does not look
      at the queue, fetches over it. */
  lemma TargetedPullReplacesNewFileExample()
    ensures var nas := FileMeta("nas", 3, 5_000_000_000);
            var c := Client(map["a" := Fingerprint("mine", 4, 9_000_000_000, None)], map[], map[]);
            var s := Share(map["a" := File(nas)], map["a" := Record(Some(nas), 0, None)]);
            && Unpushed(c, "a") && Targeted(c, s, false) && RoundRuns(c, s, false, true, {"a"})
            && !CalledOff(c, s, true, true) && Overwrites(c, s, true, true, false, "a")
            && ContentOf(PulledLocal(c, s, true, true, false, "a")) == Some("nas")
  {
  }

  /** After a stale entry of an unchanged file was repaired, the next push uploads the file,
      an old version, again: exactly when the file is still there, because the round was
      targeted or may not delete. */
  lemma RepairedFileComesBack(c: Client, s: Share, targeted: bool, deleteEnabled: bool, calledOff: bool, stampNs: int, p: Path, settings: Settings)
    requires Stale(c, s, p) && ClientOk(c) && Clean(Lookup(c.baseline, p), Lookup(c.local, p))
    ensures var v := PathView(PulledLocal(c, s, targeted, deleteEnabled, calledOff, p),
                              PulledBase(c, s, targeted, deleteEnabled, calledOff, stampNs, p),
                              NodeAt(s, p), RepairedRecord(c, s, stampNs, p), Lookup(c.deletions, p));
            && BaseContent(v) == None
            && (PlanFor(v, settings).action.UPLOAD? <==> p in c.local && (targeted || !deleteEnabled))
            && (PlanFor(v, settings).action.UPLOAD? ==> ContentOf(v.local) == Some(c.local[p].digest))
  {
  }

  /** A file that was changed elsewhere and then removed from the NAS behind the journal:
      the client still has the version before, and brings it back. */
  lemma RepairedFileExample(settings: Settings)
    ensures var old1 := Fingerprint("v1", 2, 0, None);
            var c := Client(map["a" := old1], map["a" := old1], map[]);
            var s := Share(map[], map["a" := Record(Some(FileMeta("v2", 2, 5)), 0, None)]);
            && Stale(c, s, "a") && CleanClient(c) && Targeted(c, s, false) && RoundRuns(c, s, false, true, {})
            && PlanFor(PathView(PulledLocal(c, s, true, true, false, "a"), PulledBase(c, s, true, true, false, 9, "a"),
                                NodeAt(s, "a"), RepairedRecord(c, s, 9, "a"), None), settings).action.UPLOAD?
  {
    var old1 := Fingerprint("v1", 2, 0, None);
    var c := Client(map["a" := old1], map["a" := old1], map[]);
    var s := Share(map[], map["a" := Record(Some(FileMeta("v2", 2, 5)), 0, None)]);
    RepairedFileComesBack(c, s, true, true, false, 9, "a", settings);
  }

  /* ---- a round, path by path ---- */

  /** What the whole-tree transfer does to a path: a missing or older-looking file is
      taken from the NAS with its time, a file gone there is removed if that is allowed,
      everything else stays. */
  lemma SweepExactly(local: Option<Fingerprint>, node: Node, deleteEnabled: bool)
    ensures SweepPath(local, node, deleteEnabled) ==
              match (node, local)
              case (File(m), None) => Some(Fingerprint(m.digest, m.size, m.mtimeNs, None))
              case (File(m), Some(l)) =>
                var (here, there) := (l.mtimeNs / 1_000_000_000, m.mtimeNs / 1_000_000_000);
                if here < there || (here == there && l.size != m.size) then Some(Fingerprint(m.digest, m.size, m.mtimeNs, None)) else local
              case (Missing, _) => if deleteEnabled then None else local
              case (Special, _) => local
  {
  }

  /** A fetch by name is for files the manifest lists with content that is not the base;
      it is stopped by an edit of a known file that is neither base nor what is listed. */
  lemma FetchExactly(c: Client, s: Share, p: Path)
    ensures Fetchable(c, s, p) <==>
              && p in s.records && s.records[p].put.Some? && p in s.nodes && s.nodes[p].File?
              && !(p in c.baseline && c.baseline[p].digest != "" && c.baseline[p].digest == s.records[p].put.value.digest)
    ensures Fetchable(c, s, p) ==> forall local: Fingerprint ::
              (Edited(c, s, Some(local), p) <==>
                 && p in c.baseline && c.baseline[p].digest != ""
                 && local.digest != c.baseline[p].digest && local.digest != s.records[p].put.value.digest)
    ensures Fetchable(c, s, p) ==> !Edited(c, s, None, p)
    ensures Stale(c, s, p) <==>
              && p in s.records && s.records[p].put.Some? && (p !in s.nodes || s.nodes[p].Missing?)
              && !(p in c.baseline && c.baseline[p].digest != "" && c.baseline[p].digest == s.records[p].put.value.digest)
  {
  }

  /** A round leaves at each path: on the disk the NAS file where it was fetched, else what
      the whole-tree transfer made of it; as base, where the disk was written, the NAS file
      with the clock reported for it, or the deletion; and elsewhere the base as it was,
      unless a stale entry stood against an unchanged or missing file. */
  lemma PulledExactly(c: Client, s: Share, targeted: bool, deleteEnabled: bool, calledOff: bool, stampNs: int, p: Path)
    requires ShareOk(s)
    ensures var local := PulledLocal(c, s, targeted, deleteEnabled, calledOff, p);
            var fetched := Fetchable(c, s, p) && !calledOff;
            && local == (if fetched then Some(Fingerprint(s.nodes[p].meta.digest, s.nodes[p].meta.size, s.nodes[p].meta.mtimeNs, None))
                         else if targeted then Lookup(c.local, p)
                         else SweepPath(Lookup(c.local, p), NodeAt(s, p), deleteEnabled))
            && PulledBase(c, s, targeted, deleteEnabled, calledOff, stampNs, p) ==
                 (if fetched || local != Lookup(c.local, p) then
                    (match NodeAt(s, p)
                     case File(m) => Some(Fingerprint(m.digest, m.size, m.mtimeNs, NonEmpty(ClockOnNas(s, p))))
                     case _ => Some(Fingerprint("", -1, -1, if Stale(c, s, p) then None else NonEmpty(ClockOnNas(s, p)))))
                  else if Stale(c, s, p)
                          && (p !in c.local || (p in c.baseline && c.baseline[p].digest != "" && c.local[p].digest == c.baseline[p].digest))
                  then Some(Fingerprint("", -1, -1, NonEmpty(s.records[p].causal)))
                  else Lookup(c.baseline, p))
            && RepairedRecord(c, s, stampNs, p) == if Stale(c, s, p) then Some(Record(None, stampNs, None)) else Lookup(s.records, p)
  {
    ClockIsReported(s, p);
    ReportedExactly(NodeAt(s, p), RecordAt(s, p));
  }
}
