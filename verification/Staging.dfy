/** New files published through a private staging tree: planned under one lease,
    uploaded without it, published under a second one. */
module Staging {
  import opened CausalVersions
  import opened SyncState
  import opened Reconcile
  import opened Chunk
  import opened Repository
  import opened Text

  /** The files of one batch, as they were when it was planned. */
  type Batch = map<Path, Fingerprint>

  /* ---- what may be staged ---- */

  predicate Stageable(v: PathView, settings: Settings) {
    var p := PlanFor(v, settings);
    p.action.UPLOAD? && p.remote.kind.ABSENT? && (v.baseline.None? || v.baseline.value.IsTombstone())
  }

  /** Only a file that is new on both sides: no live base, no NAS entry, no NAS record. */
  lemma StageableExactly(v: PathView, settings: Settings)
    requires ViewOk(v)
    ensures Stageable(v, settings) <==>
            v.local.Some? && ContentOf(v.baseline).None? && v.node.Missing? && v.record.None?
  {
  }

  /* ---- the server's publish ---- */

  /** Same bytes and same whole-second time. */
  predicate Matches(meta: FileMeta, fp: Fingerprint) {
    meta.digest == fp.digest && meta.size == fp.size && Seconds(meta.mtimeNs) == Seconds(fp.mtimeNs)
  }

  predicate Holds(s: Share, p: Path, fp: Fingerprint) {
    NodeAt(s, p).File? && Matches(NodeAt(s, p).meta, fp)
  }

  function Occupied(s: Share, batch: Batch): set<Path> {
    set p | p in batch && !NodeAt(s, p).Missing?
  }

  predicate StagedRight(staged: map<Path, FileMeta>, batch: Batch) {
    forall p :: p in batch ==> p in staged && Matches(staged[p], batch[p])
  }

  function Placed(s: Share, staged: map<Path, FileMeta>, batch: Batch, versions: map<Path, Option<Clock>>, stampNs: int): Share
    requires batch.Keys <= staged.Keys
  {
    Share(s.nodes + map p | p in batch :: File(staged[p]),
          s.records + map p | p in batch :: Record(Some(NasMeta(batch[p])), stampNs, SuppliedFor(versions, p)))
  }

  /** Refused when there is nothing to publish, when a staged file is not the announced
      one, or when some but not all destinations exist, or one holds something else; done
      already when all hold the announced bytes; otherwise everything is moved and
      journaled at once. */
  function Publish(s: Share, staged: map<Path, FileMeta>, batch: Batch, versions: map<Path, Option<Clock>>, stampNs: int): (Share, bool) {
    if batch == map[] || !StagedRight(staged, batch) then (s, false)
    else if exists p :: p in Occupied(s, batch) && !Holds(s, p, batch[p]) then (s, false)
    else if Occupied(s, batch) == batch.Keys then (s, true)
    else if Occupied(s, batch) != {} then (s, false)
    else (Placed(s, staged, batch, versions, stampNs), true)
  }

  /** All or nothing: acceptance means every path of the batch holds the announced
      bytes, refusal means nothing changed; and no existing entry is ever touched. */
  lemma PublishIsAllOrNothing(s: Share, staged: map<Path, FileMeta>, batch: Batch, versions: map<Path, Option<Clock>>, stampNs: int)
    ensures var (s', ok) := Publish(s, staged, batch, versions, stampNs);
            && (ok ==> forall p :: p in batch ==> Holds(s', p, batch[p]))
            && (!ok ==> s' == s)
            && (forall x :: !NodeAt(s, x).Missing? || x !in batch ==> NodeAt(s', x) == NodeAt(s, x) && RecordAt(s', x) == RecordAt(s, x))
  {
    var (s', ok) := Publish(s, staged, batch, versions, stampNs);
    if ok && s' != s {
      var placed := Placed(s, staged, batch, versions, stampNs);
      forall p | p in batch ensures Holds(placed, p, batch[p]) && NodeAt(s, p).Missing? {
        assert p !in Occupied(s, batch);
        assert NodeAt(placed, p) == File(staged[p]);
      }
    } else if ok {
      forall p | p in batch ensures Holds(s, p, batch[p]) {
        assert p in Occupied(s, batch);
      }
    }
  }

  /** The staged files are the announced ones: content, size, and time in whole seconds. */
  ghost predicate AsAnnounced(staged: map<Path, FileMeta>, batch: Batch) {
    forall p :: p in batch ==>
      && p in staged
      && staged[p].digest == batch[p].digest && staged[p].size == batch[p].size
      && staged[p].mtimeNs / 1_000_000_000 == batch[p].mtimeNs / 1_000_000_000
  }

  ghost predicate AllFree(s: Share, batch: Batch) {
    forall p :: p in batch ==> p !in s.nodes || s.nodes[p].Missing?
  }

  /** Every destination is a file with the announced bytes and time already. */
  ghost predicate AllThere(s: Share, batch: Batch) {
    forall p :: p in batch ==>
      && p in s.nodes && s.nodes[p].File?
      && s.nodes[p].meta.digest == batch[p].digest && s.nodes[p].meta.size == batch[p].size
      && s.nodes[p].meta.mtimeNs / 1_000_000_000 == batch[p].mtimeNs / 1_000_000_000
  }

  /** A publish is accepted exactly if there is something to publish, the private tree holds
      what was announced, and the destinations are all free or all there. With free
      destinations every path then has its file and, in the same step, its journal record:
      announced content, whole seconds, the stamp of the server and the clock supplied for
      it. Otherwise nothing at all changes. */
  lemma PublishExactly(s: Share, staged: map<Path, FileMeta>, batch: Batch, versions: map<Path, Option<Clock>>, stampNs: int)
    ensures var (s', ok) := Publish(s, staged, batch, versions, stampNs);
            && (ok <==> batch != map[] && AsAnnounced(staged, batch) && (AllFree(s, batch) || AllThere(s, batch)))
            && (ok && AllFree(s, batch) ==> InPlace(s, staged, batch, versions, stampNs, s'))
            && (!(ok && AllFree(s, batch)) ==> s' == s)
  {
    AnnouncedIsRight(staged, batch);
    FreeOrThere(s, batch);
    var (s', ok) := Publish(s, staged, batch, versions, stampNs);
    if batch != map[] {
      var q :| q in batch;
      assert !(AllFree(s, batch) && AllThere(s, batch));
      if ok && AllFree(s, batch) {
        PlacedIsInPlace(s, staged, batch, versions, stampNs);
      }
    }
  }

  /** A path of the batch has its file and its record; another one is as it was. */
  predicate InPlaceAt(s: Share, staged: map<Path, FileMeta>, batch: Batch, versions: map<Path, Option<Clock>>, stampNs: int, s': Share, p: Path)
    requires batch.Keys <= staged.Keys
  {
    if p in batch then
      && Lookup(s'.nodes, p) == Some(File(staged[p]))
      && Lookup(s'.records, p) == Some(Record(Some(FileMeta(batch[p].digest, batch[p].size, batch[p].mtimeNs - batch[p].mtimeNs % 1_000_000_000)),
                                              stampNs, if p in versions then versions[p] else None))
    else Lookup(s'.nodes, p) == Lookup(s.nodes, p) && Lookup(s'.records, p) == Lookup(s.records, p)
  }

  ghost predicate InPlace(s: Share, staged: map<Path, FileMeta>, batch: Batch, versions: map<Path, Option<Clock>>, stampNs: int, s': Share)
    requires batch.Keys <= staged.Keys
  {
    forall p :: InPlaceAt(s, staged, batch, versions, stampNs, s', p)
  }

  lemma PlacedIsInPlace(s: Share, staged: map<Path, FileMeta>, batch: Batch, versions: map<Path, Option<Clock>>, stampNs: int)
    requires batch.Keys <= staged.Keys
    ensures InPlace(s, staged, batch, versions, stampNs, Placed(s, staged, batch, versions, stampNs))
  {
    forall p ensures InPlaceAt(s, staged, batch, versions, stampNs, Placed(s, staged, batch, versions, stampNs), p) {
    }
  }

  lemma AnnouncedIsRight(staged: map<Path, FileMeta>, batch: Batch)
    ensures AsAnnounced(staged, batch) <==> StagedRight(staged, batch)
  {
  }

  lemma FreeOrThere(s: Share, batch: Batch)
    ensures AllFree(s, batch) <==> Occupied(s, batch) == {}
    ensures AllThere(s, batch) <==> Occupied(s, batch) == batch.Keys && forall p :: p in Occupied(s, batch) ==> Holds(s, p, batch[p])
  {
    forall p | p in batch ensures p in Occupied(s, batch) <==> p in s.nodes && !s.nodes[p].Missing? {
    }
    if Occupied(s, batch) == {} {
      forall p | p in batch ensures p !in s.nodes || s.nodes[p].Missing? {
        assert p !in Occupied(s, batch);
      }
    }
  }

  function PublishedView(v: PathView, version: Option<Clock>, stampNs: int): PathView
    requires v.local.Some?
  {
    v.(node := File(NasMeta(v.local.value)), record := Some(Record(Some(NasMeta(v.local.value)), stampNs, version)),
       baseline := Some(RecordedEntry(v.local, version)))
  }

  /** A published path ends as the direct upload of the same plan would have left it. */
  lemma PublishIsUpload(v: PathView, settings: Settings)
    requires ViewOk(v) && Stageable(v, settings)
    ensures SameContents(PublishedView(v, PlanFor(v, settings).version, settings.stampNs),
                         Through(v, PlanFor(v, settings), COMMITTED))
  {
  }

  /** The view of a published path is what the server's publish and the client's record
      make of it. */
  lemma PublishedViewIsReached(c: Client, s: Share, staged: map<Path, FileMeta>, batch: Batch, versions: map<Path, Option<Clock>>, stampNs: int,
                               c': Client, s': Share, p: Path)
    requires Publish(s, staged, batch, versions, stampNs) == (s', true) && AllFree(s, batch)
    requires p in batch && p in staged && Lookup(c.local, p) == Some(batch[p]) && staged[p] == NasMeta(batch[p])
    requires c'.local == c.local && c'.deletions == c.deletions
    requires p in c'.baseline && c'.baseline[p] == RecordedEntry(Some(batch[p]), SuppliedFor(versions, p))
    ensures At(c', s', p) == PublishedView(At(c, s, p), SuppliedFor(versions, p), stampNs)
  {
    hide Publish, AllFree;
    PublishExactly(s, staged, batch, versions, stampNs);
    assert InPlaceAt(s, staged, batch, versions, stampNs, s', p);
  }

  /** When the reply was lost, or another client had published the same bytes, the next
      plan adopts: the content and base a published path would have are reached without
      another transfer. */
  lemma LostReplyIsAdopted(v: PathView, fp: Fingerprint, settings: Settings)
    requires ViewOk(v) && v.local == Some(fp) && v.node.File? && Matches(v.node.meta, fp)
    ensures var p := PlanFor(v, settings);
            && p.action.ADOPT? && CopyOf(v, p).None?
            && Through(v, p, SETTLED) == v
            && BaseContent(Through(v, p, COMMITTED)) == Some(fp.digest)
            && NodeContent(Through(v, p, COMMITTED).node) == Some(fp.digest)
  {
  }

  /* ---- the two-lease protocol ---- */

  datatype Outcome = NotStaged | Changed | Refused | NoReply | Published

  class StagingWorker {
    var client: Client
    var share: Share
    var staged: map<Path, FileMeta>   // the private tree of this batch
    var pending: set<Path>            // the durable queue

    constructor (client: Client, share: Share, pending: set<Path>)
      ensures this.client == client && this.share == share && this.pending == pending
    {
      this.client, this.share, this.pending, staged := client, share, pending, map[];
    }

    /** Everything other clients and users may do while no lease is held: any change of
        the NAS and of the local files, none of this client's bases. */
    method Meanwhile()
      modifies this`client, this`share
      ensures client.baseline == old(client).baseline
    {
      share := *;
      var local: map<Path, Fingerprint> := *;
      var deletions: map<Path, Clock> := *;
      client := client.(local := local, deletions := deletions);
    }

    /** Local files may change at any time, lease or not. */
    method LocalEdits()
      modifies this`client
      ensures client.baseline == old(client).baseline
    {
      var local: map<Path, Fingerprint> := *;
      var deletions: map<Path, Clock> := *;
      client := client.(local := local, deletions := deletions);
    }

    /** From the planned batch to the record. `found` is the NAS at the second lease,
        `sources` the local tree when the upload was over. */
    method Run(batch: Batch, versions: map<Path, Option<Clock>>, stampNs: int)
      returns (outcome: Outcome, ghost found: Share, ghost sources: map<Path, Fingerprint>)
      modifies this
      // a file that changed while it was uploaded stops the batch
      ensures !outcome.NotStaged? ==> (outcome.Changed? <==> exists p :: p in batch && Lookup(sources, p) != Some(batch[p]))
      ensures outcome.Published? ==>
                && (forall p :: p in batch ==> Holds(share, p, batch[p]))
                && client.baseline == old(client).baseline + map p | p in batch :: RecordedEntry(Some(batch[p]), SuppliedFor(versions, p))
      ensures !outcome.Published? ==> client.baseline == old(client).baseline && pending == old(pending)
      // the queue forgets the whole batch, whatever the disk shows by then
      ensures outcome.Published? ==> pending == Unqueued(old(pending), batch.Keys)
      ensures outcome.NoReply? ==> forall p :: p in batch ==> Holds(share, p, batch[p])
      // the server accepts exactly what it can publish, and then journals all of it
      ensures outcome.Refused? || outcome.NoReply? || outcome.Published? ==>
                (outcome.Refused? <==> !(batch != map[] && AsAnnounced(staged, batch) && (AllFree(found, batch) || AllThere(found, batch))))
      ensures (outcome.NoReply? || outcome.Published?) && AllFree(found, batch) ==>
                batch.Keys <= staged.Keys && InPlace(found, staged, batch, versions, stampNs, share)
      ensures (outcome.NoReply? || outcome.Published?) && AllThere(found, batch) ==> share == found
      ensures !outcome.Published? && !outcome.NoReply? ==> share == found
      ensures forall x :: !NodeAt(found, x).Missing? || x !in batch ==> NodeAt(share, x) == NodeAt(found, x) && RecordAt(share, x) == RecordAt(found, x)
    {
      // the upload: what arrives in the private tree is not known
      Meanwhile();
      found, sources := share, client.local;
      staged := *;
      if * {
        return NotStaged, found, sources;
      }
      if exists p :: p in batch && Lookup(client.local, p) != Some(batch[p]) {
        staged := map[];
        return Changed, found, sources;
      }
      // waiting for the second lease
      Meanwhile();
      found := share;
      PublishIsAllOrNothing(share, staged, batch, versions, stampNs);
      PublishExactly(share, staged, batch, versions, stampNs);
      var (after, ok) := Publish(share, staged, batch, versions, stampNs);
      share := after;
      if !ok {
        return Refused, found, sources;
      }
      if * {
        return NoReply, found, sources;
      }
      LocalEdits();
      client := client.(baseline := client.baseline + map p | p in batch :: RecordedEntry(Some(batch[p]), SuppliedFor(versions, p)));
      pending := Unqueued(pending, batch.Keys);
      outcome := Published;
    }
  }

  /* ---- the transaction identifier ---- */

  const NUL := '\0'

  predicate NulFree(s: string) {
    NUL !in s
  }

  /** Every field followed by a NUL. */
  function Frame(fields: seq<string>): string {
    if fields == [] then "" else fields[0] + [NUL] + Frame(fields[1..])
  }

  lemma {:induction false} FrameIsInjective(a: seq<string>, b: seq<string>)
    requires (forall f :: f in a ==> NulFree(f)) && (forall f :: f in b ==> NulFree(f))
    requires Frame(a) == Frame(b)
    ensures a == b
  {
    if a != [] && b != [] {
      var s := Frame(a);
      IndexOfIs(s, NUL, 0, |a[0]|) by {
        assert NulFree(a[0]);
        assert forall k :: 0 <= k < |a[0]| ==> s[k] == a[0][k];
      }
      IndexOfIs(s, NUL, 0, |b[0]|) by {
        assert NulFree(b[0]);
        assert forall k :: 0 <= k < |b[0]| ==> s[k] == b[0][k];
      }
      assert a[0] == s[..|a[0]|] == s[..|b[0]|] == b[0];
      assert Frame(a[1..]) == s[|a[0]| + 1..] == Frame(b[1..]);
      FrameIsInjective(a[1..], b[1..]);
      assert a == [a[0]] + a[1..] && b == [b[0]] + b[1..];
    }
  }

  function IntText(n: int): string {
    if n < 0 then "-" + Decimal(-n) else Decimal(n)
  }

  lemma IntTextIsInjective(m: int, n: int)
    ensures NulFree(IntText(m))
    ensures IntText(m) == IntText(n) ==> m == n
  {
    ValueOfDecimal(if m < 0 then -m else m);
    ValueOfDecimal(if n < 0 then -n else n);
    assert IntText(m)[0] == '-' <==> m < 0;
    assert IntText(n)[0] == '-' <==> n < 0;
    if IntText(m) == IntText(n) && m < 0 {
      assert IntText(m)[1..] == Decimal(-m) && IntText(n)[1..] == Decimal(-n);
    }
  }

  function FileFields(p: Path, fp: Fingerprint): seq<string> {
    [p, fp.digest, IntText(fp.size), IntText(fp.mtimeNs)]
  }

  ghost function FieldsOf(batch: Batch, paths: seq<Path>): seq<string>
    requires forall p :: p in paths ==> p in batch
  {
    if paths == [] then [] else FileFields(paths[0], batch[paths[0]]) + FieldsOf(batch, paths[1..])
  }

  /** The text that is hashed: the batch in path order. */
  ghost function TransactionText(batch: Batch): string {
    Frame(FieldsOf(batch, Sorted(batch.Keys)))
  }

  /** No NUL in any path or digest, as on any file system. */
  predicate Frameable(batch: Batch) {
    forall p :: p in batch ==> NulFree(p) && NulFree(batch[p].digest)
  }

  function Version(fp: Fingerprint): Seen {
    Seen(fp.digest, fp.size, fp.mtimeNs)
  }

  lemma {:induction false} FieldsAreNulFree(batch: Batch, paths: seq<Path>)
    requires Frameable(batch) && forall p :: p in paths ==> p in batch
    ensures forall f :: f in FieldsOf(batch, paths) ==> NulFree(f)
  {
    if paths != [] {
      FieldsAreNulFree(batch, paths[1..]);
      var fp := batch[paths[0]];
      IntTextIsInjective(fp.size, 0);
      IntTextIsInjective(fp.mtimeNs, 0);
    }
  }

  lemma {:induction false} FieldsDetermineBatch(a: Batch, ps: seq<Path>, b: Batch, qs: seq<Path>)
    requires (forall p :: p in ps ==> p in a) && (forall q :: q in qs ==> q in b)
    requires FieldsOf(a, ps) == FieldsOf(b, qs)
    ensures ps == qs && forall p :: p in ps ==> Version(a[p]) == Version(b[p])
  {
    if ps != [] && qs != [] {
      var fa, fb := FieldsOf(a, ps), FieldsOf(b, qs);
      assert fa[0] == ps[0] && fb[0] == qs[0];
      assert fa[1] == a[ps[0]].digest && fb[1] == b[qs[0]].digest;
      assert fa[2] == IntText(a[ps[0]].size) && fb[2] == IntText(b[qs[0]].size);
      assert fa[3] == IntText(a[ps[0]].mtimeNs) && fb[3] == IntText(b[qs[0]].mtimeNs);
      IntTextIsInjective(a[ps[0]].size, b[qs[0]].size);
      IntTextIsInjective(a[ps[0]].mtimeNs, b[qs[0]].mtimeNs);
      assert fa[4..] == FieldsOf(a, ps[1..]) && fb[4..] == FieldsOf(b, qs[1..]);
      FieldsDetermineBatch(a, ps[1..], b, qs[1..]);
      assert ps == [ps[0]] + ps[1..] && qs == [qs[0]] + qs[1..];
    }
  }

  /** With an injective hash, one transaction identifier names one batch: the same paths
      with the same content, size and time. A changed source never shares a staging tree. */
  lemma TransactionNamesOneBatch(hash: string -> string, a: Batch, b: Batch)
    requires forall x, y :: hash(x) == hash(y) ==> x == y
    requires Frameable(a) && Frameable(b)
    ensures "publish-" + hash(TransactionText(a)) == "publish-" + hash(TransactionText(b))
            <==> a.Keys == b.Keys && forall p :: p in a ==> Version(a[p]) == Version(b[p])
  {
    hide Sorted, Frame, FieldsOf, TransactionText;
    var ta, tb := TransactionText(a), TransactionText(b);
    var ia, ib := "publish-" + hash(ta), "publish-" + hash(tb);
    if ia == ib {
      assert hash(ta) == ia[8..] == ib[8..] == hash(tb);
      SameTextSameBatch(a, b);
    } else if a.Keys == b.Keys && forall p :: p in a ==> Version(a[p]) == Version(b[p]) {
      SameBatchSameText(a, b);
    }
  }

  lemma SameTextSameBatch(a: Batch, b: Batch)
    requires Frameable(a) && Frameable(b) && TransactionText(a) == TransactionText(b)
    ensures a.Keys == b.Keys && forall p :: p in a ==> Version(a[p]) == Version(b[p])
  {
    hide Sorted, Frame, FieldsOf;
    var (pa, pb) := (Sorted(a.Keys), Sorted(b.Keys));
    FieldsAreNulFree(a, pa);
    FieldsAreNulFree(b, pb);
    FrameIsInjective(FieldsOf(a, pa), FieldsOf(b, pb));
    FieldsDetermineBatch(a, pa, b, pb);
    assert forall p :: p in a.Keys <==> p in pa;
    assert forall p :: p in b.Keys <==> p in pb;
  }

  lemma SameBatchSameText(a: Batch, b: Batch)
    requires a.Keys == b.Keys && forall p :: p in a ==> Version(a[p]) == Version(b[p])
    ensures TransactionText(a) == TransactionText(b)
  {
    SameVersionsSameFields(a, b, Sorted(a.Keys));
  }

  lemma {:induction false} SameVersionsSameFields(a: Batch, b: Batch, paths: seq<Path>)
    requires forall p :: p in paths ==> p in a && p in b && Version(a[p]) == Version(b[p])
    ensures FieldsOf(a, paths) == FieldsOf(b, paths)
  {
    if paths != [] {
      SameVersionsSameFields(a, b, paths[1..]);
    }
  }
}
