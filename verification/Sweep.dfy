/** The scan that replaces a missing list of changed paths: compare the disk with the
    base by metadata first, by content only where metadata moved. */
module Sweep {
  import opened CausalVersions
  import opened SyncState
  import opened Reconcile
  import opened Chunk
  import opened Repository

  /** Metadata and base agree: neither queued nor hashed. */
  predicate LooksUnchanged(local: Option<Fingerprint>, known: Option<Fingerprint>) {
    local.Some? && known.Some? && !known.value.IsTombstone()
    && local.value.size == known.value.size && local.value.mtimeNs == known.value.mtimeNs
  }

  /** A content fingerprint carries no clock. */
  function Hashed(local: Fingerprint): Fingerprint {
    local.(causal := None)
  }

  /** What the scan reports, given which files could be hashed. The hash is compared as a
      whole fingerprint, clock included. */
  predicate Reported(local: Option<Fingerprint>, known: Option<Fingerprint>, hashable: bool) {
    if LooksUnchanged(local, known) then false
    else if local.None? then known.Some? && !known.value.IsTombstone()
    else if known.None? || known.value.IsTombstone() then true
    else !hashable || Some(Hashed(local.value)) != known
  }

  method ChangedPaths(c: Client, unreadable: set<Path>) returns (changed: set<Path>)
    ensures forall p :: p in changed <==>
              p in c.local.Keys + c.baseline.Keys && Reported(Lookup(c.local, p), Lookup(c.baseline, p), p !in unreadable)
    // a file both sides know is reported exactly when its size or its time has moved
    ensures forall p :: p in c.local && p in c.baseline && c.baseline[p].digest != "" ==>
              (p in changed <==> c.local[p].size != c.baseline[p].size || c.local[p].mtimeNs != c.baseline[p].mtimeNs)
    ensures forall p :: p in c.local && (p !in c.baseline || c.baseline[p].digest == "") ==> p in changed
    ensures forall p :: p !in c.local ==> (p in changed <==> p in c.baseline && c.baseline[p].digest != "")
  {
    changed := {};
    var toHash: set<Path> := {};
    var todo := c.local.Keys + c.baseline.Keys;
    while todo != {}
      invariant todo <= c.local.Keys + c.baseline.Keys
      invariant forall p :: p in toHash ==> p in c.local && p in c.baseline && p !in todo
      invariant forall p :: p in c.local.Keys + c.baseline.Keys && p !in todo && p !in toHash ==>
                  (p in changed <==> Reported(Lookup(c.local, p), Lookup(c.baseline, p), p !in unreadable))
      invariant forall p :: p in toHash ==> p !in changed && !LooksUnchanged(Lookup(c.local, p), Lookup(c.baseline, p)) && !c.baseline[p].IsTombstone()
      invariant changed <= c.local.Keys + c.baseline.Keys - todo
      decreases todo
    {
      var p :| p in todo;
      todo := todo - {p};
      var known := Lookup(c.baseline, p);
      if LooksUnchanged(Lookup(c.local, p), known) {
      } else if p !in c.local {
        if !known.value.IsTombstone() {
          changed := changed + {p};
        }
      } else if known.None? || known.value.IsTombstone() {
        changed := changed + {p};
      } else {
        toHash := toHash + {p};
      }
    }
    while toHash != {}
      invariant forall p :: p in toHash ==> p in c.local && p in c.baseline
      invariant forall p :: p in c.local.Keys + c.baseline.Keys && p !in toHash ==>
                  (p in changed <==> Reported(Lookup(c.local, p), Lookup(c.baseline, p), p !in unreadable))
      invariant forall p :: p in toHash ==> p !in changed && !LooksUnchanged(Lookup(c.local, p), Lookup(c.baseline, p)) && !c.baseline[p].IsTombstone()
      invariant changed <= c.local.Keys + c.baseline.Keys
      decreases toHash
    {
      var p :| p in toHash;
      toHash := toHash - {p};
      if p in unreadable || Hashed(c.local[p]) != c.baseline[p] {
        changed := changed + {p};
      }
    }
  }

  /** A content change alters the size or the time. */
  ghost predicate MetadataTells(c: Client) {
    forall p :: p in c.local && p in c.baseline && c.baseline[p].digest != ""
                && c.local[p].size == c.baseline[p].size && c.local[p].mtimeNs == c.baseline[p].mtimeNs ==>
      c.local[p].digest == c.baseline[p].digest
  }

  /** The scan misses exactly the changes that leave size and time alone: both sides have
      the file, with the same size, the same time and different content. */
  lemma MissedExactly(c: Client, p: Path, hashable: bool)
    requires p in c.local ==> c.local[p].digest != ""
    ensures !Reported(Lookup(c.local, p), Lookup(c.baseline, p), hashable) && ContentOf(Lookup(c.local, p)) != ContentOf(Lookup(c.baseline, p))
            <==> (
              && p in c.local && p in c.baseline && c.baseline[p].digest != ""
              && c.local[p].size == c.baseline[p].size && c.local[p].mtimeNs == c.baseline[p].mtimeNs
              && c.local[p].digest != c.baseline[p].digest)
  {
  }

  /** Metadata decides: the hash of a file whose size or time moved is compared together
      with that size and time, so reading it never takes the file off the list. */
  lemma MetadataDecides(local: Option<Fingerprint>, known: Option<Fingerprint>, hashable: bool)
    ensures Reported(local, known, hashable) <==>
              match (local, known)
              case (None, None) => false
              case (None, Some(k)) => k.digest != ""
              case (Some(_), None) => true
              case (Some(l), Some(k)) => k.digest == "" || l.size != k.size || l.mtimeNs != k.mtimeNs
  {
  }

  function Everything(c: Client): set<Path> {
    c.local.Keys + c.baseline.Keys
  }

  lemma UnreportedIsClean(c: Client, s: Share, p: Path, readable: bool)
    requires MetadataTells(c) && ViewOk(At(c, s, p)) && !Reported(Lookup(c.local, p), Lookup(c.baseline, p), readable)
    ensures CleanView(At(c, s, p))
  {
    MissedExactly(c, p, readable);
  }

  /** Pushing only what the scan reports gives every NAS file, every local file and every
      base the content it gets when every known path is planned. */
  lemma SweepRefinesFullReconciliation(c: Client, s: Share, naming: Naming, settings: Settings, changed: set<Path>,
                                       c1: Client, s1: Share, c2: Client, s2: Share)
    requires MetadataTells(c)
    requires forall p :: p in Everything(c) ==> ViewOk(At(c, s, p))
    requires forall p :: p in changed <==>
               if p in c.local then p !in c.baseline || c.baseline[p].digest == ""
                                    || c.local[p].size != c.baseline[p].size || c.local[p].mtimeNs != c.baseline[p].mtimeNs
               else p in c.baseline && c.baseline[p].digest != ""
    requires SafeNames(s, Everything(c), Copies(c, s, naming, settings, Everything(c)))
    requires Finished(c, s, naming, settings, changed, c1, s1)
    requires Finished(c, s, naming, settings, Everything(c), c2, s2)
    ensures forall x :: NodeContent(NodeAt(s1, x)) == NodeContent(NodeAt(s2, x))
    ensures forall x :: ContentOf(Lookup(c1.local, x)) == ContentOf(Lookup(c2.local, x))
                     && ContentOf(Lookup(c1.baseline, x)) == ContentOf(Lookup(c2.baseline, x))
  {
    hide Finished, SafeNames, Copies, Reported, At, ViewOk, CleanView;
    forall p ensures p in changed <==> p in Everything(c) && Reported(Lookup(c.local, p), Lookup(c.baseline, p), true) {
      MetadataDecides(Lookup(c.local, p), Lookup(c.baseline, p), true);
    }
    var clean := Everything(c) - changed;
    forall p | p in clean ensures CleanView(At(c, s, p)) && ViewOk(At(c, s, p)) {
      UnreportedIsClean(c, s, p, true);
    }
    assert changed + clean == Everything(c);
    CleanPathsAddNothing(c, s, naming, settings, changed, clean, c1, s1, c2, s2);
  }
}
