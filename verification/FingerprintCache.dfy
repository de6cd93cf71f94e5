/** The content fingerprint of a file and its in-memory cache, against programs that
    write, replace and rename files at any moment. */
module FingerprintCache {
  import opened CausalVersions
  import opened SyncState

  type Bytes = seq<bv8>

  /** What lstat shows for a regular file. */
  datatype Stat = Stat(device: nat, inode: nat, size: nat, mtimeNs: int)

  const MAX_ENTRIES := 50000

  /** The file system over time: what each path names, and what each inode holds. Every
      interleaving with a writer is one such history. */
  datatype History = History(names: (Path, nat) -> Option<Stat>, content: (nat, nat, nat) -> Bytes, capacity: nat) {
    ghost predicate Valid() {
      && (forall p, t :: names(p, t).Some? ==> names(p, t).value.size == |At(names(p, t).value, t)|)
      && (forall device, inode, t :: |content(device, inode, t)| <= capacity)
    }

    function At(s: Stat, t: nat): Bytes {
      content(s.device, s.inode, t)
    }

    /** A stat result never comes back once anything about the file was changed: between
        two equal results for a path it named the same, unchanged file. */
    ghost predicate Steady() {
      forall p, t, u, v :: t <= u <= v && names(p, t).Some? && names(p, t) == names(p, v) ==>
        names(p, u) == names(p, t) && At(names(p, t).value, u) == At(names(p, t).value, t)
    }

    /** Nor does it ever stand for two contents. */
    ghost predicate Distinct() {
      forall p, t, q, u :: names(p, t).Some? && names(p, t) == names(q, u) ==> At(names(p, t).value, t) == At(names(q, u).value, u)
    }
  }

  /** A digest in the cache belongs to a content that was once seen under the key. */
  ghost predicate Witnessed(h: History, hash: Bytes -> string, key: Stat, digest: string) {
    exists p, t :: h.names(p, t) == Some(key) && digest == hash(h.At(key, t))
  }

  /** With the same stat before and after, the file was one unchanged file throughout. */
  lemma UntornRead(h: History, p: Path, start: nat, open: nat, end: nat, before: Stat)
    requires h.Steady() && start <= open <= end
    requires h.names(p, start) == Some(before) && h.names(p, end) == Some(before)
    ensures h.names(p, open) == Some(before)
    ensures forall u :: start <= u <= end ==> h.At(before, u) == h.At(before, start)
  {
    forall u | start <= u <= end ensures h.names(p, u) == Some(before) && h.At(before, u) == h.At(before, start) {
    }
  }

  /** The digest of the whole content at this moment, with size and time. */
  ghost predicate IsFingerprint(h: History, hash: Bytes -> string, p: Path, t: nat, fp: SyncState.Fingerprint) {
    h.names(p, t).Some? &&
    var s := h.names(p, t).value;
    fp == SyncState.Fingerprint(hash(h.At(s, t)), s.size, s.mtimeNs, None)
  }

  /** So a file that nobody touches always gets its fingerprint. */
  lemma UntouchedIsNeverMissed(h: History, p: Path, from: nat, to: nat)
    requires from <= to && h.names(p, from).Some? && forall u :: from <= u <= to ==> h.names(p, u) == h.names(p, from)
    ensures !ChangedTwice(h, p, from, to)
  {
  }

  /** The path did not show the same stat throughout. */
  ghost predicate Changed(h: History, p: Path, from: nat, to: nat) {
    exists t, u :: from <= t <= u <= to && h.names(p, t) != h.names(p, u)
  }

  ghost predicate ChangedTwice(h: History, p: Path, from: nat, to: nat) {
    exists mid :: from <= mid <= to && Changed(h, p, from, mid) && Changed(h, p, mid, to)
  }

  class Cache {
    const history: History
    const hash: Bytes -> string
    var entries: map<Stat, string>

    constructor (history: History, hash: Bytes -> string)
      requires history.Valid() && history.Steady() && history.Distinct()
      ensures Valid() && this.history == history && this.hash == hash
    {
      this.history, this.hash, entries := history, hash, map[];
    }

    ghost predicate Valid()
      reads this
    {
      && history.Valid() && history.Steady() && history.Distinct()
      && |entries| <= MAX_ENTRIES
      && forall key :: key in entries ==> Witnessed(history, hash, key, entries[key])
    }

    /** Other threads use the cache whenever its lock is free. */
    method OtherThreads()
      requires Valid()
      modifies this`entries
      ensures Valid()
    {
      if * {
        entries := map[];
      }
    }

    /** Some time passes. */
    method Later(now: nat) returns (t: nat)
      ensures t >= now
    {
      t := *;
      if t < now {
        t := now;
      }
    }

    /** Read the opened file to its end, block by block, while it may change under the
        reader. If it did not change, what was read is its content. */
    method ReadAll(handle: Stat, now: nat) returns (data: Bytes, t: nat)
      requires history.Valid()
      ensures t >= now
      ensures (forall u :: now <= u <= t ==> history.At(handle, u) == history.At(handle, now)) ==> data == history.At(handle, now)
    {
      data, t := [], now;
      while true
        invariant t >= now && |data| <= history.capacity
        invariant (forall u :: now <= u <= t ==> history.At(handle, u) == history.At(handle, now)) ==>
                    |data| <= |history.At(handle, now)| && data == history.At(handle, now)[..|data|]
        decreases history.capacity - |data|
      {
        t := Later(t);
        var content := history.At(handle, t);
        if |content| <= |data| {
          return;
        }
        var size: int := *;
        if size <= 0 || |data| + size > |content| {
          size := |content| - |data|;
        }
        data := data + content[|data|..|data| + size];
      }
    }

    /** One look: stat, cached digest or read, stat again. Without a result the path is no
        file at the end (`gone`), or it changed. A second stat that fails ends it, one that
        finds something else than a file does not. */
    method Attempt(p: Path, now: nat) returns (r: Option<SyncState.Fingerprint>, gone: bool, end: nat)
      requires Valid()
      modifies this`entries
      ensures Valid() && end >= now
      ensures r.Some? ==> IsFingerprint(history, hash, p, end, r.value) && !gone
      ensures r.None? ==> if gone then history.names(p, end).None? else Changed(history, p, now, end)
    {
      var t := Later(now);
      var start := t;
      var seen := history.names(p, start);
      if seen.None? {
        return None, true, t;
      }
      var before := seen.value;
      OtherThreads();
      var cached := if before in entries then Some(entries[before]) else None;
      if cached.Some? {
        t := Later(t);
        if history.names(p, t).None? {
          if * {
            return None, true, t;
          }
        }
        if history.names(p, t) == Some(before) {
          CachedIsTrue(history, hash, before, cached.value, p, t);
          return Some(SyncState.Fingerprint(cached.value, before.size, before.mtimeNs, None)), false, t;
        }
      }
      t := Later(t);
      var handle := history.names(p, t);
      if handle.None? {
        return None, true, t;
      }
      ghost var open := t;
      var data;
      data, t := ReadAll(handle.value, t);
      var digest := hash(data);
      t := Later(t);
      if history.names(p, t).None? {
        if * {
          return None, true, t;
        }
      }
      if history.names(p, t) == Some(before) {
        UntornRead(history, p, start, open, t, before);
        OtherThreads();
        Store(before, digest);
        return Some(SyncState.Fingerprint(digest, before.size, before.mtimeNs, None)), false, t;
      }
      r, gone, end := None, false, t;
    }

    /** The fingerprint of a path, or None when it is no regular file or keeps changing. */
    method Fingerprint(p: Path, now: nat) returns (r: Option<SyncState.Fingerprint>, ghost end: nat)
      requires Valid()
      modifies this`entries
      ensures Valid() && end >= now
      ensures r.Some? ==> IsFingerprint(history, hash, p, end, r.value)
      // without a result the path is no file at the end, or it changed twice
      ensures r.None? ==> history.names(p, end).None? || ChangedTwice(history, p, now, end)
    {
      hide IsFingerprint, Changed, Valid;
      var t := now;
      for attempt := 0 to 2
        invariant Valid() && t >= now
        invariant attempt == 0 ==> t == now
        invariant attempt == 1 ==> Changed(history, p, now, t)
        invariant attempt == 2 ==> ChangedTwice(history, p, now, t)
      {
        var gone;
        r, gone, t := Attempt(p, t);
        if r.Some? || gone {
          return r, t;
        }
      }
      return None, t;
    }

    method Store(key: Stat, digest: string)
      requires Valid() && Witnessed(history, hash, key, digest)
      modifies this`entries
      ensures Valid() && key in entries && entries[key] == digest
      // everything else is forgotten at 50000 entries, and not before
      ensures entries.Keys == (if |old(entries)| < 50000 then old(entries).Keys else {}) + {key}
      ensures forall k :: k in entries && k != key ==> k in old(entries) && entries[k] == old(entries)[k]
    {
      hide Witnessed, History.Valid, History.Steady, History.Distinct;
      if |entries| >= MAX_ENTRIES {
        entries := map[];
      }
      entries := entries[key := digest];
    }
  }

  /** The cached digest of a key is the digest of whatever a path shows under that key. */
  lemma CachedIsTrue(h: History, hash: Bytes -> string, key: Stat, digest: string, p: Path, t: nat)
    requires h.Distinct() && Witnessed(h, hash, key, digest) && h.names(p, t) == Some(key)
    ensures digest == hash(h.At(key, t))
  {
    var q, u :| h.names(q, u) == Some(key) && digest == hash(h.At(key, u));
  }
}
