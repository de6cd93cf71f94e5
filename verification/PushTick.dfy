/** One push tick: the resolved paths cut into chunks, the budget of NAS deletions, and
    the one-slot store for a journal payload that could not be delivered. What happens
    inside a chunk is left open; only its effect on these three is kept. */
module PushTick {
  import opened CausalVersions
  import PushChunk
  import opened SyncState
  import opened Text

  const PUSH_CHUNK_SIZE := 100
  const STAGING_CHUNK_SIZE := 500

  /* ---- chunks ---- */

  function Chunked(items: seq<Path>, size: nat): (chunks: seq<seq<Path>>)
    requires size > 0
    ensures forall i :: 0 <= i < |chunks| ==> 0 < |chunks[i]| <= size
    ensures forall i :: 0 <= i < |chunks| - 1 ==> |chunks[i]| == size
    ensures Joined(chunks) == items
  {
    if items == [] then []
    else if |items| <= size then [items]
    else
      assert items == items[..size] + items[size..];
      [items[..size]] + Chunked(items[size..], size)
  }

  function Joined(chunks: seq<seq<Path>>): seq<Path> {
    if chunks == [] then [] else chunks[0] + Joined(chunks[1..])
  }

  lemma NothingJoined()
    ensures Joined([]) == []
  {
  }

  lemma {:induction false} JoinedAppend(chunks: seq<seq<Path>>, more: seq<seq<Path>>)
    ensures Joined(chunks + more) == Joined(chunks) + Joined(more)
  {
    if chunks == [] {
      assert chunks + more == more;
    } else {
      JoinedAppend(chunks[1..], more);
      assert (chunks + more)[1..] == chunks[1..] + more;
    }
  }

  lemma JoinedOneMore(chunks: seq<seq<Path>>, i: nat)
    requires i < |chunks|
    ensures Joined(chunks[..i + 1]) == Joined(chunks[..i]) + chunks[i]
  {
    JoinedAppend(chunks[..i], [chunks[i]]);
    assert chunks[..i + 1] == chunks[..i] + [chunks[i]];
    assert Joined([chunks[i]]) == chunks[i] + Joined([]);
  }

  lemma {:induction false} ChunksFit(chunks: seq<seq<Path>>, i: nat)
    requires i < |chunks|
    ensures |Joined(chunks[..i + 1])| == |Joined(chunks[..i])| + |chunks[i]| <= |Joined(chunks)|
  {
    JoinedAppend(chunks[..i + 1], chunks[i + 1..]);
    assert chunks == chunks[..i + 1] + chunks[i + 1..];
    JoinedOneMore(chunks, i);
  }

  lemma {:induction false} ChunksAscend(chunks: seq<seq<Path>>, i: nat)
    requires i < |chunks| && Ascending(Joined(chunks))
    ensures Ascending(chunks[i])
  {
    var rest := Joined(chunks[1..]);
    assert Joined(chunks) == chunks[0] + rest;
    assert forall k :: 0 <= k < |rest| ==> rest[k] == Joined(chunks)[|chunks[0]| + k];
    assert forall k :: 0 <= k < |chunks[0]| ==> chunks[0][k] == Joined(chunks)[k];
    if i > 0 {
      ChunksAscend(chunks[1..], i - 1);
    }
  }

  function Elements(items: seq<Path>): set<Path> {
    set i | 0 <= i < |items| :: items[i]
  }

  lemma TailAscends(a: seq<Path>)
    requires Ascending(a) && a != []
    ensures Ascending(a[1..])
    ensures forall x :: x in a[1..] <==> x in a && x != a[0]
  {
    assert forall i :: 0 <= i < |a| - 1 ==> a[1..][i] == a[i + 1];
    forall x | x in a && x != a[0] ensures x in a[1..] {
      var i :| 0 <= i < |a| && a[i] == x;
      assert a[1..][i - 1] == x;
    }
  }

  /** A set has one ascending enumeration: sorting a chunk again gives the chunk. */
  lemma {:induction false} AscendingIsUnique(a: seq<Path>, b: seq<Path>)
    requires Ascending(a) && Ascending(b) && forall x :: x in a <==> x in b
    ensures a == b
  {
    assert (b != [] ==> b[0] in b) && (a != [] ==> a[0] in a);
    if a != [] && b != [] {
      assert a[0] in b && b[0] in a;
      AtMostIsTotalOrder(a[0], b[0], a[0]);
      assert a[0] == b[0];
      TailAscends(a);
      TailAscends(b);
      AscendingIsUnique(a[1..], b[1..]);
      assert a == [a[0]] + a[1..] && b == [b[0]] + b[1..];
    }
  }

  lemma SortedAgain(items: seq<Path>)
    requires Ascending(items)
    ensures Sorted(Elements(items)) == items
  {
    AscendingIsUnique(Sorted(Elements(items)), items);
  }

  function Filtered(items: seq<Path>, keep: Path -> bool): (r: seq<Path>)
    ensures |r| <= |items|
    ensures forall x :: x in r <==> x in items && keep(x)
  {
    if items == [] then [] else (if keep(items[0]) then [items[0]] else []) + Filtered(items[1..], keep)
  }

  lemma {:induction false} FilteredAscends(items: seq<Path>, keep: Path -> bool)
    requires Ascending(items)
    ensures Ascending(Filtered(items, keep))
  {
    if items != [] {
      FilteredAscends(items[1..], keep);
      var rest := Filtered(items[1..], keep);
      forall k | 0 <= k < |rest| ensures AtMost(items[0], rest[k]) && items[0] != rest[k] {
        assert rest[k] in items[1..];
      }
    }
  }

  /** Every path is in exactly one of the two lists, as often as before. */
  lemma {:induction false} SplitIsPartition(items: seq<Path>, keep: Path -> bool)
    ensures multiset(Filtered(items, keep)) + multiset(Filtered(items, x => !keep(x))) == multiset(items)
  {
    if items != [] {
      SplitIsPartition(items[1..], keep);
      assert items == [items[0]] + items[1..];
    }
  }

  /** `int(setting or 1000)`: an unset limit and a limit of 0 both mean 1000. */
  function MaxDeletes(setting: Option<int>): int {
    if setting.None? || setting.value == 0 then 1000 else setting.value
  }

  /** The most NAS files a tick may delete: 1000 unless a number is set, none for a
      negative one. */
  function Allowed(setting: Option<int>): nat {
    match setting
    case None => 1000
    case Some(n) => if n == 0 then 1000 else if n < 0 then 0 else n
  }

  lemma LimitExactly(setting: Option<int>, deleted: nat)
    ensures deleted == 0 || deleted <= MaxDeletes(setting) <==> deleted <= Allowed(setting)
    ensures MaxDeletes(setting) == match setting
                                   case None => 1000
                                   case Some(n) => if n == 0 then 1000 else n
  {
  }

  /* ---- the reply to a checked delete ---- */

  /** A truthful server answers for each request in order, and reports DELETED for exactly
      what it deleted. */
  ghost predicate Truthful(requests: seq<Path>, reply: seq<string>, deleted: set<Path>)
    requires |reply| == 2 * |requests|
  {
    forall i :: 0 <= i < |requests| ==> reply[2 * i] == requests[i] && (requests[i] in deleted <==> reply[2 * i + 1] == "DELETED")
  }

  /** What the client makes of a reply of the right length: the paths and statuses in it. */
  method ParseReply(count: nat, reply: seq<string>) returns (ok: bool, completed: set<Path>)
    requires |reply| == 2 * count
    ensures ok <==> forall i :: 0 <= i < count ==> reply[2 * i + 1] in {"DELETED", "ABSENT", "STALE"}
    ensures ok ==> completed == set i | 0 <= i < count && reply[2 * i + 1] != "STALE" :: reply[2 * i]
    ensures completed <= set i | 0 <= i < count :: reply[2 * i]
  {
    completed := {};
    for index := 0 to count
      invariant forall i :: 0 <= i < index ==> reply[2 * i + 1] in {"DELETED", "ABSENT", "STALE"}
      invariant completed == set i | 0 <= i < index && reply[2 * i + 1] != "STALE" :: reply[2 * i]
    {
      var path, status := reply[2 * index], reply[2 * index + 1];
      if status == "DELETED" || status == "ABSENT" {
        completed := completed + {path};
      } else if status != "STALE" {
        return false, completed;
      }
    }
    ok := true;
  }

  /** The server: any reply, or none, as long as a complete one is truthful. Whatever it
      says, it deletes requested paths only. */
  method ServerDeletes(requests: seq<Path>) returns (reply: seq<string>, ghost deleted: set<Path>)
    requires Ascending(requests)
    ensures deleted <= Elements(requests)
    ensures |reply| == 2 * |requests| ==> Truthful(requests, reply, deleted)
  {
    reply := *;
    deleted := *;
    if |reply| == 2 * |requests| && forall i :: 0 <= i < |requests| ==> reply[2 * i] == requests[i] {
      deleted := set i | 0 <= i < |requests| && reply[2 * i + 1] == "DELETED" :: requests[i];
    } else {
      if |reply| == 2 * |requests| {
        reply := reply + [""];
      }
      deleted := deleted * Elements(requests);
    }
  }

  lemma ElementsAreFew(items: seq<Path>)
    ensures |Elements(items)| <= |items|
  {
    if items != [] {
      var n := |items| - 1;
      ElementsAreFew(items[..n]);
      assert Elements(items) == Elements(items[..n]) + {items[n]};
    }
  }

  /* ---- the worker ---- */

  /** A chunk handed to the staging protocol or processed under one lease; `tried`: staging
      was tried for it. */
  datatype Leaf = Leaf(paths: seq<Path>, staged: bool, tried: bool)

  function PathsOf(leaves: seq<Leaf>): seq<Path> {
    if leaves == [] then [] else PathsOf(leaves[..|leaves| - 1]) + leaves[|leaves| - 1].paths
  }

  /** A leaf as it should be: small under a lease, only staging has more; staging was tried
      for new files only, and for all of them. */
  ghost predicate LeafOk(leaf: Leaf, isCandidate: Path -> bool) {
    && |leaf.paths| <= (if leaf.staged then STAGING_CHUNK_SIZE else PUSH_CHUNK_SIZE)
    && (leaf.staged ==> leaf.tried)
    && forall p :: p in leaf.paths ==> (leaf.tried <==> isCandidate(p))
  }

  ghost predicate LeavesOk(leaves: seq<Leaf>, isCandidate: Path -> bool) {
    forall leaf :: leaf in leaves ==> LeafOk(leaf, isCandidate)
  }

  /** All of one kind. */
  ghost predicate Uniform(paths: seq<Path>, isCandidate: Path -> bool, candidates: bool) {
    forall p :: p in paths ==> (isCandidate(p) <==> candidates)
  }

  lemma UniformChunks(chunks: seq<seq<Path>>, isCandidate: Path -> bool, candidates: bool, i: nat)
    requires Uniform(Joined(chunks), isCandidate, candidates) && i < |chunks|
    ensures Uniform(chunks[i], isCandidate, candidates)
  {
    if i == 0 {
      assert forall p :: p in chunks[0] ==> p in Joined(chunks);
    } else {
      assert forall p :: p in Joined(chunks[1..]) ==> p in Joined(chunks);
      UniformChunks(chunks[1..], isCandidate, candidates, i - 1);
    }
  }

  lemma OneMoreLeaf(leaves: seq<Leaf>, leaf: Leaf, isCandidate: Path -> bool)
    requires LeavesOk(leaves, isCandidate) && LeafOk(leaf, isCandidate)
    ensures PathsOf(leaves + [leaf]) == PathsOf(leaves) + leaf.paths
    ensures LeavesOk(leaves + [leaf], isCandidate)
  {
    assert (leaves + [leaf])[..|leaves|] == leaves;
  }

  /** Nothing in the journal overtook a saved payload. */
  ghost predicate InOrder(log: seq<nat>, saved: set<nat>) {
    forall i, k :: 0 <= i < |log| && k in saved && k < log[i] ==> k in log[..i]
  }

  lemma AcceptedInOrder(log: seq<nat>, saved: set<nat>, payload: nat)
    requires InOrder(log, saved) && forall k :: k in saved && k < payload ==> k in log
    ensures InOrder(log + [payload], saved)
  {
    var more := log + [payload];
    forall i, k | 0 <= i < |more| && k in saved && k < more[i] ensures k in more[..i] {
      assert more[..i] == log[..i];
      if i == |log| {
        assert log[..i] == log;
      }
    }
  }

  lemma SavedInOrder(log: seq<nat>, saved: set<nat>, payload: nat)
    requires InOrder(log, saved) && forall k :: k in log ==> k <= payload
    ensures InOrder(log, saved + {payload})
  {
    forall i, k | 0 <= i < |log| && k in saved + {payload} && k < log[i] ensures k in log[..i] {
      assert log[i] in log;
    }
  }

  lemma GivenUpInOrder(log: seq<nat>, saved: set<nat>, dropped: set<nat>, payload: nat)
    requires InOrder(log, saved - dropped)
    ensures InOrder(log, saved - (dropped + {payload}))
  {
    forall i, k | 0 <= i < |log| && k in saved - (dropped + {payload}) && k < log[i] ensures k in log[..i] {
      assert k in saved - dropped;
    }
  }

  lemma NoLeaves(isCandidate: Path -> bool)
    ensures LeavesOk([], isCandidate) && PathsOf([]) == []
  {
  }

  lemma LeavesAre(leaves: seq<Leaf>, isCandidate: Path -> bool)
    requires LeavesOk(leaves, isCandidate)
    ensures forall leaf :: leaf in leaves ==> |leaf.paths| <= if leaf.staged then 500 else 100
    ensures forall leaf, p :: leaf in leaves && p in leaf.paths ==> (leaf.tried <==> isCandidate(p)) && (leaf.staged ==> isCandidate(p))
  {
    forall leaf | leaf in leaves ensures LeafOk(leaf, isCandidate) {
    }
  }

  /** How a chunk ends: whole, at the limit, or by a failure outside. */
  predicate Ended(ok: bool, limitHit: bool, failedBefore: bool, failed: bool) {
    (ok ==> failed == failedBefore && !limitHit) && (ok || limitHit || failed)
  }

  lemma FilteredIsUniform(items: seq<Path>, isCandidate: Path -> bool)
    ensures Uniform(Filtered(items, isCandidate), isCandidate, true)
    ensures Uniform(Filtered(items, p => !isCandidate(p)), isCandidate, false)
  {
  }

  class PushLoop {
    var next: nat             // the stamp of the next journal payload; never reused
    var slot: Option<nat>     // the payload on disk, waiting to be delivered
    const supported: bool     // the server knows the append command
    ghost var saved: set<nat> // every payload ever put in the slot
    ghost var log: seq<nat>   // what the NAS journal accepted, in order
    ghost var dropped: set<nat> // payloads given up because the server does not know the command
    ghost var leaves: seq<Leaf>
    ghost var removed: nat    // NAS files deleted in this tick
    ghost var failed: bool    // something outside has failed in this tick: the network, the NAS, a transfer

    constructor (supported: bool)
      ensures Valid() && removed == 0 && slot.None? && this.supported == supported
    {
      this.supported := supported;
      next, slot, saved, log, dropped, leaves, removed, failed := 0, None, {}, [], {}, [], 0, false;
    }

    /** No saved payload is ever overwritten undelivered, and none is overtaken: whenever
        the journal accepts a payload, every earlier saved one has been accepted. Only a
        server without the command makes exceptions. */
    ghost predicate Valid()
      reads this
    {
      && (slot.Some? ==> slot.value in saved)
      && (forall k :: k in saved ==> k < next && (k in log || slot == Some(k) || k in dropped))
      && (forall k :: k in log ==> k < next)
      && (forall k :: k in dropped ==> k < next)
      && (supported ==> dropped == {})
      && InOrder(log, saved - dropped)
    }

    /** Nothing undelivered is waiting. */
    ghost predicate Clear()
      reads this
    {
      slot.Some? ==> slot.value in log || slot.value in dropped
    }

    /** The first thing a tick does. The reply may be lost after the server accepted, and
        the file may survive its removal. A server without the command answers so, and the
        payload is given up. */
    method RetryPending() returns (ok: bool, ghost kept: bool)
      requires Valid()
      modifies this`slot, this`log, this`dropped, this`failed
      ensures Valid() && (ok ==> Clear())
      ensures failed == (old(failed) || !ok) && (old(slot).None? ==> ok && log == old(log) && dropped == old(dropped))
      // the file goes with its delivery, unless it cannot be removed
      ensures slot == if ok && !kept then None else old(slot)
      ensures old(Clear()) ==> Clear()
      ensures old(log) <= log && (ok && old(slot).Some? ==> old(slot).value in log || old(slot).value in dropped)
      ensures old(dropped) <= dropped
    {
      kept := false;
      if slot.None? {
        return true, kept;
      }
      if * {
        failed := true;
        return false, kept;
      }
      if !supported {
        GivenUpInOrder(log, saved, dropped, slot.value);
        dropped := dropped + {slot.value};
      } else {
        AcceptedInOrder(log, saved - dropped, slot.value);
        log := log + [slot.value];
        if * {
          failed := true;
          return false, kept;
        }
      }
      if * {
        kept := true;
      } else {
        slot := None;
      }
      ok := true;
    }

    /** One journal append of a finished chunk; on failure the payload is kept. A server
        without the command counts as success. */
    method AppendJournal(nothingToSend: bool) returns (ok: bool, ghost died: bool)
      requires Valid() && Clear()
      modifies this`next, this`slot, this`saved, this`log, this`dropped, this`failed
      ensures Valid() && (ok ==> Clear())
      ensures old(log) <= log && (ok && !nothingToSend ==> old(next) in log || old(next) in dropped)
      ensures old(dropped) <= dropped
      ensures if nothingToSend then ok && next == old(next) else next == old(next) + 1
      // one that was not accepted is on the disk, unless no payload could be built or the process died
      ensures slot == if !ok && !died then Some(old(next)) else old(slot)
      ensures failed == (old(failed) || !ok)
    {
      died := false;
      if nothingToSend {
        return true, died;
      }
      var payload := next;
      next := next + 1;
      if !supported {
        if * {
          GivenUpInOrder(log, saved, dropped, payload);
          dropped := dropped + {payload};
          return true, died;
        }
      } else if * {
        AcceptedInOrder(log, saved - dropped, payload);
        log := log + [payload];
        if * {
          return true, died;
        }
      }
      failed := true;
      if * {
        died := true;
        return false, died;
      }
      SavedInOrder(log, saved - dropped, payload);
      assert (saved + {payload}) - dropped == (saved - dropped) + {payload};
      slot, saved := Some(payload), saved + {payload};
      ok := false;
    }

    /** The conditional deletes of a chunk, against any reply of a truthful server. */
    method CheckedDelete(requests: seq<Path>) returns (ok: bool, completed: set<Path>, ghost reply: seq<string>, ghost deleted: set<Path>)
      requires Ascending(requests)
      modifies this`removed
      ensures removed == old(removed) + |deleted| && |deleted| <= |requests| && deleted <= Elements(requests)
      ensures ok ==> deleted <= completed <= Elements(requests) && |deleted| <= |completed| <= |requests|
      // every request answered, and with a known status
      ensures ok <==> |reply| == 2 * |requests| && forall i :: 0 <= i < |requests| ==> reply[2 * i + 1] in {"DELETED", "ABSENT", "STALE"}
      ensures ok ==> completed == set i | 0 <= i < |requests| && reply[2 * i + 1] != "STALE" :: reply[2 * i]
    {
      if requests == [] {
        return true, {}, [], {};
      }
      var answer;
      answer, deleted := ServerDeletes(requests);
      reply := answer;
      ElementsAreFew(requests);
      PushChunk.Fewer(deleted, Elements(requests));
      removed := removed + |deleted|;
      if |answer| != 2 * |requests| {
        return false, {}, reply, deleted;
      }
      ok, completed := ParseReply(|requests|, answer);
      if ok {
        assert completed <= Elements(requests);
        PushChunk.Fewer(completed, Elements(requests));
        forall p | p in deleted ensures p in completed {
          var i :| 0 <= i < |requests| && requests[i] == p;
        }
        PushChunk.Fewer(deleted, completed);
      }
    }

    /** One chunk. Staging may take it whole, refuse it, or fail; a large chunk that is
        not staged is cut again; what is left runs under the lease. */
    method RunChunk(paths: seq<Path>, maxDeletes: int, committed: nat, allowLarge: bool, tryStaging: bool, ghost isCandidate: Path -> bool)
      returns (ok: bool, count: nat, limitHit: bool)
      requires Valid() && Clear() && Ascending(paths) && |paths| <= STAGING_CHUNK_SIZE
      requires LeavesOk(leaves, isCandidate) && Uniform(paths, isCandidate, tryStaging)
      requires (allowLarge && tryStaging) || |paths| <= PUSH_CHUNK_SIZE
      modifies this
      decreases if allowLarge then 2 else 0
      ensures Valid() && (ok ==> Clear())
      ensures removed == old(removed) || committed + (removed - old(removed)) <= maxDeletes
      ensures removed >= old(removed)
      ensures ok ==> removed <= old(removed) + count && (count == 0 || committed + count <= maxDeletes)
      ensures Ended(ok, limitHit, old(failed), failed) && (limitHit ==> committed + |paths| > maxDeletes) && (ok ==> count <= |paths|)
      ensures ok ==> PathsOf(leaves) == PathsOf(old(leaves)) + paths
      ensures LeavesOk(leaves, isCandidate)
    {
      hide LeavesOk, PathsOf, InOrder, Ascending;
      count, limitHit, ok := 0, false, false;
      if tryStaging {
        if * {
          OneMoreLeaf(leaves, Leaf(paths, true, true), isCandidate);
          leaves := leaves + [Leaf(paths, true, true)];
          if * {
            return true, 0, false;
          }
          failed := true;
          return false, 0, false;
        }
      }
      if allowLarge && |paths| > PUSH_CHUNK_SIZE {
        ok, count, limitHit := RunFallback(paths, maxDeletes, committed, isCandidate);
        return;
      }
      OneMoreLeaf(leaves, Leaf(paths, false, tryStaging), isCandidate);
      leaves := leaves + [Leaf(paths, false, tryStaging)];
      if * {
        failed := true;
        return false, 0, false;
      }
      var doomed: set<Path> := *;
      var requests := Filtered(paths, p => p in doomed);
      FilteredAscends(paths, p => p in doomed);
      if committed + |requests| > maxDeletes {
        return false, 0, true;
      }
      var deletesOk, completed;
      ghost var reply, gone, died;
      deletesOk, completed, reply, gone := CheckedDelete(requests);
      count := |completed|;
      if !deletesOk {
        failed := true;
        return false, count, false;
      }
      var nothingToSend := *;
      ok, died := AppendJournal(nothingToSend);
    }

    method RunFallback(paths: seq<Path>, maxDeletes: int, committed: nat, ghost isCandidate: Path -> bool)
      returns (ok: bool, count: nat, limitHit: bool)
      requires Valid() && Clear() && Ascending(paths) && |paths| <= STAGING_CHUNK_SIZE
      requires LeavesOk(leaves, isCandidate) && Uniform(paths, isCandidate, true)
      modifies this
      decreases 1
      ensures Valid() && (ok ==> Clear())
      ensures removed == old(removed) || committed + (removed - old(removed)) <= maxDeletes
      ensures removed >= old(removed)
      ensures ok ==> removed <= old(removed) + count && (count == 0 || committed + count <= maxDeletes)
      ensures Ended(ok, limitHit, old(failed), failed) && (limitHit ==> committed + |paths| > maxDeletes) && (ok ==> count <= |paths|)
      ensures ok ==> PathsOf(leaves) == PathsOf(old(leaves)) + paths
      ensures LeavesOk(leaves, isCandidate)
    {
      hide Ascending, Joined, Chunked, PathsOf, LeavesOk, Uniform, Valid, Clear, InOrder, Sorted, Elements;
      ok, count, limitHit := true, 0, false;
      NothingJoined();
      SortedAgain(paths);  // the set of paths is sorted again: the same list
      var chunks := Chunked(paths, PUSH_CHUNK_SIZE);
      assert chunks[..0] == [];
      for i := 0 to |chunks|
        invariant ok && Valid() && Clear() && !limitHit && failed == old(failed) && count <= |Joined(chunks[..i])|
        invariant removed >= old(removed) && removed <= old(removed) + count
        invariant count == 0 || committed + count <= maxDeletes
        invariant PathsOf(leaves) == PathsOf(old(leaves)) + Joined(chunks[..i])
        invariant LeavesOk(leaves, isCandidate)
      {
        ChunksAscend(chunks, i);
        UniformChunks(chunks, isCandidate, true, i);
        JoinedOneMore(chunks, i);
        ChunksFit(chunks, i);
        var deleted;
        ok, deleted, limitHit := RunChunk(chunks[i], maxDeletes, committed + count, false, true, isCandidate);
        count := count + deleted;
        if !ok || limitHit {
          return;
        }
      }
      assert chunks[..|chunks|] == chunks;
    }

    /** The tick: staging candidates in large chunks, everything else in small ones. It
        stops at the first chunk that fails. */
    method Tick(ordered: seq<Path>, isCandidate: Path -> bool, setting: Option<int>) returns (ok: bool)
      requires Valid() && Ascending(ordered)
      modifies this
      ensures Valid()
      ensures removed <= Allowed(setting)
      // it stops for a failure outside, or at the limit; and never at the limit with no more paths than that
      ensures ok || failed || |ordered| > (if setting.None? || setting == Some(0) then 1000 else setting.value)
      ensures ok ==> !failed
      ensures ok ==> multiset(PathsOf(leaves)) == multiset(ordered) && Clear()
      ensures forall leaf :: leaf in leaves ==> |leaf.paths| <= if leaf.staged then 500 else 100
      // staging is tried for the candidates, and only for them
      ensures forall leaf, p :: leaf in leaves && p in leaf.paths ==> (leaf.tried <==> isCandidate(p)) && (leaf.staged ==> isCandidate(p))
    {
      hide LeavesOk, LeafOk, Uniform, Ascending, Joined, Chunked, PathsOf, Filtered, InOrder, MaxDeletes, Allowed;
      NoLeaves(isCandidate);
      removed, leaves, failed := 0, [], false;
      ghost var kept;
      ok, kept := RetryPending();
      if !ok {
        return;
      }
      var limit := MaxDeletes(setting);
      var candidates := Filtered(ordered, isCandidate);
      var others := Filtered(ordered, p => !isCandidate(p));
      SplitIsPartition(ordered, isCandidate);
      assert |candidates| + |others| == |multiset(candidates) + multiset(others)| == |ordered|;
      FilteredAscends(ordered, isCandidate);
      FilteredAscends(ordered, p => !isCandidate(p));
      FilteredIsUniform(ordered, isCandidate);
      var committed := 0;
      ok, committed := RunChunks(Chunked(candidates, STAGING_CHUNK_SIZE), STAGING_CHUNK_SIZE, true, limit, 0, isCandidate);
      if ok {
        ok, committed := RunChunks(Chunked(others, PUSH_CHUNK_SIZE), PUSH_CHUNK_SIZE, false, limit, committed, isCandidate);
      }
      LimitExactly(setting, removed);
      LeavesAre(leaves, isCandidate);
    }

    method RunChunks(chunks: seq<seq<Path>>, size: nat, tryStaging: bool, maxDeletes: int, before: nat, ghost isCandidate: Path -> bool)
      returns (ok: bool, committed: nat)
      requires Uniform(Joined(chunks), isCandidate, tryStaging) && LeavesOk(leaves, isCandidate)
      requires size <= (if tryStaging then STAGING_CHUNK_SIZE else PUSH_CHUNK_SIZE) && forall i :: 0 <= i < |chunks| ==> |chunks[i]| <= size
      requires Valid() && Clear() && Ascending(Joined(chunks)) && removed <= before && (before == 0 || before <= maxDeletes)
      modifies this
      ensures Valid() && (ok ==> Clear() && removed <= committed && (committed == 0 || committed <= maxDeletes))
      ensures removed == 0 || removed <= maxDeletes
      ensures ok ==> failed == old(failed) && committed <= before + |Joined(chunks)|
      ensures ok || failed || before + |Joined(chunks)| > maxDeletes
      ensures ok ==> PathsOf(leaves) == PathsOf(old(leaves)) + Joined(chunks)
      ensures LeavesOk(leaves, isCandidate)
    {
      ok, committed := true, before;
      assert chunks[..0] == [];
      for i := 0 to |chunks|
        invariant ok && Valid() && Clear() && removed <= committed && (committed == 0 || committed <= maxDeletes)
        invariant failed == old(failed) && committed <= before + |Joined(chunks[..i])|
        invariant PathsOf(leaves) == PathsOf(old(leaves)) + Joined(chunks[..i])
        invariant LeavesOk(leaves, isCandidate)
      {
        ChunksAscend(chunks, i);
        UniformChunks(chunks, isCandidate, tryStaging, i);
        JoinedOneMore(chunks, i);
        ChunksFit(chunks, i);
        var deleted, limitHit;
        ok, deleted, limitHit := RunChunk(chunks[i], maxDeletes, committed, true, tryStaging, isCandidate);
        if limitHit || !ok {
          return false, committed;
        }
        committed := committed + deleted;
      }
      assert chunks[..|chunks|] == chunks;
    }
  }
}
