/** The baseline, observation and pending tables of one client, and the two
    operations that give local content a version. */
module SyncState {
  import opened CausalVersions

  type Path = string

  /** An empty digest marks a tombstone. */
  datatype Fingerprint = Fingerprint(digest: string, size: int, mtimeNs: int, causal: Option<Clock>) {
    predicate IsTombstone() {
      digest == ""
    }
  }

  /** What a look at the disk shows: None when there is no regular file. */
  datatype Seen = Seen(digest: string, size: int, mtimeNs: int)

  datatype Observation = Observation(seen: Option<Seen>, causal: Option<Clock>)

  const DELETED_ENTRY := Fingerprint("", -1, -1, None)

  /** A clock read back from its text column: the empty clock is written as the
      empty text, which reads back as "no clock". */
  function Stored(c: Option<Clock>): (r: Option<Clock>) {
    if c == Some(map[]) then None else c
  }

  function SeenOf(fp: Option<Fingerprint>): Option<Seen> {
    match fp
    case None => None
    case Some(f) => Some(Seen(f.digest, f.size, f.mtimeNs))
  }

  /** The version of what is on disk now: kept while the content is the one last
      observed, otherwise a new change of this device on top of everything known. */
  function ObservedVersion(base: Option<Clock>, row: Option<Observation>, seen: Option<Seen>, device: Device): Option<Clock>
    requires device != ""
  {
    if row.Some? && row.value.seen == seen then
      row.value.causal
    else
      Some(Increment(Merge(if base.Some? then base.value else map[],
                           if row.Some? then row.value.causal else None), device))
  }

  /** The version a record carries: the fingerprint's own, else the one supplied. */
  function RecordedVersion(fp: Option<Fingerprint>, supplied: Option<Clock>): Option<Clock> {
    Stored(if fp.Some? && fp.value.causal.Some? then fp.value.causal else supplied)
  }

  function RecordedEntry(fp: Option<Fingerprint>, supplied: Option<Clock>): Fingerprint {
    match fp
    case None => DELETED_ENTRY.(causal := RecordedVersion(fp, supplied))
    case Some(f) =>
      if f.digest == "" then DELETED_ENTRY.(causal := RecordedVersion(fp, supplied))
      else f.(causal := RecordedVersion(fp, supplied))
  }

  /** The observation after a record: re-labelled only when the recorded content is
      exactly the observed content and a version is known. It replaces, never merges. */
  function RelabelledObservation(row: Observation, fp: Option<Fingerprint>, supplied: Option<Clock>): Observation {
    var given := if fp.Some? && fp.value.causal.Some? then fp.value.causal else supplied;
    if given.Some? && row.seen == SeenOf(fp) then row.(causal := Stored(given)) else row
  }

  function SuppliedFor(supplied: map<Path, Option<Clock>>, p: Path): Option<Clock> {
    if p in supplied then supplied[p] else None
  }

  /** The durable queue of paths to push. The empty path, the mark for a full sweep, is
      filtered out and so never durable. */
  function Queued(pending: set<Path>, paths: set<Path>): set<Path> {
    pending + (paths - {""})
  }

  function Unqueued(pending: set<Path>, paths: set<Path>): set<Path> {
    pending - (paths - {""})
  }

  class SyncStateStore {
    const device: Device
    var entry: map<Path, Fingerprint>
    var observation: map<Path, Observation>
    var pending: set<Path>

    constructor (device: Device)
      requires device != ""
      ensures this.device == device
      ensures entry == map[] && observation == map[] && pending == {}
    {
      this.device := device;
      entry, observation, pending := map[], map[], {};
    }

    function BaseClock(p: Path): Option<Clock>
      reads this`entry
    {
      if p in entry then Stored(entry[p].causal) else None
    }

    function Row(p: Path): Option<Observation>
      reads this`observation
    {
      if p in observation then Some(observation[p]) else None
    }

    /** `disk` is what the content fingerprint of the path shows at this moment. */
    method LocalFingerprint(p: Path, disk: Option<Fingerprint>) returns (r: Option<Fingerprint>)
      requires device != ""
      modifies this`observation
      ensures r.Some? <==> disk.Some?
      ensures var version := old(ObservedVersion(BaseClock(p), Row(p), SeenOf(disk), device));
              && (r.Some? ==> r.value == disk.value.(causal := version))
              && observation == old(observation)[p := Observation(SeenOf(disk), version)]
      ensures Row(p).value.seen == SeenOf(disk)
    {
      var seen := SeenOf(disk);
      var row := Row(p);
      var version: Option<Clock>;
      if row.Some? && row.value.seen == seen {
        version := row.value.causal;
        assert observation[p := Observation(seen, version)] == observation;
      } else {
        var base := BaseClock(p);
        var previous := if row.Some? then row.value.causal else None;
        var start: Clock := if base.Some? then base.value else map[];
        version := Some(Increment(Merge(start, previous), device));
        observation := observation[p := Observation(seen, version)];
      }
      r := if disk.None? then None else Some(disk.value.(causal := version));
    }

    /** One transaction for a whole batch. */
    method RecordFingerprints(fps: map<Path, Option<Fingerprint>>, supplied: map<Path, Option<Clock>>)
      modifies this`entry, this`observation
      ensures entry.Keys == old(entry).Keys + fps.Keys
      ensures forall p :: p in fps ==> entry[p] == RecordedEntry(fps[p], SuppliedFor(supplied, p))
      ensures forall p :: p in old(entry) && p !in fps ==> entry[p] == old(entry)[p]
      ensures observation.Keys == old(observation).Keys
      ensures forall p :: p in observation ==>
                observation[p] == if p in fps then RelabelledObservation(old(observation)[p], fps[p], SuppliedFor(supplied, p))
                                  else old(observation)[p]
    {
      hide RecordedEntry, RelabelledObservation, SuppliedFor;
      var todo := fps.Keys;
      while todo != {}
        invariant todo <= fps.Keys
        invariant entry.Keys == old(entry).Keys + (fps.Keys - todo)
        invariant forall p :: p in fps && p !in todo ==> entry[p] == RecordedEntry(fps[p], SuppliedFor(supplied, p))
        invariant forall p :: p in old(entry) && (p !in fps || p in todo) ==> entry[p] == old(entry)[p]
        invariant observation.Keys == old(observation).Keys
        invariant forall p :: p in observation ==>
                    observation[p] == if p in fps && p !in todo then RelabelledObservation(old(observation)[p], fps[p], SuppliedFor(supplied, p))
                                      else old(observation)[p]
        decreases todo
      {
        var p :| p in todo;
        todo := todo - {p};
        entry := entry[p := RecordedEntry(fps[p], SuppliedFor(supplied, p))];
        if p in observation {
          observation := observation[p := RelabelledObservation(observation[p], fps[p], SuppliedFor(supplied, p))];
        }
      }
    }

    method MarkPending(paths: set<Path>)
      modifies this`pending
      ensures pending == Queued(old(pending), paths)
      ensures old(pending) <= pending && ("" in pending ==> "" in old(pending))
    {
      pending := Queued(pending, paths);
    }

    method ClearPending(paths: set<Path>)
      modifies this`pending
      ensures pending == Unqueued(old(pending), paths)
    {
      pending := Unqueued(pending, paths);
    }
  }

  /** Looking twice at unchanged content gives the same version. */
  lemma ObservationIsStable(base: Option<Clock>, base': Option<Clock>, row: Option<Observation>, seen: Option<Seen>, device: Device)
    requires device != ""
    ensures var version := ObservedVersion(base, row, seen, device);
            ObservedVersion(base', Some(Observation(seen, version)), seen, device) == version
  {
  }

  /* ---- the tables, in terms of what goes in ---- */

  function WithoutEmpty(clock: Option<Clock>): Option<Clock> {
    if clock.Some? && clock.value == map[] then None else clock
  }

  /** A recorded entry: the content as given, a deletion for none, and the clock of the
      fingerprint itself before the one supplied with it. */
  lemma EntryExactly(fp: Option<Fingerprint>, supplied: Option<Clock>)
    ensures var entry := RecordedEntry(fp, supplied);
            && (if fp.Some? && fp.value.digest != ""
                then entry.digest == fp.value.digest && entry.size == fp.value.size && entry.mtimeNs == fp.value.mtimeNs
                else entry.digest == "" && entry.size == -1 && entry.mtimeNs == -1)
            && (fp.Some? && fp.value.causal.Some? ==> entry.causal == WithoutEmpty(fp.value.causal))
            && (fp.None? || fp.value.causal.None? ==> entry.causal == WithoutEmpty(supplied))
  {
  }

  /** The version of what is seen on the disk, counter by counter: as observed before if it
      is the same, else the larger of base and last observation, and one own change more. */
  lemma VersionExactly(base: Option<Clock>, row: Option<Observation>, seen: Option<Seen>, device: Device, d: Device)
    requires device != ""
    ensures var version := ObservedVersion(base, row, seen, device);
            if row.Some? && row.value.seen == seen then version == row.value.causal
            else
              var known := if base.Some? then Counter(base.value, d) else 0;
              var last := if row.Some? && row.value.causal.Some? then Counter(row.value.causal.value, d) else 0;
              version.Some? && Counter(version.value, d) == (if known > last then known else last) + if d == device then 1 else 0
  {
  }

  /** A record relabels the observation exactly when it comes with a clock and is of the
      very content that was observed; the clock is then replaced, not merged. */
  lemma RelabelExactly(row: Observation, fp: Option<Fingerprint>, supplied: Option<Clock>)
    ensures var after := RelabelledObservation(row, fp, supplied);
            var given := if fp.Some? && fp.value.causal.Some? then fp.value.causal else supplied;
            var same := if fp.Some? then row.seen == Some(Seen(fp.value.digest, fp.value.size, fp.value.mtimeNs)) else row.seen == None;
            && after.seen == row.seen
            && after.causal == if given.Some? && same then WithoutEmpty(given) else row.causal
  {
  }
}
