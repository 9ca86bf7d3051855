/** The remote store the bridge's state is mirrored to (crates/vgi-bridge/src/appstate.rs): one counter
    for the namespace, conditional puts and deletes, tombstones, and two listing modes. `MemoryAppState`
    is the repository's own executable specification of it; `Remote` is its abstract value. */
module AppState {
  import opened Wrappers
  import opened Keys

  type Bytes = seq<bv8>

  /** A record's value: some JSON, a claim on the writer lease, or a secret sealed under a master key
      and bound to associated data. */
  datatype Value =
    | Json(text: string)
    | LeaseClaim(holder: string, until: int)
    | Sealed(key: string, aad: string, body: Bytes)

  /** The latest write of a key: the version it took and the value, or a tombstone. */
  datatype Entry = Entry(version: nat, value: Option<Value>)

  datatype ListingMode = Feed | Snapshot

  datatype Listing = Listing(records: map<Key, Entry>, watermark: nat, mode: ListingMode)

  datatype PutError = Conflict(current: Option<nat>) | Other

  // ---- The abstract store ----

  datatype Remote = Remote(counter: nat, records: map<Key, Entry>, reaped: bool)

  function LiveVersion(records: map<Key, Entry>, k: Key): Option<nat> {
    if k in records && records[k].value.Some? then Some(records[k].version) else None
  }

  function LiveValue(records: map<Key, Entry>, k: Key): Option<Value> {
    if k in records then records[k].value else None
  }

  /** Whether a write expecting `expected` applies over a record at `current`. */
  predicate Precondition(current: Option<nat>, expected: Option<nat>) {
    expected.None? || (expected == Some(0) && current.None?) || (current.Some? && expected == current)
  }

  function PutAt(s: Remote, k: Key, v: Value): Remote {
    s.(counter := s.counter + 1, records := s.records[k := Entry(s.counter + 1, Some(v))])
  }

  function DeleteAt(s: Remote, k: Key): Remote {
    if LiveVersion(s.records, k).None? then s
    else s.(counter := s.counter + 1, records := s.records[k := Entry(s.counter + 1, None)])
  }

  function Reap(s: Remote): Remote {
    s.(records := (map k | k in s.records && s.records[k].value.Some? :: s.records[k]), reaped := true)
  }

  function ListingOf(s: Remote): Listing {
    Listing(s.records, s.counter, if s.reaped then Snapshot else Feed)
  }

  /** A live record, and when it was written. */
  function LiveRecord(records: map<Key, Entry>, stamps: map<Key, int>, k: Key): (r: Option<(Entry, Option<int>)>)
    ensures r.Some? ==> r.value.0.value.Some?
    ensures LiveVersion(records, k) == if r.Some? then Some(r.value.0.version) else None
  {
    if LiveVersion(records, k).None? then None else Some((records[k], if k in stamps then Some(stamps[k]) else None))
  }

  /** A write attempt on the store's record of what happened to it: who made it, what it expected, the
      live record it found, and the version it took (none: it changed nothing). */
  datatype Op = Op(who: string, key: Key, expected: Option<nat>, was: Option<(Entry, Option<int>)>, took: Option<nat>,
                   deletion: bool)
  {
    function Found(): Option<nat> {
      if was.Some? then Some(was.value.0.version) else None
    }
  }

  class MemoryAppState {
    var counter: nat
    var records: map<Key, Entry>
    /** The store's own time of each key's latest write. */
    var stamps: map<Key, int>
    /** Puts per key. */
    var puts: map<Key, nat>
    var reaped: bool
    var down: bool
    ghost var log: seq<Op>

    constructor ()
      ensures State() == Remote(0, map[], false) && !down && log == []
      ensures stamps == map[] && puts == map[]
    {
      counter, records, stamps, puts, reaped, down := 0, map[], map[], map[], false, false;
      log := [];
    }

    function State(): Remote
      reads this
    {
      Remote(counter, records, reaped)
    }

    method List() returns (res: Result<Listing, ()>)
      ensures res == if down then Err(()) else Ok(ListingOf(State()))
      ensures !down ==> res == Ok(Listing(records, counter, if reaped then Snapshot else Feed))
    {
      if down {
        return Err(());
      }
      res := Ok(Listing(records, counter, if reaped then Snapshot else Feed));
    }

    method Get(k: Key) returns (res: Result<Option<(Entry, Option<int>)>, ()>)
      ensures down ==> res == Err(())
      ensures !down ==> res == Ok(LiveRecord(records, stamps, k))
      ensures !down ==> res.Ok?
      ensures !down && k in records && records[k].value.Some? ==>
        res.value.Some? && res.value.value.0 == records[k]
        && res.value.value.1 == if k in stamps then Some(stamps[k]) else None
      ensures !down && !(k in records && records[k].value.Some?) ==> res.value.None?
    {
      if down {
        return Err(());
      }
      if LiveVersion(records, k).None? {
        return Ok(None);
      }
      res := Ok(Some((records[k], if k in stamps then Some(stamps[k]) else None)));
    }

    method Put(k: Key, v: Value, expected: Option<nat>, now: int, ghost who: string) returns (res: Result<nat,
               PutError>)
      modifies this
      ensures down == old(down)
      ensures down ==> res == Err(Other) && log == old(log)
      ensures !down ==> (res.Ok? <==> expected.None? || old(if k in records && records[k].value.Some?
                                                            then expected == Some(records[k].version)
                                                            else expected == Some(0)))
      ensures res.Ok? ==>
        counter == old(counter) + 1 && records == old(records)[k := Entry(counter, Some(v))] && reaped == old(reaped)
      ensures res.Ok? ==> Precondition(old(LiveVersion(records, k)), expected) && State() == PutAt(old(State()), k, v)
                          && res.value == counter && stamps == old(stamps)[k := now]
      ensures res.Ok? ==> puts == old(puts)[k := if k in old(puts) then old(puts)[k] + 1 else 1]
      ensures res.Ok? ==>
        log == old(log) + [Op(who, k, expected, old(LiveRecord(records, stamps, k)), Some(counter), false)]
      ensures res.Err? ==> State() == old(State()) && stamps == old(stamps) && puts == old(puts)
      ensures !down && res.Err? ==>
                && !Precondition(old(LiveVersion(records, k)), expected)
                && res.error == Conflict(old(LiveVersion(records, k)))
                && log == old(log) + [Op(who, k, expected, old(LiveRecord(records, stamps, k)), None, false)]
    {
      if down {
        return Err(Other);
      }
      var current := LiveVersion(records, k);
      ghost var was := LiveRecord(records, stamps, k);
      if !Precondition(current, expected) {
        log := log + [Op(who, k, expected, was, None, false)];
        return Err(Conflict(current));
      }
      counter := counter + 1;
      records, stamps := records[k := Entry(counter, Some(v))], stamps[k := now];
      puts := puts[k := if k in puts then puts[k] + 1 else 1];
      log := log + [Op(who, k, expected, was, Some(counter), false)];
      res := Ok(counter);
    }

    method Delete(k: Key, expected: Option<nat>, now: int, ghost who: string) returns (res: Result<Option<nat>,
                  PutError>)
      modifies this
      ensures down == old(down) && puts == old(puts)
      ensures down ==> res == Err(Other) && log == old(log)
      ensures !down ==>
        (res.Err? <==> old(k in records && records[k].value.Some?
                           && expected.Some? && expected != Some(records[k].version)))
      ensures res.Ok? ==> reaped == old(reaped)
                          && if old(k in records && records[k].value.Some?)
                             then counter == old(counter) + 1 && records == old(records)[k := Entry(counter, None)]
                             else counter == old(counter) && records == old(records)
      ensures res.Ok? ==> State() == DeleteAt(old(State()), k)
      ensures res == Ok(None) ==> old(LiveVersion(records, k)).None? && State() == old(State()) && log == old(log)
      ensures res.Ok? && res.value.Some? ==>
                && old(LiveVersion(records, k)).Some? && Precondition(old(LiveVersion(records, k)), expected)
                && res.value.value == counter && stamps == old(stamps)[k := now]
                && log == old(log) + [Op(who, k, expected, old(LiveRecord(records, stamps, k)), Some(counter), true)]
      ensures res.Err? || res == Ok(None) ==> State() == old(State()) && stamps == old(stamps)
      ensures !down && res.Err? ==>
                && old(LiveVersion(records, k)).Some? && !Precondition(old(LiveVersion(records, k)), expected)
                && res.error == Conflict(old(LiveVersion(records, k)))
                && log == old(log) + [Op(who, k, expected, old(LiveRecord(records, stamps, k)), None, true)]
    {
      if down {
        return Err(Other);
      }
      var current := LiveVersion(records, k);
      if current.None? {
        return Ok(None);
      }
      ghost var was := LiveRecord(records, stamps, k);
      if !Precondition(current, expected) {
        log := log + [Op(who, k, expected, was, None, true)];
        return Err(Conflict(current));
      }
      counter := counter + 1;
      records, stamps := records[k := Entry(counter, None)], stamps[k := now];
      log := log + [Op(who, k, expected, was, Some(counter), true)];
      res := Ok(Some(counter));
    }

    /** The store's retention window passed: every tombstone is forgotten. */
    method ReapTombstones()
      modifies this
      ensures State() == Reap(old(State())) && stamps == old(stamps) && puts == old(puts)
      ensures forall k :: k in records <==> k in old(records) && old(records)[k].value.Some?
      ensures (forall k :: k in records ==> records[k] == old(records)[k]) && reaped && counter == old(counter)
      ensures down == old(down) && log == old(log)
    {
      records := map k | k in records && records[k].value.Some? :: records[k];
      reaped := true;
    }

    /** Lose a key entirely, as a restore from an older copy does. */
    method Forget(k: Key)
      modifies this
      ensures counter == old(counter) && records == old(records) - {k} && reaped == old(reaped) && down == old(down)
      ensures stamps == old(stamps) && puts == old(puts) && log == old(log)
    {
      records := records - {k};
    }

    /** Other writes advanced the namespace counter. */
    method Bump(n: nat)
      modifies this
      ensures counter == old(counter) + n && records == old(records) && reaped == old(reaped) && down == old(down)
      ensures stamps == old(stamps) && puts == old(puts) && log == old(log)
    {
      counter := counter + n;
    }

    method SetDown(down': bool)
      modifies this
      ensures down == down' && State() == old(State()) && stamps == old(stamps) && puts == old(puts) && log == old(log)
    {
      down := down';
    }
  }

  // ---- How an honest store evolves ----

  datatype Change = Wrote(key: Key, value: Value) | Removed(key: Key) | Advanced(steps: nat) | ReapedAll

  function Evolve1(s: Remote, c: Change): Remote {
    match c
    case Wrote(k, v) => PutAt(s, k, v)
    case Removed(k) => DeleteAt(s, k)
    case Advanced(n) => s.(counter := s.counter + n)
    case ReapedAll => Reap(s)
  }

  function Evolve(s: Remote, changes: seq<Change>): Remote
    decreases |changes|
  {
    if |changes| == 0 then s else Evolve(Evolve1(s, changes[0]), changes[1..])
  }

  /** The store still accounts for every version in `mirrored`: none is ahead of its counter, none is
      newer than the record it names, and a record is missing only once tombstones were reaped. */
  ghost predicate Accounts(s: Remote, mirrored: map<Key, nat>) {
    forall k :: k in mirrored ==>
      && mirrored[k] <= s.counter
      && (k in s.records ==> mirrored[k] <= s.records[k].version)
      && (k !in s.records ==> s.reaped)
  }

  /** From `s` to `t` nothing was lost: versions and the counter only grew, and only reaping dropped keys. */
  ghost predicate Advances(s: Remote, t: Remote) {
    && s.counter <= t.counter && (s.reaped ==> t.reaped)
    && (forall k :: k in s.records ==> if k in t.records then s.records[k].version <= t.records[k].version else t.reaped)
    && (forall k :: k in t.records && k !in s.records ==> s.counter < t.records[k].version)
  }

  lemma AdvancesKeepsAccounts(s: Remote, t: Remote, mirrored: map<Key, nat>)
    requires Accounts(s, mirrored) && Advances(s, t)
    ensures Accounts(t, mirrored)
  {
  }

  lemma {:induction false} EvolveKeepsAccounts(s: Remote, changes: seq<Change>, mirrored: map<Key, nat>)
    requires Accounts(s, mirrored)
    ensures Accounts(Evolve(s, changes), mirrored)
    decreases |changes|
  {
    if |changes| > 0 {
      EvolveKeepsAccounts(Evolve1(s, changes[0]), changes[1..], mirrored);
    }
  }

  /** Nobody writes `k`. */
  ghost predicate LeavesAlone(changes: seq<Change>, k: Key) {
    forall c :: c in changes ==> !(c.Wrote? && c.key == k)
  }

  lemma {:induction false} DeletedStaysDeleted(s: Remote, changes: seq<Change>, k: Key)
    requires LiveVersion(s.records, k).None? && LeavesAlone(changes, k)
    ensures LiveVersion(Evolve(s, changes).records, k).None?
    decreases |changes|
  {
    if |changes| > 0 {
      assert changes[0] in changes;
      DeletedStaysDeleted(Evolve1(s, changes[0]), changes[1..], k);
    }
  }
}
