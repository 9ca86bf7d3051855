/** The mirror as it runs (crates/vgi-bridge/src/appstate.rs): the local store, the lease, and the pass
    that writes pending changes to the remote while other tasks and other hosts keep working.

    Everything the outside can do between two steps of a method is a script of `Happening`s, consumed
    at each `Await`; the methods are verified for every script, that is, for every interleaving. */
module MirrorTask {
  import opened Wrappers
  import opened Keys
  import opened AppState
  import opened Mirroring

  const LEASE_TTL_MS := LEASE_TTL_SECS * 1000

  /** This host's copy: the mirrored tables, and which version of each record it copied last. */
  class Store {
    var records: map<Key, Value>
    var mirrored: map<Key, nat>

    constructor ()
      ensures records == map[] && mirrored == map[]
    {
      records, mirrored := map[], map[];
    }
  }

  /** One bridge process: its cache, its mirror's state, the remote, and what happens around them. */
  class Mirror {
    const remote: MemoryAppState
    const store: Store
    const sealKey: string
    const holder: string
    /** The remote never loses a record or its place; only the rollback guarantee depends on it. */
    ghost const lossless: bool
    var secrets: map<string, Bytes>
    var dirty: set<Key>
    var inFlight: nat
    var versions: map<Key, nat>
    var conflicts: nat
    /** The clocks: the host's monotonic one (milliseconds), its wall clock and the remote's (seconds). */
    var mono: int
    var wall: int
    var remoteClock: int
    /** What is still to happen around this process, one round per await. */
    var script: seq<seq<Happening>>
    /** The changes taken by a pass and not yet accounted for. */
    ghost var batch: set<Key>
    /** What this host has read in listings: after how many requests, of which key, and the version. */
    ghost var pulled: set<(nat, Key, nat)>

    constructor (remote: MemoryAppState, store: Store, sealKey: string, holder: string, ghost lossless: bool,
                 script: seq<seq<Happening>>)
      ensures this.lossless == lossless && this.remote == remote && this.store == store
      ensures this.sealKey == sealKey && this.holder == holder
      ensures this.script == script && secrets == map[] && dirty == {} && inFlight == 0 && versions == map[]
      ensures conflicts == 0 && batch == {} && pulled == {}
    {
      this.remote, this.store, this.sealKey, this.holder, this.script := remote, store, sealKey, holder, script;
      this.lossless := lossless;
      secrets, dirty, inFlight, versions, conflicts := map[], {}, 0, map[], 0;
      mono, wall, remoteClock, batch, pulled := 0, 0, 0, {}, {};
    }

    ghost function Now(): View
      reads this, store, remote
    {
      View(holder, sealKey, lossless, remote.State(), remote.down, remote.stamps, remote.puts, Mine(), Here(),
           store.mirrored, versions, dirty, inFlight, batch, conflicts, pulled, mono, script)
    }

    /** What this host holds. */
    function Here(): Local
      reads this, store
    {
      Local(store.records, secrets)
    }

    /** What this host asked of the remote so far. */
    ghost function Mine(): seq<Op>
      reads remote
    {
      OwnOps(remote.log, holder)
    }

    ghost function Around(): World
      reads this, store, remote
    {
      World(Here(), remote.State(), remote.down)
    }

    /** Changes not yet written to the remote. */
    function Pending(): nat
      reads this
    {
      |dirty| + inFlight
    }

    predicate Stopped()
      reads this
    {
      conflicts > 0
    }

    // ---- The rest of the world ----

    /** This host's own tasks: each change to a mirrored record or secret is marked. */
    method HappenHere(h: Happening)
      requires Valid(Now()) && h.Sane(holder, lossless)
      modifies this`secrets, this`dirty, store`records
      ensures Valid(Now()) && Drift(true, old(Now()), Now()) && Here() == LocalAfter(old(Here()), h)
      ensures h.LocalPut? ==>
        && store.records == old(store.records)[h.key := h.value]
        && (h.key != StateKey(Meta, "vta/binding") ==> h.key in dirty)
      ensures h.LocalDelete? ==>
        && store.records == old(store.records) - {h.key}
        && (h.key in old(store.records) && h.key != StateKey(Meta, "vta/binding") ==> h.key in dirty)
      ensures h.SecretPut? ==>
        secrets == old(secrets)[h.name := h.bytes] && ("pending/" <= h.name || SecretKey(h.name) in dirty)
      ensures h.SecretDelete? ==>
        && secrets == old(secrets) - {h.name}
        && (h.name in old(secrets) ==> "pending/" <= h.name || SecretKey(h.name) in dirty)
    {
      var here := Here();
      dirty := dirty + MarkedBy(here, h);
      store.records, secrets := LocalAfter(here, h).records, LocalAfter(here, h).secrets;
      LocalDrift(old(Now()), Now(), h);
    }

    /** Another writer's put or deletion. */
    method HappenElsewhere(h: Happening)
      requires Valid(Now()) && h.Sane(holder, lossless) && (h.ForeignPut? || h.ForeignDelete?)
      modifies remote
      ensures Valid(Now()) && Drift(false, old(Now()), Now())
      ensures Around() == WorldAfter(old(Around()), h)
      ensures h.ForeignPut? && !remote.down ==>
        remote.records == old(remote.records)[h.key := Entry(old(remote.counter) + 1, Some(h.value))]
      ensures h.ForeignDelete? && !remote.down ==> LiveVersion(remote.records, h.key).None?
    {
      hide Valid, Drift, LiveRecord, RefusedIn, Obedient, OwnOps;
      if h.ForeignPut? {
        var res := remote.Put(h.key, h.value, None, remoteClock, h.who);
      } else {
        var res := remote.Delete(h.key, None, remoteClock, h.who);
      }
      NotMine(old(remote.log), remote.log, holder);
      RemoteDrift(h, old(Now()), Now());
    }

    /** Other writers, the remote's own life, and the clocks. */
    method HappenThere(h: Happening)
      requires Valid(Now()) && h.Sane(holder, lossless)
      modifies this`mono, this`wall, this`remoteClock, remote
      ensures Valid(Now()) && Drift(h.Quiet(), old(Now()), Now())
      ensures remote.State() == WorldAfter(old(Around()), h).remote && remote.down == WorldAfter(old(Around()), h).down
      ensures h.ForeignPut? && !remote.down ==>
        remote.records == old(remote.records)[h.key := Entry(old(remote.counter) + 1, Some(h.value))]
      ensures h.ForeignDelete? && !remote.down ==> LiveVersion(remote.records, h.key).None?
      ensures h.CounterBump? ==> remote.counter == old(remote.counter) + h.n
      ensures h.Loss? ==> remote.records == old(remote.records) - {h.key}
      ensures h.Outage? ==> remote.down == h.down
    {
      hide Valid, Drift, Reap, LiveRecord, PutAt, DeleteAt, RefusedIn, Obedient, OwnOps;
      if h.ForeignPut? || h.ForeignDelete? {
        HappenElsewhere(h);
        return;
      }
      match h {
        case CounterBump(n) => remote.Bump(n);
        case Reaping => remote.ReapTombstones();
        case Loss(k) => remote.Forget(k);
        case Outage(down) => remote.SetDown(down);
        case Tick(ms, now, there) =>
          mono, wall, remoteClock := mono + ms, now, there;
        case _ =>
      }
      RemoteDrift(h, old(Now()), Now());
    }

    /** What others ask of the remote is none of this host's. */
    static lemma NotMine(was: seq<Op>, log: seq<Op>, holder: string)
      requires log == was || (|log| == |was| + 1 && log[..|was|] == was && log[|was|].who != holder)
      ensures OwnOps(log, holder) == OwnOps(was, holder)
    {
      if log != was {
        assert log == was + [log[|was|]];
        OwnOpsMore(was, log[|was|], holder);
      }
    }

    /** A happening is the host's own or not: the two halves make the whole. */
    static lemma HappensApart(was: World, now: World, h: Happening)
      requires now.local == LocalAfter(was.local, h)
      requires now.remote == WorldAfter(World(now.local, was.remote, was.down), h).remote
      requires now.down == WorldAfter(World(now.local, was.remote, was.down), h).down
      ensures now == WorldAfter(was, h)
    {
    }

    /** Yield for `ms` milliseconds. */
    method Sleep(ms: nat)
      requires Valid(Now())
      modifies this`secrets, this`dirty, this`mono, this`wall, this`remoteClock, this`script, store`records, remote
      ensures Valid(Now()) && Leased(old(Now()), Now())
      ensures |old(script)| > 0 ==> |script| < |old(script)|
      ensures mono >= old(mono) + ms
    {
      Await();
      BesideIsLeased(old(Now()), Now());
      mono := mono + ms;
    }

    /** Yield: the next round of the script happens. */
    method Await()
      requires Valid(Now())
      modifies this`secrets, this`dirty, this`mono, this`wall, this`remoteClock, this`script, store`records, remote
      ensures Valid(Now()) && Beside(old(Now()), Now())
      ensures |old(script)| > 0 ==> |script| < |old(script)|
      ensures old(script) != [] ==>
        script == old(script)[1..] && Around() == WorldAfterAll(old(Around()), old(script)[0])
      ensures old(script) == [] ==> Now() == old(Now())
    {
      hide Valid, Drift, RefusedIn, Obedient, OwnOps, WorldAfter;
      ghost var start, around := Now(), Around();
      RoundBegins(start);
      if |script| > 0 {
        ghost var quiet := Quiet(script);
        var round := script[0];
        script := script[1..];
        for i := 0 to |round|
          invariant Valid(Now()) && Drift(quiet, start, Now())
          invariant script == old(script)[1..] && Around() == WorldAfterAll(around, round[..i])
        {
          ghost var before, was := Now(), Around();
          OneMoreHappens(around, round, i);
          HappenHere(round[i]);
          ghost var between := Now();
          HappenThere(round[i]);
          HappensApart(was, Around(), round[i]);
          DriftWeaker(quiet, true, before, between);
          DriftWeaker(quiet, round[i].Quiet(), between, Now());
          DriftThrough(quiet, before, between, Now());
          DriftThrough(quiet, start, before, Now());
        }
        OnlyQuietRemains(start, Now(), quiet);
        assert round[..|round|] == round;
      }
    }

    // ---- Writing back ----

    /** Record that `item` is at `took` in the remote now. */
    method Record(item: Key, took: Option<nat>)
      requires Valid(Now())
      requires took.Some? ==> Known(Now(), item, took.value) && LiveVersion(remote.records, item) == took
      modifies this`versions, store`mirrored
      ensures Valid(Now()) && Now() == Recording(old(Now()), item, took)
    {
      hide Valid, RefusedIn, Obedient, OwnOps;
      match took {
        case Some(version) =>
          versions := versions[item := version];
          store.mirrored := store.mirrored[item := version];
        case None =>
          versions := versions - {item};
          store.mirrored := store.mirrored - {item};
      }
      RecordingIsValid(old(Now()), item, took);
    }

    /** Everything up to the moment a request about `item` goes out, conditional on the version last seen. */
    method BeginRequest(item: Key, ghost lease: Lease) returns (seen: Option<nat>)
      requires Valid(Now()) && Mirrored(item)
      modifies this`secrets, this`dirty, this`mono, this`wall, this`remoteClock, this`script, store`records, remote
      ensures Valid(Now()) && Written(old(Now()), Now(), item, false) && Mine() == old(Mine())
      ensures seen == LookUp(old(versions), item) && (seen.Some? ==> Known(Now(), item, seen.value))
      ensures old(InStep(Now())) ==>
        LiveVersion(remote.records, item) == seen && SameRecord(old(remote.records), remote.records, item)
      ensures old(InStep(Now())) && old(lease.Holds(Now())) ==> lease.Holds(Now())
    {
      hide Valid, Written, Leased, Beside, InStep, Owing, Known, RefusedIn, Obedient, OwnOps;
      ghost var read := Now();
      seen := LookUp(versions, item);
      Await();
      ghost var sending := Now();
      BesideIsLeased(read, sending);
      BesideFacts(read, sending);
      LeasedIsWritten(read, sending, item);
      BesideKeepsInStep(read, sending);
      if seen.Some? {
        SeenIsSourced(sending, item);
      }
      if InStep(read) {
        InStepVersion(sending, item);
        InStepVersion(read, item);
        assert item != LeaseKey;
        LeasedRecord(read, sending, item);
        if lease.Holds(read) {
          BesideKeepsLease(read, sending, lease.version, lease.next);
        }
      }
    }

    /** The record of `item`, held now, goes to the remote; unseen there, it is created. */
    method SendRecord(item: Key, ghost lease: Lease) returns (outcome: Result<Option<nat>, PutError>)
      requires Valid(Now()) && item.StateKey? && Mirrored(item) && item in store.records
      modifies this`secrets, this`dirty, this`mono, this`wall, this`remoteClock, this`script, store`records, remote
      ensures Valid(Now()) && Written(old(Now()), Now(), item, outcome.Err? && outcome.error.Conflict?)
      ensures Asked(old(Mine()), Mine(), item, Some(OrZero(LookUp(old(versions), item))), false)
      ensures outcome.Ok? ==> outcome.value.Some? && Known(Now(), item, outcome.value.value)
      ensures outcome.Ok? ==>
        && LookUp(remote.records, item) == Some(Entry(outcome.value.value, Some(old(store.records)[item])))
        && LandedLast(Now(), item, outcome.value.value)
      ensures old(InStep(Now())) && outcome.Err? ==> remote.down
      ensures old(InStep(Now())) && old(lease.Holds(Now())) ==>
        Arrived(old(Now()), Now(), item, outcome, lease.version, lease.next)
    {
      hide Valid, Written, InStep, Owing, PutOnce, Known, Mirrored, RefusedIn, Obedient, OwnOps;
      ghost var read := Now();
      var value := store.records[item];
      var seen := BeginRequest(item, lease);
      ghost var sending := Now();
      var put := HostPut(this, item, value, OrZero(seen));
      WrittenThrough(read, sending, Now(), item, put.Err? && put.error.Conflict?);
      outcome := if put.Ok? then Ok(Some(put.value)) else Err(put.error);
    }

    /** `item` is gone here, and is deleted there: at the version this host goes by for it, or, if it goes by none,
        whatever is there. */
    method SendDeletion(item: Key, lease: Lease) returns (outcome: Result<Option<nat>, PutError>)
      requires Valid(Now()) && Mirrored(item) && Outgoing(Here(), sealKey, item).None?
      modifies lease, this`secrets, this`dirty, this`mono, this`wall, this`remoteClock, this`script
      modifies store`records, remote
      ensures Valid(Now()) && Written(old(Now()), Now(), item, outcome.Err? && outcome.error.Conflict?)
      ensures Asked(old(Mine()), Mine(), item, LookUp(old(versions), item), true)
      ensures outcome.Ok? ==> outcome.value.None? && LiveVersion(remote.records, item).None?
      ensures lease.version == old(lease.version) && lease.deadline == old(lease.deadline)
      ensures old(InStep(Now())) && outcome.Err? ==> remote.down
      ensures old(InStep(Now())) && old(lease.Holds(Now())) ==>
        Arrived(old(Now()), Now(), item, outcome, lease.version, lease.next)
    {
      hide Valid, Written, InStep, Owing, Known, RefusedIn, Obedient, OwnOps;
      ghost var read := Now();
      var seen := BeginRequest(item, lease);
      ghost var sending := Now();
      var deleted := HostDelete(this, item, seen);
      WrittenThrough(read, sending, Now(), item, deleted.Err? && deleted.error.Conflict?);
      if deleted.Ok? && deleted.value.Some? {
        lease.Observe(deleted.value.value);
      }
      outcome := if deleted.Ok? then Ok(None) else Err(deleted.error);
    }

    /** The secret held now goes to the remote, sealed to the version it takes. */
    method SendSecret(name: string, lease: Lease) returns (outcome: Result<Option<nat>, PutError>)
      requires Valid(Now()) && SecretIsMirrored(name) && name in secrets && lease.holder == holder
      modifies lease, this`secrets, this`dirty, this`mono, this`wall, this`remoteClock, this`script
      modifies store`records, remote
      ensures Valid(Now()) && Written(old(Now()), Now(), SecretKey(name), outcome.Err? && outcome.error.Conflict?)
      ensures outcome.Ok? ==> outcome.value.Some? && Known(Now(), SecretKey(name), outcome.value.value)
      ensures outcome.Ok? ==> LiveVersion(remote.records, SecretKey(name)) == outcome.value
      ensures outcome.Ok? ==> LandedLast(Now(), SecretKey(name), outcome.value.value)
      ensures lease.deadline >= old(lease.deadline)
      ensures outcome.Ok? ==>
        StoredSealed(remote.records, sealKey, name, outcome.value.value, old(secrets)[name])
      ensures old(InStep(Now())) && old(lease.Holds(Now())) && outcome.Err? ==> remote.down || lease.deadline <= mono
      ensures old(InStep(Now())) && old(lease.Holds(Now())) ==>
        Arrived(old(Now()), Now(), SecretKey(name), outcome, lease.version, lease.next)
    {
      hide Valid, Written, Leased, Beside, InStep, Owing, PutOnce, RefusedIn, Obedient, OwnOps;
      ghost var read := Now();
      var seen := LookUp(versions, SecretKey(name));
      if seen.Some? {
        SeenIsSourced(read, SecretKey(name));
      }
      VersionsInRange(read);
      if InStep(read) {
        InStepVersion(read, SecretKey(name));
      }
      var put := PutSealed(this, name, secrets[name], seen, lease);
      VersionsInRange(Now());
      outcome := if put.Ok? then Ok(Some(put.value)) else Err(put.error);
    }

    /** The bookkeeping after a request: what it landed at is recorded, and a conflict counted. */
    method Conclude(item: Key, outcome: Result<Option<nat>, PutError>, lease: Lease,
                    ghost read: View) returns (res: Result<(), ()>)
      requires Valid(Now()) && Mirrored(item) && item in batch
      requires Written(read, Now(), item, outcome.Err? && outcome.error.Conflict?)
      requires outcome.Ok? && outcome.value.Some? ==>
        Known(Now(), item, outcome.value.value) && LiveVersion(remote.records, item) == outcome.value
      requires outcome.Ok? ==> Settled(Now(), item)
      modifies lease`next, this`versions, this`conflicts, store`mirrored
      ensures Valid(Now()) && Handled(read, Now()) && Mine() == old(Mine())
      ensures res.Ok? <==> outcome.Ok?
      ensures res.Ok? ==> conflicts == old(conflicts) && Settled(Now(), item)
      ensures InStep(read) && old(Arrived(read, Now(), item, outcome, lease.version, lease.next)) ==>
        && lease.Holds(Now())
        && conflicts == old(conflicts)
        && (if res.Ok? then Owing(Now(), dirty + (batch - {item})) else InStep(Now()))
    {
      hide Valid, Handled, Written, InStep, Owing, Mirrored, RefusedIn, Obedient, OwnOps;
      ghost var landed := Now();
      ghost var arrived := Arrived(read, landed, item, outcome, lease.version, lease.next);
      WrittenBatch(read, landed, item, outcome.Err? && outcome.error.Conflict?);
      match outcome {
        case Ok(took) =>
          Record(item, took);
          if took.Some? {
            lease.Observe(took.value);
          }
          RecordedIsHandled(read, landed, item, took);
          if InStep(read) && arrived {
            LandedSettles(read, landed, item, took);
          }
          res := Ok(());
        case Err(Conflict(_)) =>
          conflicts := conflicts + 1;
          CountingConflicts(landed, conflicts);
          WrittenIsHandled(read, landed, item, true, conflicts);
          res := Err(());
        case Err(Other) =>
          WrittenIsHandled(read, landed, item, false, conflicts);
          if InStep(read) && arrived {
            UnwrittenKeepsInStep(read, landed, item);
          }
          res := Err(());
      }
    }

    /** One change goes out as it stands now, on condition that nobody else touched the key since this host last
        looked; one too large for the remote does not go out at all. */
    method Write(item: Key, lease: Lease) returns (res: Result<(), ()>)
      requires Valid(Now()) && Mirrored(item) && item in batch && lease.holder == holder
      modifies lease, this`secrets, this`dirty, this`mono, this`wall, this`remoteClock, this`script, this`versions
      modifies this`conflicts, store, remote
      ensures Valid(Now()) && Handled(old(Now()), Now())
      ensures RequestsOnly(old(Mine()), Mine(), item) && lease.deadline >= old(lease.deadline)
      ensures (item.StateKey? && item in old(store.records) && TooLarge(old(store.records)[item]))
              || (item.SecretKey? && item.name in old(secrets) && TooLarge(Sealed(sealKey, "", old(secrets)[item.name]))) ==>
        res.Ok? && Now() == old(Now())
      ensures res.Ok? ==> conflicts == old(conflicts) && Settled(Now(), item)
      ensures old(InStep(Now())) && old(lease.Holds(Now())) && res.Err? ==> remote.down || lease.deadline <= mono
      ensures old(InStep(Now())) && old(lease.Holds(Now())) ==>
        && lease.Holds(Now())
        && conflicts == old(conflicts)
        && (if res.Ok? then Owing(Now(), dirty + (batch - {item})) else InStep(Now()))
    {
      hide Valid, Handled, Written, Leased, Beside, InStep, Owing, Arrived, RequestsOnly, RefusedIn, Obedient, OwnOps;
      ghost var start := Now();
      var outgoing := Outgoing(Here(), sealKey, item);
      if outgoing.Some? && Size(outgoing.value) > MAX_VALUE_BYTES {
        LeasedNowhere(start);
        LeasedIsWritten(start, start, item);
        WrittenIsHandled(start, start, item, false, conflicts);
        OversizedSettles(start, item);
        NoRequests(start.mine, item);
        return Ok(());
      }
      res := WriteOut(item, lease);
    }

    /** A change of a size the remote stores: the value goes out, or, with none, a deletion. */
    method WriteOut(item: Key, lease: Lease) returns (res: Result<(), ()>)
      requires Valid(Now()) && Mirrored(item) && item in batch && lease.holder == holder
      modifies lease, this`secrets, this`dirty, this`mono, this`wall, this`remoteClock, this`script, this`versions
      modifies this`conflicts, store, remote
      ensures Valid(Now()) && Handled(old(Now()), Now())
      ensures RequestsOnly(old(Mine()), Mine(), item) && lease.deadline >= old(lease.deadline)
      ensures res.Ok? ==> conflicts == old(conflicts) && Settled(Now(), item)
      ensures old(InStep(Now())) && old(lease.Holds(Now())) && res.Err? ==> remote.down || lease.deadline <= mono
      ensures old(InStep(Now())) && old(lease.Holds(Now())) ==>
        && lease.Holds(Now())
        && conflicts == old(conflicts)
        && (if res.Ok? then Owing(Now(), dirty + (batch - {item})) else InStep(Now()))
    {
      hide Valid, Handled, Written, Leased, Beside, InStep, Owing, Arrived, RequestsOnly, RefusedIn, Obedient, OwnOps;
      ghost var start := Now();
      var outgoing := Outgoing(Here(), sealKey, item);
      LeasedNowhere(start);
      LeasedIsWritten(start, start, item);
      WrittenIsHandled(start, start, item, false, conflicts);
      var outcome;
      if outgoing.None? {
        outcome := SendDeletion(item, lease);
        SettledByLanding(Now(), item, outcome);
        WrittenRequests(start, Now(), item, outcome.Err? && outcome.error.Conflict?);
        res := Conclude(item, outcome, lease, start);
      } else if item.StateKey? {
        outcome := SendRecord(item, lease);
        SettledByLanding(Now(), item, outcome);
        WrittenRequests(start, Now(), item, outcome.Err? && outcome.error.Conflict?);
        res := Conclude(item, outcome, lease, start);
      } else {
        res := WriteSecret(item, lease);
      }
    }

    /** A secret is read again just before it is sent: gone by then, it is marked again, and left to the next pass. */
    method WriteSecret(item: Key, lease: Lease) returns (res: Result<(), ()>)
      requires Valid(Now()) && Mirrored(item) && item in batch && lease.holder == holder
      requires item.SecretKey? && item.name in secrets
      modifies lease, this`secrets, this`dirty, this`mono, this`wall, this`remoteClock, this`script, this`versions
      modifies this`conflicts, store, remote
      ensures Valid(Now()) && Handled(old(Now()), Now())
      ensures RequestsOnly(old(Mine()), Mine(), item) && lease.deadline >= old(lease.deadline)
      ensures res.Ok? ==> conflicts == old(conflicts) && Settled(Now(), item)
      ensures old(InStep(Now())) && old(lease.Holds(Now())) && res.Err? ==> remote.down || lease.deadline <= mono
      ensures old(InStep(Now())) && old(lease.Holds(Now())) ==>
        && lease.Holds(Now())
        && conflicts == old(conflicts)
        && (if res.Ok? then Owing(Now(), dirty + (batch - {item})) else InStep(Now()))
    {
      hide Valid, Handled, Written, Beside, InStep, Owing, Arrived, Settled, StoredSealed, RequestsOnly, RefusedIn,
           Obedient, OwnOps;
      ghost var start := Now();
      Await();
      ghost var again := Now();
      SecretReread(start, again, item, lease.version, lease.next);
      if item.name !in secrets {
        NoRequests(again.mine, item);
        return Ok(());
      }
      var outcome := SendSecret(item.name, lease);
      WrittenRequests(again, Now(), item, outcome.Err? && outcome.error.Conflict?);
      SettledByLanding(Now(), item, outcome);
      res := Conclude(item, outcome, lease, again);
      HandledThrough(start, again, Now());
    }

    /** One item of a pass: the lease renewed if due, then the write. */
    method RenewAndWrite(item: Key, lease: Lease) returns (res: Result<(), ()>)
      requires Valid(Now()) && Mirrored(item) && item in batch && lease.holder == holder
      modifies lease, this`secrets, this`dirty, this`mono, this`wall, this`remoteClock, this`script, this`versions
      modifies this`conflicts, store, remote
      ensures Valid(Now()) && Handled(old(Now()), Now())
      ensures RequestsOnly(old(Mine()), Mine(), item) && lease.deadline >= old(lease.deadline)
      ensures LeaseOnly(old(Mine()), Mine()) || lease.deadline - old(mono) > 60_000
      ensures res.Ok? ==> conflicts == old(conflicts) && Settled(Now(), item)
      ensures old(InStep(Now())) && old(lease.Holds(Now())) && res.Err? ==> remote.down || lease.deadline <= mono
      ensures old(InStep(Now())) && old(lease.Holds(Now())) ==>
        && conflicts == old(conflicts)
        && (if res.Ok? then lease.Holds(Now()) && Owing(Now(), dirty + (batch - {item})) else InStep(Now()))
    {
      hide Valid, Handled, Leased, InStep, Owing, Mirrored, Settled, Still, Asked, RequestsOnly, RefusedIn, Obedient,
           OwnOps;
      ghost var start := Now();
      res := lease.RenewIfDue(this);
      ghost var ready := Now();
      LeasedIsWorked(start, ready);
      LeasedIsHandled(start, ready);
      LeasedRequests(start, ready, item);
      LeasedMakesNone(start, ready);
      InStepIsQuiet(start);
      if res.Ok? {
        res := Write(item, lease);
        RequestsThrough(start.mine, ready.mine, Mine(), item);
        HandledThrough(start, ready, Now());
      }
    }

    /** One item of a pass: written, unless the pass has failed already; marked again if it was not. */
    method PassItem(item: Key, lease: Lease, skipped: bool) returns (failed: bool)
      requires Valid(Now()) && item in batch && lease.holder == holder
      modifies lease, this`secrets, this`dirty, this`mono, this`wall, this`remoteClock, this`script, this`versions
      modifies this`conflicts, this`inFlight, this`batch, store, remote
      ensures Valid(Now()) && Turn(old(Now()), Now(), item, skipped, failed)
      ensures lease.deadline >= old(lease.deadline)
      ensures LeaseOnly(old(Mine()), Mine()) || lease.deadline - old(mono) > 60_000
      ensures skipped ==> lease.version == old(lease.version) && lease.next == old(lease.next)
                          && lease.deadline == old(lease.deadline)
      ensures skipped && old(InStep(Now())) ==> InStep(Now())
      ensures !skipped && old(InStep(Now())) && old(lease.Holds(Now())) ==>
        Unbroken(old(Now()), Now(), failed, lease.version, lease.next, lease.deadline)
    {
      hide Valid, Handled, InStep, Owing, Turn, Mirrored, Settled, RequestsOnly, RefusedIn, Obedient, OwnOps;
      ghost var start := Now();
      BatchMirrored(start);
      NoRequests(start.mine, item);
      failed := true;
      if !skipped {
        var written := RenewAndWrite(item, lease);
        failed := written.Err?;
        HandledFacts(start, Now());
      }
      ghost var now := Now();
      Account(item, failed);
      TurnOver(start, now, Now(), item, skipped, failed);
    }

    /** One item of the batch is accounted for: pending again, if it was not written, then no longer in flight. */
    method Account(item: Key, failed: bool)
      requires Valid(Now()) && item in batch
      modifies this`dirty, this`inFlight, this`batch
      ensures Valid(Now()) && old(inFlight) > 0
      ensures Now() == old(Now()).(dirty := if failed then old(dirty) + {item} else old(dirty),
                                   batch := old(batch) - {item}, inFlight := old(inFlight) - 1)
      ensures failed && old(InStep(Now())) ==> InStep(Now())
      ensures old(Owing(Now(), dirty + (batch - {item}))) && !failed ==> InStep(Now())
    {
      hide Valid, InStep, Owing, OwnOps;
      BatchMirrored(Now());
      ItemDone(Now(), item, failed);
      if failed {
        dirty := dirty + {item};
      }
      inFlight := inFlight - 1;
      batch := batch - {item};
    }

    /** The items of a pass, one by one: once one fails, the others are left for a later pass. */
    method WriteBatch(todo: set<Key>, lease: Lease) returns (failed: bool)
      requires Valid(Now()) && batch == todo && lease.holder == holder
      modifies lease, this`secrets, this`dirty, this`mono, this`wall, this`remoteClock, this`script, this`versions
      modifies this`conflicts, this`inFlight, this`batch, store, remote
      ensures Valid(Now()) && Passed(old(Now()), Now(), failed)
      ensures batch == {} && lease.deadline >= old(lease.deadline)
      ensures old(InStep(Now())) && old(lease.Holds(Now())) ==>
        Unbroken(old(Now()), Now(), failed, lease.version, lease.next, lease.deadline)
    {
      hide Valid, InStep, Owing, Predicts, Turn, Passed, Unbroken, RefusedIn, Obedient, OwnOps, Mirrored, Here, Mine,
           Pending;
      ghost var start := Now();
      ghost var fine := InStep(start) && lease.Holds(start);
      NothingPassed(start);
      failed := false;
      var rest := todo;
      BatchMirrored(start);
      if fine {
        BegunUnbroken(start, lease.version, lease.next, lease.deadline);
      }
      while rest != {}
        invariant Valid(Now()) && Passed(start, Now(), failed)
        invariant batch == rest && lease.deadline >= old(lease.deadline)
        invariant fine ==> Unbroken(start, Now(), failed, lease.version, lease.next, lease.deadline)
        decreases rest
      {
        var item :| item in rest;
        ghost var before, skipped := Now(), failed;
        UnbrokenFacts(start, before, skipped, lease.version, lease.next, lease.deadline);
        failed := PassItem(item, lease, failed);
        PassGoesOn(start, before, skipped, Now(), item, failed);
        TurnFacts(before, Now(), item, skipped, failed);
        if fine {
          UnbrokenGoesOn(start, before, Now(), skipped, failed, lease.version, lease.next, lease.deadline);
        }
        rest := rest - {item};
      }
    }

    /** Write every pending change, once. What was not written is pending again. */
    method SyncPass() returns (res: Result<(), ()>)
      requires Valid(Now()) && batch == {}
      modifies this`secrets, this`dirty, this`mono, this`wall, this`remoteClock, this`script, this`versions
      modifies this`conflicts, this`inFlight, this`batch, store, remote
      ensures Valid(Now()) && Worked(old(Now()), Now())
      ensures batch == {}
      ensures old(InStep(Now())) ==> InStep(Now()) && conflicts == old(conflicts)
      ensures conflicts > old(conflicts) ==> res.Err?
      ensures res.Ok? && old(script) == [] ==> dirty == {}
      ensures old(dirty) != {} && |old(script)| > 0 ==> |script| < |old(script)|
      ensures old(InStep(Now())) && old(Lease.Free(this)) ==> res.Ok?
    {
      ghost var free := Lease.Free(this);
      assert free ==> script == [] && !remote.down;
      hide Valid, Leased, InStep, Owing, Worked, Predicts, RefusedIn, Obedient, OwnOps, Lease.Free;
      ghost var start := Now();
      WorkedNowhere(start);
      if dirty == {} {
        return Ok(());
      }
      var acquired := Lease.Acquire(this, 10_000);
      ghost var held := Now();
      LeasedIsWorked(start, held);
      LeasedFacts(start, held);
      if acquired.Err? {
        return Err(());
      }
      var lease := acquired.value;
      var taken := TakeBatch();
      ghost var begun := Now();
      WorkedThrough(start, held, begun);
      LeaseUnmoved(held, begun, lease.version, lease.next);
      var failed := EndPass(taken, lease);
      WorkedFacts(begun, Now());
      WorkedThrough(start, begun, Now());
      res := if failed then Err(()) else Ok(());
    }

    /** What is pending is taken for a pass, and counted in flight at once. */
    method TakeBatch() returns (taken: set<Key>)
      requires Valid(Now()) && batch == {}
      modifies this`dirty, this`inFlight, this`batch
      ensures Valid(Now()) && Worked(old(Now()), Now()) && (old(InStep(Now())) ==> InStep(Now()))
      ensures taken == old(dirty) == batch && dirty == {}
      ensures Now() == old(Now()).(dirty := {}, batch := taken, inFlight := inFlight)
    {
      hide Valid, InStep, Owing, Worked, OwnOps;
      BatchTaken(Now());
      taken := dirty;
      inFlight := inFlight + |dirty|;
      batch := dirty;
      dirty := {};
    }

    /** What a pass under way has still to do. */
    method EndPass(rest: set<Key>, lease: Lease) returns (failed: bool)
      requires Valid(Now()) && batch == rest && lease.holder == holder
      modifies lease, this`secrets, this`dirty, this`mono, this`wall, this`remoteClock, this`script, this`versions
      modifies this`conflicts, this`inFlight, this`batch, store, remote
      ensures Valid(Now()) && Worked(old(Now()), Now()) && batch == {}
      ensures old(InStep(Now())) && old(lease.Holds(Now())) ==> InStep(Now()) && conflicts == old(conflicts)
      ensures old(script) == [] && old(InStep(Now())) && old(lease.Holds(Now())) && failed ==>
        old(remote.down) || old(lease.deadline) <= old(mono)
      ensures remote.down || LiveVersion(remote.records, LeaseKey) != Some(lease.version)
      ensures conflicts > old(conflicts) ==> failed
      ensures old(script) == [] && old(dirty) == {} ==> failed || dirty == {}
    {
      hide Valid, Leased, InStep, Owing, Worked, Predicts, Passed, Unbroken, Asked, RefusedIn, Obedient, OwnOps;
      ghost var start := Now();
      failed := WriteBatch(rest, lease);
      ghost var done := Now();
      PassedFacts(start, done, failed);
      UnbrokenFacts(start, done, failed, lease.version, lease.next, lease.deadline);
      WorkedFacts(start, done);
      lease.Release(this);
      WorkedThenLeased(start, done, Now());
      LeasedIsWorked(done, Now());
    }

    /** Serve until the script ends, which is the stop signal: write changes as they come, and once someone
        else is found writing, write nothing more. */
    method Run()
      requires Valid(Now()) && batch == {}
      requires Obedient(Mine()) && (conflicts == 0 ==> !RefusedIn(Mine()))
      modifies this`secrets, this`dirty, this`mono, this`wall, this`remoteClock, this`script, this`versions
      modifies this`conflicts, this`inFlight, this`batch, store, remote
      ensures Valid(Now()) && batch == {}
      ensures Obedient(Mine())
      ensures old(InStep(Now())) ==> InStep(Now()) && conflicts == old(conflicts)
      ensures old(conflicts) > 0 ==> Mine() == old(Mine())
      ensures script == []
      ensures old(InStep(Now())) && old(Lease.Free(this)) && old(conflicts) == 0 ==> dirty == {}
    {
      hide *;
      ghost var free := InStep(Now()) && Lease.Free(this) && conflicts == 0;
      var over := false;
      while !over
        invariant Valid(Now()) && batch == {}
        invariant Obedient(Mine()) && (conflicts == 0 ==> !RefusedIn(Mine()))
        invariant old(InStep(Now())) ==> InStep(Now()) && conflicts == old(conflicts)
        invariant old(conflicts) > 0 ==> conflicts > 0 && Mine() == old(Mine())
        invariant over ==> script == []
        invariant free ==>
          (script == [] && dirty == {}) || (!over && InStep(Now()) && Lease.Free(this) && conflicts == 0)
        decreases |script|, !over, |dirty|
      {
        over := RunOnce();
      }
    }

    /** One turn of that: a wait, or a pass and, if it failed, a wait. `over`: the stop signal is there. */
    method RunOnce() returns (over: bool)
      requires Valid(Now()) && batch == {}
      requires Obedient(Mine()) && (conflicts == 0 ==> !RefusedIn(Mine()))
      modifies this`secrets, this`dirty, this`mono, this`wall, this`remoteClock, this`script, this`versions
      modifies this`conflicts, this`inFlight, this`batch, store, remote
      ensures Valid(Now()) && batch == {}
      ensures Obedient(Mine()) && (conflicts == 0 ==> !RefusedIn(Mine()))
      ensures old(InStep(Now())) ==> InStep(Now()) && conflicts == old(conflicts)
      ensures old(conflicts) > 0 ==> conflicts > 0 && Mine() == old(Mine())
      ensures over ==> script == []
      ensures |script| <= |old(script)|
      ensures !over ==> |script| < |old(script)| || (|script| == |old(script)| && |dirty| < |old(dirty)|)
      ensures old(script) == [] && old(dirty) == {} ==> over && dirty == {}
      ensures old(InStep(Now())) && old(Lease.Free(this)) && old(conflicts) == 0 ==> script == [] && dirty == {}
    {
      var idle := Stopped() || dirty == {};
      assert Stopped() <==> conflicts > 0;
      assert Lease.Free(this) ==> script == [];
      hide *;
      over := false;
      if idle {
        over := Idle();
      }
      if !over && conflicts == 0 {
        over := PassOnce();
      }
    }

    /** Wait for the next round, or the stop signal. */
    method Idle() returns (over: bool)
      requires Valid(Now())
      modifies this`secrets, this`dirty, this`mono, this`wall, this`remoteClock, this`script, store`records, remote
      ensures Valid(Now()) && Mine() == old(Mine())
      ensures over <==> old(script) == []
      ensures over ==> Now() == old(Now()) && script == [] && dirty == old(dirty)
      ensures !over ==> |script| < |old(script)|
      ensures old(InStep(Now())) ==> InStep(Now())
    {
      ghost var before := Now();
      assert before.mine == Mine();
      hide Valid, InStep, Beside, OwnOps, Mine, Here, Around;
      over := script == [];
      if !over {
        Await();
        BesideFacts(before, Now());
      }
    }

    /** A pass and, if it failed, a wait. */
    method PassOnce() returns (over: bool)
      requires Valid(Now()) && batch == {} && conflicts == 0 && Obedient(Mine()) && !RefusedIn(Mine())
      modifies this`secrets, this`dirty, this`mono, this`wall, this`remoteClock, this`script, this`versions
      modifies this`conflicts, this`inFlight, this`batch, store, remote
      ensures Valid(Now()) && batch == {}
      ensures Obedient(Mine()) && (conflicts == 0 ==> !RefusedIn(Mine()))
      ensures old(InStep(Now())) ==> InStep(Now()) && conflicts == 0
      ensures over ==> script == []
      ensures |script| <= |old(script)|
      ensures !over && old(dirty) != {} ==>
        |script| < |old(script)| || (|script| == |old(script)| && |dirty| < |old(dirty)|)
      ensures old(InStep(Now())) && old(Lease.Free(this)) ==> script == [] && dirty == {}
    {
      ghost var ready := Now();
      assert Lease.Free(this) ==> script == [];
      hide Valid, InStep, Worked, OwnOps, RefusedIn, Obedient, Lease.Free, Around;
      var pass := SyncPass();
      WorkedLog(ready, Now());
      over := false;
      if pass.Err? {
        over := Idle();
      }
    }

    /** One wait of a flush: the rest of the pass under way, or the next pass, is over when it ends, or neither is. */
    method WaitForPass(pass: Lease?, rest: set<Key>, under: bool) returns (still: bool)
      requires Valid(Now()) && (inFlight == 0 ==> batch == {}) && |dirty| + inFlight > 0
      requires pass != null ==> pass.holder == holder
      requires under ==> pass != null && batch == rest
      modifies this`secrets, this`dirty, this`mono, this`wall, this`remoteClock, this`script, this`versions
      modifies this`conflicts, this`inFlight, this`batch, store, remote, if pass == null then {} else {pass}
      ensures Valid(Now()) && (inFlight == 0 ==> batch == {})
      ensures still ==> under && batch == rest
      ensures conflicts >= old(conflicts)
      ensures |script| <= |old(script)| && (|old(script)| > 0 ==> |script| < |old(script)| || (under && !still))
      ensures old(InStep(Now())) && (under ==> old(pass.Holds(Now()))) ==>
        InStep(Now()) && (still ==> pass.Holds(Now()))
    {
      hide Valid, Leased, InStep, Owing, Worked, Beside, TraceOf, Settled, Predicts, RequestsOnly, RefusedIn, Obedient,
           OwnOps;
      ghost var before := Now();
      var passRuns: bool := *;
      still := false;
      if inFlight == 0 && passRuns {
        var _ := SyncPass();
        WorkedLog(before, Now());
      } else if under && passRuns {
        var _ := EndPass(rest, pass);
        WorkedLog(before, Now());
      } else {
        Await();
        BesideFacts(before, Now());
        InStepIsQuiet(before);
        if under && InStep(before) && pass.Holds(before) {
          BesideKeepsLease(before, Now(), pass.version, pass.next);
        }
        still := under;
      }
      BatchMirrored(Now());
    }

    /** Wait, `timeout` milliseconds at most, for nothing to be pending; meanwhile the mirror's own task runs. `pass` is
        the lease of the pass under way when the wait begins, if one is, and `rest` what that has still to write. */
    method Flush(timeout: nat, pass: Lease?, rest: set<Key>) returns (ok: bool)
      requires Valid(Now()) && (inFlight == 0 ==> batch == {})
      requires pass != null ==> pass.holder == holder && batch == rest
      modifies this`secrets, this`dirty, this`mono, this`wall, this`remoteClock, this`script, this`versions
      modifies this`conflicts, this`inFlight, this`batch, store, remote, if pass == null then {} else {pass}
      ensures Valid(Now())
      ensures ok ==> Pending() == 0
      ensures !ok ==> Stopped() || (Pending() > 0 && (script == [] || mono >= old(mono) + timeout))
      ensures old(Stopped()) ==> !ok
      ensures old(Pending()) == 0 && !old(Stopped()) ==> ok && Now() == old(Now())
      ensures old(InStep(Now())) && (pass != null ==> old(pass.Holds(Now()))) ==> InStep(Now())
      ensures old(InStep(Now())) && (pass != null ==> old(pass.Holds(Now()))) && ok ==>
        RemoteHolds(remote.records, Here(), sealKey)
    {
      hide Valid, Leased, InStep, Owing, Worked, Beside, Traced, Settled, Predicts, RefusedIn, Obedient, OwnOps;
      var deadline := mono + timeout;
      ghost var fine := InStep(Now()) && (pass != null ==> pass.Holds(Now()));
      var under := pass != null;
      while true
        invariant Valid(Now()) && (inFlight == 0 ==> batch == {}) && (under ==> pass != null && batch == rest)
        invariant fine ==> InStep(Now()) && (under ==> pass.Holds(Now()))
        invariant old(Stopped()) ==> Stopped()
        invariant old(Pending()) == 0 && !old(Stopped()) ==> Now() == old(Now())
        decreases |script|, under
      {
        ghost var before := Now();
        NothingOwed(before);
        if Stopped() {
          return false;
        }
        if Pending() == 0 {
          return true;
        }
        var over := script == [];
        under := WaitForPass(pass, rest, under);
        if over || mono >= deadline {
          NothingOwed(Now());
          return Pending() == 0;
        }
        BatchMirrored(Now());
      }
    }

    // ---- Reading back ----

    /** The checks of a pull, in order: `true` if the remote's state is refused as rolled back. In a
        snapshot, the mirrored versions of secrets that are gone are forgotten on the way. */
    method CheckListing(listing: Listing) returns (refused: bool)
      modifies store`mirrored
      ensures refused <==> RolledBack(listing, old(store.mirrored))
      ensures store.mirrored.Keys <= old(store.mirrored.Keys)
      ensures forall k :: k in store.mirrored ==> store.mirrored[k] == old(store.mirrored)[k]
      ensures forall k :: k in old(store.mirrored) && (k in listing.records || !k.SecretKey?) ==> k in store.mirrored
      ensures !refused ==> forall k :: k in store.mirrored && k.SecretKey? ==> k in listing.records
    {
      var mirrored, latest := store.mirrored, listing.records;
      if exists k :: k in mirrored && listing.watermark < mirrored[k] {
        return true;
      }
      var todo := mirrored.Keys;
      while todo != {}
        invariant todo <= mirrored.Keys
        invariant store.mirrored.Keys <= mirrored.Keys
        invariant forall k :: k in store.mirrored ==> store.mirrored[k] == mirrored[k]
        invariant forall k :: k in mirrored && (k in latest || !k.SecretKey? || k in todo) ==> k in store.mirrored
        invariant forall k :: k in mirrored && k !in todo && k !in latest ==>
          listing.mode == Snapshot && (k.SecretKey? ==> k !in store.mirrored)
        decreases todo
      {
        var key :| key in todo;
        todo := todo - {key};
        if key !in latest {
          if mirrored[key] > listing.watermark {
            // Above the counter: the first check has already refused that.
            assert false;
          }
          if listing.mode == Feed {
            return true;
          }
          if key.SecretKey? {
            store.mirrored := store.mirrored - {key};
          }
        }
      }
      return exists k :: k in latest && k in mirrored && latest[k].version < mirrored[k];
    }

    /** Take over what the remote holds, key by key in text order: secrets opened at their versions first,
        then records. `refused`: some secret does not open, and no record was touched. */
    method TakeOver(latest: map<Key, Entry>) returns (refused: bool)
      requires forall k :: k in latest ==> Canonical(k)
      modifies this`secrets, store
      ensures refused <==> !SecretsOpen(latest, sealKey)
      ensures refused ==> store.records == old(store.records)
      ensures forall k :: k in store.mirrored ==> MirroredFrom(latest, old(store.mirrored), k, store.mirrored[k])
      ensures !refused ==> TakenOver(latest, {}, old(Here()), old(store.mirrored), Here(), store.mirrored)
    {
      hide Before, Render, TakenOver, IsFirst, OwnOps;
      ghost var was, wasMirrored := Here(), store.mirrored;
      TakeOverStarts(latest, was, wasMirrored);
      var todo := latest.Keys;
      while todo != {}
        invariant todo <= latest.Keys
        invariant (exists k :: k in todo && k.SecretKey?) ==> store.records == was.records
        invariant forall name :: SecretKey(name) !in todo && LiveVersion(latest, SecretKey(name)).Some? ==>
          Opens(latest, sealKey, name)
        invariant TakenOver(latest, todo, was, wasMirrored, Here(), store.mirrored)
        decreases todo
      {
        ghost var local, mirrored := Here(), store.mirrored;
        var key := NextKey(todo);
        if key.SecretKey? && latest[key].value.Some? && !Opens(latest, sealKey, key.name) {
          TakenOverFrom(latest, todo, was, wasMirrored, local, mirrored);
          return true;
        }
        Take(key, latest[key]);
        TakeOverStep(latest, todo, was, wasMirrored, local, mirrored, key, Here(), store.mirrored);
        todo := todo - {key};
      }
      TakenOverFrom(latest, todo, was, wasMirrored, Here(), store.mirrored);
      refused := false;
    }

    /** The next key in text order. */
    static method NextKey(todo: set<Key>) returns (key: Key)
      requires todo != {} && forall k :: k in todo ==> Canonical(k)
      ensures key in todo && IsFirst(key, todo)
      ensures key.StateKey? ==> forall k :: k in todo ==> !k.SecretKey?
    {
      hide Before, Render;
      ghost var first := FirstExists(todo);
      key :| key in todo && IsFirst(key, todo);
      if key.StateKey? {
        NoSecretsAfterRecords(key, todo);
      }
    }

    /** One entry: a secret or a record cached, or dropped with what was remembered of it. */
    method Take(key: Key, e: Entry)
      requires key.SecretKey? && e.value.Some? ==> e.value.value.Sealed?
      modifies this`secrets, store
      ensures key.StateKey? && e.value.Some? ==> store.records == old(store.records)[key := e.value.value]
      ensures key.StateKey? && e.value.None? ==> store.records == old(store.records) - {key}
      ensures !key.StateKey? ==> store.records == old(store.records)
      ensures key.SecretKey? && e.value.Some? ==> secrets == old(secrets)[key.name := e.value.value.body]
      ensures !(key.SecretKey? && e.value.Some?) ==> secrets == old(secrets)
      ensures (key.StateKey? || key.SecretKey?) && e.value.Some? ==>
        store.mirrored == old(store.mirrored)[key := e.version]
      ensures key.StateKey? && e.value.None? ==> store.mirrored == old(store.mirrored) - {key}
      ensures !key.StateKey? && !(key.SecretKey? && e.value.Some?) ==> store.mirrored == old(store.mirrored)
    {
      if key.SecretKey? {
        if e.value.Some? {
          secrets := secrets[key.name := e.value.value.body];
          store.mirrored := store.mirrored[key := e.version];
        }
      } else if key.StateKey? {
        if e.value.None? {
          store.records, store.mirrored := store.records - {key}, store.mirrored - {key};
        } else {
          store.records, store.mirrored := store.records[key := e.value.value], store.mirrored[key := e.version];
        }
      }
    }

    /** The cached records the remote has no word of: one mirrored before was deleted there and goes, one
        never mirrored is marked for writing. */
    method Reconcile(latest: map<Key, Entry>, mirrored: map<Key, nat>)
      modifies this`dirty, store
      ensures forall k :: LookUp(store.records, k) == KeptRecord(latest, mirrored, old(store.records), k)
      ensures forall k :: k in store.mirrored ==>
        k in old(store.mirrored) && store.mirrored[k] == old(store.mirrored)[k]
      ensures forall k :: k in old(store.mirrored) && (k in latest || !Mirrored(k) || k !in mirrored) ==>
        k in store.mirrored
      ensures dirty == old(dirty) + Unmirrored(latest, mirrored, old(store.records))
    {
      var todo := store.records.Keys;
      while todo != {}
        invariant todo <= old(store.records).Keys
        invariant forall k :: k in todo ==> LookUp(store.records, k) == LookUp(old(store.records), k)
        invariant forall k :: k !in todo ==>
          LookUp(store.records, k) == KeptRecord(latest, mirrored, old(store.records), k)
        invariant forall k :: k in store.mirrored ==>
          k in old(store.mirrored) && store.mirrored[k] == old(store.mirrored)[k]
        invariant forall k :: k in old(store.mirrored) && (k in latest || !Mirrored(k) || k !in mirrored) ==>
          k in store.mirrored
        invariant dirty == old(dirty) + (Unmirrored(latest, mirrored, old(store.records)) - todo)
        decreases todo
      {
        var key :| key in todo;
        todo := todo - {key};
        if Mirrored(key) && key !in latest {
          if key in mirrored {
            store.records, store.mirrored := store.records - {key}, store.mirrored - {key};
          } else {
            dirty := dirty + {key};
          }
        }
      }
    }

    /** Adopt an accepted listing: the remote's records and secrets over the cached ones, and what it has no
        word of reconciled. `mirrored` is what this host had mirrored. */
    method Adopt(latest: map<Key, Entry>, mirrored: map<Key, nat>) returns (refused: bool)
      requires forall k :: k in latest ==> Canonical(k)
      requires forall k :: k in store.records ==> k.StateKey?
      modifies this`secrets, this`dirty, store
      ensures refused <==> !SecretsOpen(latest, sealKey)
      ensures refused ==> store.records == old(store.records) && dirty == old(dirty)
      ensures forall k :: k in store.mirrored ==> MirroredFrom(latest, old(store.mirrored), k, store.mirrored[k])
      ensures !refused ==> forall k :: Mirrored(k) && k.StateKey? ==>
        LookUp(store.records, k) == PulledRecord(latest, mirrored, old(store.records), k)
      ensures !refused ==> forall name :: LookUp(secrets, name) == PulledSecret(latest, old(secrets), name)
      ensures !refused ==> dirty == old(dirty) + Unmirrored(latest, mirrored, old(store.records))
      ensures !refused ==> Remembers(latest, store.mirrored)
      ensures forall k :: k in store.records ==> k.StateKey?
    {
      hide TakenOver, SecretsOpen, Remembers, OwnOps;
      ghost var start, startMirrored := Here(), store.mirrored;
      refused := TakeOver(latest);
      if !refused {
        ghost var taken, takenMirrored := Here(), store.mirrored;
        Reconcile(latest, mirrored);
        PullComposes(latest, mirrored, start, startMirrored, taken, takenMirrored, Here());
        TakenOverRemembers(latest, start, startMirrored, taken, takenMirrored, store.mirrored);
      }
    }

    /** The last stage of a pull whose listing passed the checks; `mirrored` is what this host had mirrored
        before them. */
    method Accept(latest: map<Key, Entry>, mirrored: map<Key, nat>) returns (refused: bool)
      requires Valid(Now())
      requires latest == remote.records && forall k :: k in latest ==> Canonical(k)
      modifies this`secrets, this`dirty, this`versions, this`conflicts, this`pulled, store
      ensures Valid(Now())
      ensures refused <==> !SecretsOpen(latest, sealKey)
      ensures conflicts == old(conflicts) + (if refused then 1 else 0)
      ensures refused ==> store.records == old(store.records)
      ensures !refused ==> forall k :: Mirrored(k) && k.StateKey? ==>
        LookUp(store.records, k) == PulledRecord(latest, mirrored, old(store.records), k)
      ensures !refused ==> forall name :: LookUp(secrets, name) == PulledSecret(latest, old(secrets), name)
      ensures !refused ==> dirty == old(dirty) + Unmirrored(latest, mirrored, old(store.records))
      ensures !refused ==> versions == LiveVersions(latest) && Remembers(latest, store.mirrored)
    {
      hide Valid, SecretsOpen, PulledRecord, PulledSecret, Unmirrored, MirroredFrom, Mirrored, Canonical, LiveVersions,
           Reading, LookUp, Remembers, OwnOps;
      NoteListing(latest);
      ghost var noted := Now();
      PulledKeys(noted);
      UnmirroredMarks(latest, mirrored, noted.local.records);
      refused := Adopt(latest, mirrored);
      if refused {
        conflicts := conflicts + 1;
      }
      ghost var end := Now();
      assert end == noted.(local := end.local, mirrored := end.mirrored, dirty := end.dirty, conflicts := end.conflicts);
      AdoptedIsValid(noted, end);
    }

    /** The versions listed are gone by from now on. */
    method NoteListing(latest: map<Key, Entry>)
      requires Valid(Now()) && latest == remote.records
      modifies this`versions, this`pulled
      ensures Valid(Now()) && versions == LiveVersions(latest)
      ensures Now() == old(Now()).(versions := versions, pulled := pulled)
    {
      hide Valid, LiveVersions, Reading, OwnOps;
      versions := LiveVersions(latest);
      pulled := pulled + Reading(|Mine()|, versions);
      NotedIsValid(old(Now()), Now());
    }

    /** The checks of a pull, and what a refusal leaves. */
    method Screen(listing: Listing) returns (refused: bool)
      requires Valid(Now()) && listing == ListingOf(remote.State())
      modifies this`conflicts, store`mirrored
      ensures refused <==> RolledBack(listing, old(store.mirrored))
      ensures Valid(Now()) && Now() == old(Now()).(mirrored := store.mirrored, conflicts := conflicts)
      ensures conflicts == old(conflicts) + (if refused then 1 else 0)
      ensures forall k :: k in store.mirrored ==>
        k in old(store.mirrored) && store.mirrored[k] == old(store.mirrored)[k]
    {
      hide Valid, RolledBack, MirroredFrom, OwnOps;
      ghost var start := Now();
      refused := CheckListing(listing);
      if refused {
        conflicts := conflicts + 1;
      }
      ForgettingIsValid(start, store.mirrored, conflicts);
    }

    /** Replace what is cached by what the remote holds, or refuse that. */
    method Pull() returns (res: Result<(), PullError>)
      requires Valid(Now()) && batch == {}
      requires forall k :: k in remote.records ==> Canonical(k)
      modifies this`secrets, this`dirty, this`versions, this`conflicts, this`pulled, store
      ensures Valid(Now())
      ensures remote.down <==> res == Err(Unreachable)
      ensures remote.down ==> Now() == old(Now())
      ensures !remote.down ==>
        (res == Err(Refused) <==> WentBack(remote.State(), old(store.mirrored)) || Tampered(remote.records, sealKey))
      ensures lossless ==> !WentBack(remote.State(), old(store.mirrored))
      ensures res == Err(Refused) ==> store.records == old(store.records) && conflicts == old(conflicts) + 1
      ensures res.Ok? ==> Adopted(remote.records, old(store.mirrored), old(Here()), old(dirty), Now())
      ensures res.Ok? ==> conflicts == old(conflicts)
      ensures res.Ok? && Quiet(script) && old(secrets) == map[] ==> InStep(Now())
    {
      hide Valid, SecretsOpen, RolledBack, InStep, Accounts, Quiet, PulledRecord, PulledSecret, Unmirrored, OwnOps;
      hide LiveVersions, MirroredFrom, Mirrored, Canonical, WentBack, Tampered, Adopted, Remembers;
      ghost var start := Now();
      RefusalsMean(remote.State(), store.mirrored, sealKey);
      if lossless {
        AccountedIsNotRolledBack(start);
      }
      var listing := remote.List();
      if listing.Err? {
        return Err(Unreachable);
      }
      var latest, mirrored := listing.value.records, store.mirrored;
      var rolledBack := Screen(listing.value);
      if rolledBack {
        return Err(Refused);
      }
      var refused := Accept(latest, mirrored);
      if refused {
        return Err(Refused);
      }
      AdoptionMeans(start, Now());
      if Quiet(script) && start.local.secrets == map[] {
        PulledIsInStep(Now(), start.local.records, mirrored);
      }
      res := Ok(());
    }
  }

  /** A lease in hand. `next` is what the namespace counter gives the holder's next write. */
  class Lease {
    const holder: string
    var version: nat
    /** The monotonic time past which nothing is written under this lease: one length of it from the moment the claim,
        or the last renewal, went out. */
    var deadline: int
    var next: nat

    constructor (holder: string, version: nat, deadline: int)
      ensures this.holder == holder && this.version == version && this.deadline == deadline && next == version + 1
    {
      this.holder, this.version, this.deadline, next := holder, version, deadline, version + 1;
    }

    ghost predicate Holds(v: View)
      reads this
    {
      Predicts(version, next, v)
    }

    method Observe(v: nat)
      modifies this`next
      ensures next == if v + 1 > old(next) then v + 1 else old(next)
    {
      if v + 1 > next {
        next := v + 1;
      }
    }

    /** Write the lease record, expecting `expected`. */
    static method PutClaim(m: Mirror, until: int, expected: nat) returns (put: Result<nat, PutError>)
      requires Valid(m.Now())
      modifies m.remote
      ensures Valid(m.Now()) && Leased(old(m.Now()), m.Now())
      ensures Asked(old(m.Mine()), m.Mine(), LeaseKey, Some(expected), false)
      ensures put.Ok? ==> Precondition(old(LiveVersion(m.remote.records, LeaseKey)), Some(expected))
      ensures put.Ok? ==>
        && m.Mine() != old(m.Mine()) && Last(m.Mine()).took == Some(put.value)
        && Last(m.Mine()).was == old(LiveRecord(m.remote.records, m.remote.stamps, LeaseKey))
      ensures put.Err? ==> m.remote.State() == old(m.remote.State())
      ensures put.Err? && m.Mine() != old(m.Mine()) ==> Last(m.Mine()).took.None?
      ensures put.Err? ==> m.remote.down || RefusedLast(m.Mine())
      ensures put == Err(Other) ==> m.remote.down
      ensures put.Ok? ==> Predicts(put.value, put.value + 1, m.Now())
      ensures put.Ok? ==> LiveValue(m.remote.records, LeaseKey) == Some(LeaseClaim(m.holder, until))
      ensures put.Err? && Precondition(old(LiveVersion(m.remote.records, LeaseKey)), Some(expected)) ==>
        put.error == Other
    {
      hide Valid, Leased, LiveRecord, Precondition, RefusedIn, Obedient, OwnOps;
      ghost var before := m.Now();
      put := AskPut(m, LeaseKey, LeaseClaim(m.holder, until), expected);
      if put.Ok? {
        ClaimLands(before, LeaseClaim(m.holder, until), expected, m.remoteClock);
      } else if put.error == Other {
        LeasedNowhere(before);
      } else {
        ClaimRefused(before, Some(expected), false);
      }
    }

    /** Claim the lease record as it was found, at `expected`, by the clock `now`. */
    static method Claim(m: Mirror, now: int, expected: nat) returns (res: Result<Option<Lease>, ()>)
      requires Valid(m.Now()) && Precondition(LiveVersion(m.remote.records, LeaseKey), Some(expected))
      modifies m`secrets, m`dirty, m`mono, m`wall, m`remoteClock, m`script, m.store`records, m.remote
      ensures Valid(m.Now()) && Leased(old(m.Now()), m.Now())
      ensures |old(m.script)| > 0 ==> |m.script| < |old(m.script)|
      ensures Asked(old(m.Mine()), m.Mine(), LeaseKey, Some(expected), false)
      ensures m.Mine() != old(m.Mine()) && Last(m.Mine()).took.Some? ==>
        Last(m.Mine()).was == old(LiveRecord(m.remote.records, m.remote.stamps, LeaseKey))
      ensures res.Ok? && res.value.Some? <==> m.Mine() != old(m.Mine()) && Last(m.Mine()).took.Some?
      ensures old(Quiet(m.script)) ==> res != Ok(None)
      ensures res.Err? ==> m.remote.down
      ensures Still(old(m.Now()), m.Now())
      ensures res.Ok? && res.value.Some? ==>
        fresh(res.value.value) && res.value.value.holder == m.holder && res.value.value.Holds(m.Now())
      ensures res.Ok? && res.value.Some? ==>
        && Last(m.Mine()).took == Some(res.value.value.version)
        && res.value.value.deadline == old(m.mono) + 120_000
        && LiveValue(m.remote.records, LeaseKey) == Some(LeaseClaim(m.holder, now + 120))
    {
      hide Valid, Leased, Beside, LiveRecord, RefusedIn, Obedient, OwnOps;
      ghost var start := m.Now();
      var sent := m.mono;
      Pause(m);
      ghost var before := m.Now();
      if Quiet(start.script) {
        NobodyTookIt(start, before);
      }
      var put := PutClaim(m, now + LEASE_TTL_SECS, expected);
      LeasedThrough(start, before, m.Now());
      if put.Ok? {
        FoundAsRead(start, before, expected);
      }
      match put {
        case Ok(version) =>
          var lease := new Lease(m.holder, version, sent + LEASE_TTL_MS);
          res := Ok(Some(lease));
        case Err(Conflict(_)) => res := Ok(None);
        case Err(Other) => res := Err(());
      }
    }

    /** Wait for an answer. */
    static method Pause(m: Mirror)
      requires Valid(m.Now())
      modifies m`secrets, m`dirty, m`mono, m`wall, m`remoteClock, m`script, m.store`records, m.remote
      ensures Valid(m.Now()) && Leased(old(m.Now()), m.Now()) && Beside(old(m.Now()), m.Now())
      ensures m.Mine() == old(m.Mine()) && m.mono >= old(m.mono) && Still(old(m.Now()), m.Now())
      ensures |m.script| <= |old(m.script)| && (|old(m.script)| > 0 ==> |m.script| < |old(m.script)|)
    {
      hide Valid, Leased, RefusedIn, Obedient, OwnOps;
      ghost var start := m.Now();
      m.Await();
      BesideIsLeased(start, m.Now());
      BesideFacts(start, m.Now());
      LeasedFacts(start, m.Now());
    }

    /** The lease record, once the answer is there. */
    static method ReadLease(m: Mirror) returns (current: Result<Option<(Entry, Option<int>)>, ()>)
      requires Valid(m.Now())
      modifies m`secrets, m`dirty, m`mono, m`wall, m`remoteClock, m`script, m.store`records, m.remote
      ensures Valid(m.Now()) && Leased(old(m.Now()), m.Now()) && Still(old(m.Now()), m.Now())
      ensures m.Mine() == old(m.Mine()) && m.mono >= old(m.mono)
      ensures |m.script| <= |old(m.script)| && (|old(m.script)| > 0 ==> |m.script| < |old(m.script)|)
      ensures current == if m.remote.down then Err(()) else Ok(LiveRecord(m.remote.records, m.remote.stamps, LeaseKey))
      ensures old(Quiet(m.script)) ==>
        && Quiet(m.script)
        && LiveRecord(m.remote.records, m.remote.stamps, LeaseKey)
           == old(LiveRecord(m.remote.records, m.remote.stamps, LeaseKey))
    {
      hide Valid, Leased, Beside, Still, LiveRecord, RefusedIn, Obedient, OwnOps;
      ghost var start := m.Now();
      Pause(m);
      if Quiet(start.script) {
        NobodyTookIt(start, m.Now());
      }
      current := m.remote.Get(LeaseKey);
    }

    /** One attempt at the lease: `Ok(None)` when another holder has it. The record it takes over, if there is one,
        had run out by this host's clock or was its own; what it claims is counted from before it asked. */
    static method TryAcquire(m: Mirror) returns (res: Result<Option<Lease>, ()>)
      requires Valid(m.Now())
      modifies m`secrets, m`dirty, m`mono, m`wall, m`remoteClock, m`script, m.store`records, m.remote
      ensures Valid(m.Now()) && Leased(old(m.Now()), m.Now())
      ensures |old(m.script)| > 0 ==> |m.script| < |old(m.script)|
      ensures Claims(old(m.Mine()), m.Mine(), m.holder, old(m.wall))
      ensures res.Err? ==> m.remote.down
      ensures Still(old(m.Now()), m.Now())
      ensures old(Quiet(m.script)) && res.Ok? ==>
        (res.value.Some? <==> old(LeaseIsOpen(m.remote.records, m.remote.stamps, m.holder, m.wall)))
      ensures res.Ok? && res.value.Some? <==> m.Mine() != old(m.Mine()) && Last(m.Mine()).took.Some?
      ensures res.Ok? && res.value.Some? ==>
        fresh(res.value.value) && res.value.value.holder == m.holder && res.value.value.Holds(m.Now())
      ensures res.Ok? && res.value.Some? ==>
        && Last(m.Mine()).took == Some(res.value.value.version)
        && old(m.mono) + 120_000 <= res.value.value.deadline <= m.mono + 120_000
        && LiveValue(m.remote.records, LeaseKey) == Some(LeaseClaim(m.holder, old(m.wall) + 120))
    {
      hide Valid, Leased, Beside, Still, RefusedIn, Obedient, OwnOps, AcquireExpecting, LeaseIsOpen, Predicts,
           LiveRecord,
           Asked, Claims, Last;
      ghost var start := m.Now();
      var now := m.wall;
      OpenMeans(m.remote.records, m.remote.stamps, m.holder, now);
      var current := ReadLease(m);
      ghost var read := m.Now();
      if current.Err? {
        NothingClaimed(start.mine, m.holder, now);
        return Err(());
      }
      OpenMeans(m.remote.records, m.remote.stamps, m.holder, now);
      var expected := AcquireExpecting(current.value, m.holder, now);
      if expected.None? {
        NothingClaimed(start.mine, m.holder, now);
        return Ok(None);
      }
      res := Claim(m, now, expected.value);
      ClaimIsCalledFor(read.mine, m.Mine(), current.value, m.holder, now);
      LeasedThrough(start, read, m.Now());
      LeasedFacts(read, m.Now());
      StillThrough(start, read, m.Now());
    }

    /** Nothing happens around the host, the remote is up, and the lease is open to this host. */
    static ghost predicate Free(m: Mirror)
      reads m, m.remote
    {
      && m.script == [] && !m.remote.down
      && LeaseIsOpen(m.remote.records, m.remote.stamps, m.holder, m.wall)
    }

    /** Try for the lease, for `wait` milliseconds if somebody else has it. */
    static method Acquire(m: Mirror, wait: nat) returns (res: Result<Lease, ()>)
      requires Valid(m.Now())
      modifies m`secrets, m`dirty, m`mono, m`wall, m`remoteClock, m`script, m.store`records, m.remote
      ensures Valid(m.Now()) && Leased(old(m.Now()), m.Now())
      ensures |old(m.script)| > 0 ==> |m.script| < |old(m.script)|
      ensures res.Ok? ==> fresh(res.value) && res.value.holder == m.holder && res.value.Holds(m.Now())
      ensures res.Err? ==> m.remote.down || m.mono >= old(m.mono) + wait
      ensures old(Free(m)) ==> res.Ok? && m.mono == old(m.mono) && res.value.deadline == m.mono + 120_000
    {
      ghost var start := m.Now();
      assert Free(m) ==> m.script == [] && Quiet(m.script) && !m.remote.down;
      hide Valid, Leased, Predicts, Claims, LeaseIsOpen, RefusedIn, Obedient, OwnOps;
      var deadline := m.mono + wait;
      var attempt := TryAcquire(m);
      LeasedFacts(start, m.Now());
      if attempt == Ok(None) {
        ghost var before := m.Now();
        attempt := KeepTrying(m, deadline);
        LeasedThrough(start, before, m.Now());
      }
      res := if attempt.Ok? && attempt.value.Some? then Ok(attempt.value.value) else Err(());
    }

    /** Try again every quarter of a second until `deadline`, as long as somebody else has the lease. */
    static method KeepTrying(m: Mirror, deadline: int) returns (attempt: Result<Option<Lease>, ()>)
      requires Valid(m.Now())
      modifies m`secrets, m`dirty, m`mono, m`wall, m`remoteClock, m`script, m.store`records, m.remote
      ensures Valid(m.Now()) && Leased(old(m.Now()), m.Now())
      ensures |m.script| <= |old(m.script)|
      ensures attempt == Ok(None) ==> m.mono >= deadline
      ensures attempt.Err? ==> m.remote.down
      ensures attempt.Ok? && attempt.value.Some? ==>
        fresh(attempt.value.value) && attempt.value.value.holder == m.holder && attempt.value.value.Holds(m.Now())
    {
      hide Valid, Leased, Predicts, Claims, LeaseIsOpen, RefusedIn, Obedient, OwnOps;
      ghost var start := m.Now();
      LeasedNowhere(start);
      attempt := Ok(None);
      while attempt == Ok(None) && m.mono < deadline
        invariant Valid(m.Now()) && Leased(start, m.Now()) && |m.script| <= |old(m.script)|
        invariant attempt.Err? ==> m.remote.down
        invariant attempt.Ok? && attempt.value.Some? ==>
          fresh(attempt.value.value) && attempt.value.value.holder == m.holder && attempt.value.value.Holds(m.Now())
        decreases deadline - m.mono
      {
        ghost var before := m.Now();
        m.Sleep(250);
        LeasedThrough(start, before, m.Now());
        ghost var slept := m.Now();
        attempt := TryAcquire(m);
        LeasedFacts(before, slept);
        LeasedFacts(slept, m.Now());
        LeasedThrough(start, slept, m.Now());
      }
    }

    /** Before a write is sent: a lease with half of it gone is renewed, over the version held and no other; one that
        ran out is left alone, as it may be somebody else's by now. */
    method RenewIfDue(m: Mirror) returns (res: Result<(), ()>)
      requires Valid(m.Now()) && holder == m.holder
      modifies this, m`secrets, m`dirty, m`mono, m`wall, m`remoteClock, m`script, m.store`records, m.remote
      ensures Valid(m.Now()) && Leased(old(m.Now()), m.Now())
      ensures res.Ok? ==> deadline - old(m.mono) > 60_000
      ensures res.Ok? ==>
        || (version == old(version) && deadline == old(deadline) && m.Now() == old(m.Now()))
        || (deadline == old(m.mono) + 120_000 && old(deadline - m.mono) <= 60_000
            && LiveValue(m.remote.records, LeaseKey) == Some(LeaseClaim(holder, old(m.wall) + 120)))
      ensures res.Err? ==> version == old(version) && deadline == old(deadline) && next == old(next)
      ensures Asked(old(m.Mine()), m.Mine(), LeaseKey, Some(old(version)), false)
      ensures m.Mine() != old(m.Mine()) ==> Last(m.Mine()).took == (if res.Ok? then Some(version) else None)
      ensures m.Mine() == old(m.Mine()) ==> version == old(version)
      ensures deadline >= old(deadline)
      ensures Still(old(m.Now()), m.Now())
      ensures old(Quiet(m.script)) && old(Holds(m.Now())) && res.Err? ==> old(deadline - m.mono) <= 0 || m.remote.down
      ensures old(deadline - m.mono) <= 0 ==> res.Err? && m.Now() == old(m.Now())
      ensures res.Err? ==> deadline <= m.mono || m.remote.down || RefusedLast(m.Mine())
      ensures old(Quiet(m.script)) && old(Holds(m.Now())) ==> Holds(m.Now())
    {
      hide Valid, Leased, RefusedIn, Obedient, OwnOps;
      ghost var start := m.Now();
      LeasedNowhere(start);
      var left := deadline - m.mono;
      if left > LEASE_TTL_MS / 2 {
        return Ok(());
      }
      if left <= 0 {
        return Err(());
      }
      var sent := m.mono;
      var until := m.wall + LEASE_TTL_SECS;
      Pause(m);
      ghost var before := m.Now();
      var put := PutClaim(m, until, version);
      LeasedThrough(start, before, m.Now());
      if put.Err? {
        return Err(());
      }
      version, deadline := put.value, sent + LEASE_TTL_MS;
      Observe(put.value);
      res := Ok(());
    }

    /** Delete the lease record, expecting `expected`. */
    static method DeleteClaim(m: Mirror, expected: nat)
      requires Valid(m.Now())
      modifies m.remote
      ensures Valid(m.Now()) && Leased(old(m.Now()), m.Now())
      ensures Asked(old(m.Mine()), m.Mine(), LeaseKey, Some(expected), true)
      ensures !m.remote.down ==> LiveVersion(m.remote.records, LeaseKey) != Some(expected)
    {
      hide Valid, Leased, LiveRecord, RefusedIn, Obedient, OwnOps;
      ghost var before := m.Now();
      var res := AskDelete(m, LeaseKey, Some(expected));
      if res.Ok? && res.value.Some? {
        ReleaseLands(before, Some(expected), m.remoteClock);
      } else if res.Ok? || res.error == Other {
        LeasedNowhere(before);
      } else {
        ClaimRefused(before, Some(expected), true);
      }
    }

    /** Give the lease up, if it is still the one held; if the remote cannot be reached, it expires. */
    method Release(m: Mirror)
      requires Valid(m.Now()) && holder == m.holder
      modifies m`secrets, m`dirty, m`mono, m`wall, m`remoteClock, m`script, m.store`records, m.remote
      ensures Valid(m.Now()) && Leased(old(m.Now()), m.Now())
      ensures Asked(old(m.Mine()), m.Mine(), LeaseKey, Some(version), true)
      ensures !m.remote.down ==> LiveVersion(m.remote.records, LeaseKey) != Some(version)
    {
      hide Valid, Leased, RefusedIn, Obedient, OwnOps;
      ghost var start := m.Now();
      Pause(m);
      ghost var before := m.Now();
      DeleteClaim(m, version);
      LeasedThrough(start, before, m.Now());
    }
  }

  /** With nobody else writing, the lease record stays as it is. */
  lemma NobodyTookIt(a: View, b: View)
    requires Valid(a) && Valid(b) && Beside(a, b) && Quiet(a.script)
    ensures Quiet(b.script)
    ensures LiveRecord(b.remote.records, b.stamps, LeaseKey) == LiveRecord(a.remote.records, a.stamps, LeaseKey)
  {
    hide Careful, Sourced, Sighted, Accounts, Sane, Marked;
  }

  /** A claim that lands replaces the record that was read, whatever happened in between. */
  lemma FoundAsRead(read: View, sending: View, expected: nat)
    requires Valid(read) && Valid(sending) && Beside(read, sending)
    requires Precondition(LiveVersion(read.remote.records, LeaseKey), Some(expected))
    requires Precondition(LiveVersion(sending.remote.records, LeaseKey), Some(expected))
    ensures LiveRecord(sending.remote.records, sending.stamps, LeaseKey)
         == LiveRecord(read.remote.records, read.stamps, LeaseKey)
  {
    hide Careful, Sourced, Sighted, Accounts, Sane, Marked;
  }

  /** The lease is held, nobody else writes, and the secret's record is at `expected` (0: there is none). */
  ghost predicate Alone(m: Mirror, name: string, expected: nat, lease: Lease)
    reads m, m.store, m.remote, lease
  {
    && Quiet(m.script) && lease.Holds(m.Now())
    && LiveVersion(m.remote.records, SecretKey(name)) == (if expected == 0 then None else Some(expected))
  }

  /** Renew the lease if it is due, and send the next request, about a secret: everything that happens meanwhile. */
  method RenewAndSend(m: Mirror, name: string, ghost expected: nat, lease: Lease) returns (res: Result<(), ()>)
    requires Valid(m.Now()) && lease.holder == m.holder && (expected == 0 || Known(m.Now(), SecretKey(name), expected))
    modifies lease, m`secrets, m`dirty, m`mono, m`wall, m`remoteClock, m`script, m.store`records, m.remote
    ensures Valid(m.Now()) && Written(old(m.Now()), m.Now(), SecretKey(name), false)
    ensures expected == 0 || Known(m.Now(), SecretKey(name), expected)
    ensures lease.deadline >= old(lease.deadline)
    ensures LandedOn(m.Mine(), SecretKey(name)) == old(LandedOn(m.Mine(), SecretKey(name)))
    ensures res.Ok? ==> lease.deadline - old(m.mono) > 60_000
    ensures res.Err? ==> lease.deadline <= m.mono || m.remote.down || RefusedLast(m.Mine())
    ensures old(Alone(m, name, expected, lease)) && res.Err? ==> m.remote.down || lease.deadline <= m.mono
    ensures old(Alone(m, name, expected, lease)) ==>
      && Alone(m, name, expected, lease)
      && SameRecord(old(m.remote.records), m.remote.records, SecretKey(name))
      && LookUp(m.remote.puts, SecretKey(name)) == LookUp(old(m.remote.puts), SecretKey(name))
  {
    hide Valid, Leased, Written, Beside, Asked, Known, RefusedIn, Obedient, OwnOps, LandedOn, RefusedLast, Last;
    ghost var start := m.Now();
    res := lease.RenewIfDue(m);
    ghost var ready := m.Now();
    LeasedFacts(start, ready);
    if res.Ok? {
      m.Await();
      LeasedThenBeside(start, ready, m.Now());
      BesideFacts(ready, m.Now());
      StillThrough(start, ready, m.Now());
      if Quiet(start.script) && lease.Holds(ready) {
        BesideKeepsLease(ready, m.Now(), lease.version, lease.next);
      }
    }
    ghost var sending := m.Now();
    LeasedIsWritten(start, sending, SecretKey(name));
    LeasedMine(start, sending);
    LeasedLandsNothing(start, sending, SecretKey(name));
    if expected != 0 {
      KnownStays(start, sending, SecretKey(name), expected);
    }
    if Quiet(start.script) {
      LeasedRecord(start, sending, SecretKey(name));
    }
  }

  /** A put by the host, as the remote decides it. */
  method AskPut(m: Mirror, item: Key, value: Value, expected: nat) returns (put: Result<nat, PutError>)
    modifies m.remote
    ensures put.Ok? ==>
      && Precondition(old(LiveVersion(m.remote.records, item)), Some(expected))
      && m.Now() == AfterPut(old(m.Now()), item, value, expected, m.remoteClock) && put.value == m.remote.counter
    ensures put.Err? && put.error == Other ==> m.Now() == old(m.Now())
    ensures put.Err? && put.error != Other ==>
      && !Precondition(old(LiveVersion(m.remote.records, item)), Some(expected))
      && m.Now() == AfterRefusal(old(m.Now()), item, Some(expected), false)
    ensures m.remote.down == old(m.remote.down) && (m.remote.down <==> put == Err(Other))
  {
    hide OwnOps, LiveRecord;
    ghost var was := m.remote.log;
    put := m.remote.Put(item, value, Some(expected), m.remoteClock, m.holder);
    if m.remote.log != was {
      OwnOpsMore(was, m.remote.log[|was|], m.holder);
    }
  }

  /** A deletion by the host, as the remote decides it. */
  method AskDelete(m: Mirror, item: Key, expected: Option<nat>) returns (res: Result<Option<nat>, PutError>)
    modifies m.remote
    ensures res.Ok? && res.value.Some? ==>
      && old(LiveVersion(m.remote.records, item)).Some?
      && Precondition(old(LiveVersion(m.remote.records, item)), expected)
      && m.Now() == AfterDelete(old(m.Now()), item, expected, m.remoteClock) && res.value.value == m.remote.counter
    ensures res == Ok(None) ==> old(LiveVersion(m.remote.records, item)).None? && m.Now() == old(m.Now())
    ensures res == Err(Other) ==> m.Now() == old(m.Now())
    ensures res.Err? && res.error != Other ==>
      && !Precondition(old(LiveVersion(m.remote.records, item)), expected)
      && m.Now() == AfterRefusal(old(m.Now()), item, expected, true)
    ensures m.remote.down == old(m.remote.down) && (m.remote.down <==> res == Err(Other))
  {
    hide OwnOps, LiveRecord;
    ghost var was := m.remote.log;
    res := m.remote.Delete(item, expected, m.remoteClock, m.holder);
    if m.remote.log != was {
      OwnOpsMore(was, m.remote.log[|was|], m.holder);
    }
  }

  /** Put a mirrored key, expecting the version this host goes by (0: nothing there). */
  method HostPut(m: Mirror, item: Key, value: Value, expected: nat) returns (put: Result<nat, PutError>)
    requires Valid(m.Now()) && Mirrored(item)
    requires expected == 0 || Known(m.Now(), item, expected)
    modifies m.remote
    ensures Valid(m.Now()) && Written(old(m.Now()), m.Now(), item, put.Err? && put.error.Conflict?)
    ensures put.Ok? ==> put.value == m.remote.counter && Known(m.Now(), item, put.value)
    ensures put.Ok? ==> m.remote.State() == PutAt(old(m.remote.State()), item, value)
    ensures put.Ok? ==> PutOnce(old(m.remote.puts), m.remote.puts, item)
    ensures put.Err? ==> m.remote.State() == old(m.remote.State())
    ensures Asked(old(m.Mine()), m.Mine(), item, Some(expected), false)
    ensures put.Ok? ==> LandedLast(m.Now(), item, put.value)
    ensures put == Err(Other) ==> m.remote.down
    ensures LandedOn(m.Mine(), item) == old(LandedOn(m.Mine(), item)) + (if put.Ok? then 1 else 0)
    ensures put.Err? ==> m.remote.down || RefusedLast(m.Mine())
    ensures LiveVersion(m.remote.records, LeaseKey) == old(LiveVersion(m.remote.records, LeaseKey))
    ensures Precondition(old(LiveVersion(m.remote.records, item)), Some(expected)) && put.Err? ==> put.error == Other
  {
    hide Valid, Written, PutOnce, Known, LiveRecord, RefusedIn, Obedient, OwnOps, LandedOn, Last;
    ghost var start := m.Now();
    put := AskPut(m, item, value, expected);
    if m.Mine() != start.mine {
      LandedOnMore(start.mine, m.Mine()[|start.mine|], item);
    }
    if put.Ok? {
      PutLands(start, item, value, expected, m.remoteClock);
    } else if put.error == Other {
      LeasedNowhere(start);
      LeasedIsWritten(start, start, item);
    } else {
      WriteRefused(start, item, Some(expected), false);
    }
  }

  /** Delete a mirrored key, expecting the version this host goes by, if any. */
  method HostDelete(m: Mirror, item: Key, expected: Option<nat>) returns (res: Result<Option<nat>, PutError>)
    requires Valid(m.Now()) && Mirrored(item)
    requires expected.Some? ==> Known(m.Now(), item, expected.value)
    modifies m.remote
    ensures Valid(m.Now()) && Written(old(m.Now()), m.Now(), item, res.Err? && res.error.Conflict?)
    ensures res.Ok? ==> m.remote.State() == DeleteAt(old(m.remote.State()), item)
    ensures res.Ok? && res.value.Some? ==> res.value.value == m.remote.counter
    ensures res == Ok(None) ==> m.remote.counter == old(m.remote.counter)
    ensures res.Err? ==> m.remote.State() == old(m.remote.State())
    ensures Asked(old(m.Mine()), m.Mine(), item, expected, true)
    ensures res == Err(Other) ==> m.remote.down
    ensures LiveVersion(m.remote.records, LeaseKey) == old(LiveVersion(m.remote.records, LeaseKey))
    ensures Precondition(old(LiveVersion(m.remote.records, item)), expected) && res.Err? ==> res.error == Other
  {
    hide Valid, Written, Known, LiveRecord, RefusedIn, Obedient, OwnOps;
    ghost var start := m.Now();
    res := AskDelete(m, item, expected);
    if res.Ok? && res.value.Some? {
      DeleteLands(start, item, expected, m.remoteClock);
    } else if res.Ok? || res.error == Other {
      LeasedNowhere(start);
      LeasedIsWritten(start, start, item);
    } else {
      WriteRefused(start, item, expected, true);
    }
  }

  /** One attempt at a sealed secret: renew the lease, seal to the version predicted, put. Returns the
      version taken and whether it is the one the secret was sealed to. */
  method SealAndPut(m: Mirror, name: string, bytes: Bytes, expected: nat, lease: Lease)
    returns (res: Result<(nat, bool), PutError>)
    requires Valid(m.Now()) && lease.holder == m.holder && SecretIsMirrored(name)
    requires expected == 0 || Known(m.Now(), SecretKey(name), expected)
    modifies lease, m`secrets, m`dirty, m`mono, m`wall, m`remoteClock, m`script, m.store`records, m.remote
    ensures Valid(m.Now())
    ensures Written(old(m.Now()), m.Now(), SecretKey(name), res.Err? && res.error.Conflict?)
    ensures res.Ok? ==> Known(m.Now(), SecretKey(name), res.value.0)
    ensures res.Ok? && res.value.1 ==> StoredSealed(m.remote.records, m.sealKey, name, res.value.0, bytes)
    ensures res.Ok? ==> LandedLast(m.Now(), SecretKey(name), res.value.0)
    ensures lease.deadline >= old(lease.deadline)
    ensures res.Ok? ==> lease.deadline - old(m.mono) > 60_000
    ensures LandedOn(m.Mine(), SecretKey(name)) == old(LandedOn(m.Mine(), SecretKey(name))) + (if res.Ok? then 1 else 0)
    ensures res.Err? ==> lease.deadline <= m.mono || m.remote.down || RefusedLast(m.Mine())
    ensures old(Alone(m, name, expected, lease)) && res.Err? ==> m.remote.down || lease.deadline <= m.mono
    ensures old(Alone(m, name, expected, lease)) ==> lease.Holds(m.Now())
    ensures old(Alone(m, name, expected, lease)) && res.Ok? ==>
      res.value.1 && PutOnce(old(m.remote.puts), m.remote.puts, SecretKey(name))
    ensures old(Alone(m, name, expected, lease)) && res.Err? ==>
      res.error == Other && SameRecord(old(m.remote.records), m.remote.records, SecretKey(name))
  {
    hide Valid, Written, PutOnce, Asked, Known, RefusedIn, Obedient, OwnOps, LandedOn, RefusedLast, Last,
         LandedLast, StoredSealed;
    var key := SecretKey(name);
    ghost var start := m.Now();
    var renewed := RenewAndSend(m, name, expected, lease);
    ghost var sending := m.Now();
    if renewed.Err? {
      return Err(Other);
    }
    res := PutPredicted(m, name, bytes, expected, lease);
    WrittenThrough(start, sending, m.Now(), key, res.Err? && res.error.Conflict?);
    if res.Ok? {
      PutOnceFrom(start.puts, sending.puts, m.remote.puts, key);
    }
  }

  /** The secret is sealed to the version the lease predicts, and put. */
  method PutPredicted(m: Mirror, name: string, bytes: Bytes, expected: nat, lease: Lease)
    returns (res: Result<(nat, bool), PutError>)
    requires Valid(m.Now()) && SecretIsMirrored(name)
    requires expected == 0 || Known(m.Now(), SecretKey(name), expected)
    modifies lease`next, m.remote
    ensures Valid(m.Now())
    ensures Written(old(m.Now()), m.Now(), SecretKey(name), res.Err? && res.error.Conflict?)
    ensures res.Ok? ==> Known(m.Now(), SecretKey(name), res.value.0)
    ensures res.Ok? && res.value.1 ==> StoredSealed(m.remote.records, m.sealKey, name, res.value.0, bytes)
    ensures res.Ok? ==> LandedLast(m.Now(), SecretKey(name), res.value.0)
    ensures LandedOn(m.Mine(), SecretKey(name)) == old(LandedOn(m.Mine(), SecretKey(name))) + (if res.Ok? then 1 else 0)
    ensures res.Err? ==> m.remote.down || RefusedLast(m.Mine())
    ensures res.Ok? ==> PutOnce(old(m.remote.puts), m.remote.puts, SecretKey(name))
    ensures old(Alone(m, name, expected, lease)) ==> lease.Holds(m.Now())
    ensures old(Alone(m, name, expected, lease)) && res.Ok? ==> res.value.1
    ensures old(Alone(m, name, expected, lease)) && res.Err? ==>
      res.error == Other && m.remote.down && SameRecord(old(m.remote.records), m.remote.records, SecretKey(name))
  {
    hide Valid, Written, PutOnce, Known, RefusedIn, Obedient, OwnOps, LandedOn, RefusedLast, Last, LandedLast;
    var predicted := lease.next;
    var put := HostPut(m, SecretKey(name), Sealed(m.sealKey, SecretAad(name, predicted), bytes), expected);
    if put.Err? {
      return Err(put.error);
    }
    lease.Observe(put.value);
    res := Ok((put.value, put.value == predicted));
  }

  /** A secret is sealed to the version the lease predicts and put. Where the prediction fails, since somebody wrote
      without the lease, that is done over, four times at most. */
  method PutSealed(m: Mirror, name: string, bytes: Bytes, current: Option<nat>, lease: Lease)
    returns (res: Result<nat, PutError>)
    requires Valid(m.Now()) && lease.holder == m.holder && SecretIsMirrored(name)
    requires current.Some? ==> Known(m.Now(), SecretKey(name), current.value)
    modifies lease, m`secrets, m`dirty, m`mono, m`wall, m`remoteClock, m`script, m.store`records, m.remote
    ensures Valid(m.Now())
    ensures Written(old(m.Now()), m.Now(), SecretKey(name), res.Err? && res.error.Conflict?)
    ensures res.Ok? ==> StoredSealed(m.remote.records, m.sealKey, name, res.value, bytes)
    ensures res.Ok? ==> LandedLast(m.Now(), SecretKey(name), res.value)
    ensures lease.deadline >= old(lease.deadline)
    ensures var landed := LandedOn(m.Mine(), SecretKey(name)) - old(LandedOn(m.Mine(), SecretKey(name)));
      && landed <= 4
      && (res.Err? ==> landed == 4 || lease.deadline <= m.mono || m.remote.down || RefusedLast(m.Mine()))
    ensures old(Alone(m, name, OrZero(current), lease)) && res.Err? ==> m.remote.down || lease.deadline <= m.mono
    ensures res.Ok? ==> Known(m.Now(), SecretKey(name), res.value)
    ensures old(Alone(m, name, OrZero(current), lease)) ==> lease.Holds(m.Now())
    ensures old(Alone(m, name, OrZero(current), lease)) && res.Ok? ==>
      PutOnce(old(m.remote.puts), m.remote.puts, SecretKey(name))
    ensures old(Alone(m, name, OrZero(current), lease)) && res.Err? ==>
      res.error == Other && SameRecord(old(m.remote.records), m.remote.records, SecretKey(name))
  {
    hide Valid, Written, RefusedIn, Obedient, OwnOps, LandedOn, RefusedLast;
    ghost var start := m.Now();
    ghost var alone := Alone(m, name, OrZero(current), lease);
    var expected := OrZero(current);
    var put := SealAndPut(m, name, bytes, expected, lease);
    var attempts := 1;
    while attempts < 4 && put.Ok? && !put.value.1
      invariant Valid(m.Now()) && Written(start, m.Now(), SecretKey(name), put.Err? && put.error.Conflict?)
      invariant put.Ok? ==> Known(m.Now(), SecretKey(name), put.value.0)
      invariant put.Ok? && put.value.1 ==> StoredSealed(m.remote.records, m.sealKey, name, put.value.0, bytes)
      invariant put.Ok? ==> LandedLast(m.Now(), SecretKey(name), put.value.0)
      invariant LandedOn(m.Mine(), SecretKey(name)) - LandedOn(start.mine, SecretKey(name))
             == (if put.Ok? then attempts else attempts - 1)
      invariant attempts <= 4
      invariant put.Err? ==> lease.deadline <= m.mono || m.remote.down || RefusedLast(m.Mine())
      invariant alone && put.Err? ==> m.remote.down || lease.deadline <= m.mono
      invariant lease.deadline >= old(lease.deadline)
      invariant alone ==> lease.Holds(m.Now()) && (put.Ok? ==> put.value.1)
      invariant alone && put.Ok? ==> PutOnce(start.puts, m.remote.puts, SecretKey(name))
      invariant alone && put.Err? ==>
        put.error == Other && SameRecord(start.remote.records, m.remote.records, SecretKey(name))
    {
      ghost var before := m.Now();
      expected := put.value.0;
      put := SealAndPut(m, name, bytes, expected, lease);
      WrittenThrough(start, before, m.Now(), SecretKey(name), put.Err? && put.error.Conflict?);
      attempts := attempts + 1;
    }
    res := if put.Err? then Err(put.error) else if put.value.1 then Ok(put.value.0) else Err(Other);
  }

  function OrZero(v: Option<nat>): nat {
    if v.Some? then v.value else 0
  }
}
