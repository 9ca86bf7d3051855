/** The mirror (crates/vgi-bridge/src/appstate.rs): what the specifications of its methods are stated in.
    `Synced` is the write-back invariant; `Careful` and `Obedient` are about what this host asked of the remote. */
module Mirroring {
  import opened Wrappers
  import opened Keys
  import opened AppState

  const MAX_VALUE_BYTES := 65_536
  const LEASE_TTL_SECS := 120

  /** The keys the mirror writes. */
  predicate Mirrored(k: Key) {
    match k
    case StateKey(t, local) => RecordIsMirrored(t, local)
    case SecretKey(name) => SecretIsMirrored(name)
    case _ => false
  }

  /** What this host holds: its cached records and, in memory only, its secrets. */
  datatype Local = Local(records: map<Key, Value>, secrets: map<string, Bytes>)

  predicate SameAt(a: Local, b: Local, k: Key) {
    match k
    case StateKey(_, _) => LookUp(a.records, k) == LookUp(b.records, k)
    case SecretKey(name) => LookUp(a.secrets, name) == LookUp(b.secrets, name)
    case _ => true
  }

  function LookUp<K, V>(m: map<K, V>, k: K): Option<V> {
    if k in m then Some(m[k]) else None
  }

  /** The serialised size of a value; a sealed secret's is that of its base64, whatever it is bound to. */
  function Size(v: Value): nat {
    match v
    case Json(text) => |text|
    case LeaseClaim(holder, _) => |holder| + 33
    case Sealed(_, _, body) => 13 + 4 * ((|body| + 31) / 3)
  }

  /** The value a pass would write for `k` now; the version a secret is sealed to plays no part in it. */
  function Outgoing(local: Local, key: string, k: Key): Option<Value> {
    match k
    case StateKey(_, _) => LookUp(local.records, k)
    case SecretKey(name) =>
      if name in local.secrets then Some(Sealed(key, SecretAad(name, 0), local.secrets[name])) else None
    case _ => None
  }

  predicate Oversized(local: Local, key: string, k: Key) {
    var v := Outgoing(local, key, k);
    v.Some? && Size(v.value) > MAX_VALUE_BYTES
  }

  /** The remote holds for `k` exactly what this host holds: a secret sealed to its own version. */
  predicate Agrees(entries: map<Key, Entry>, local: Local, key: string, k: Key) {
    match k
    case StateKey(_, _) => LiveValue(entries, k) == LookUp(local.records, k)
    case SecretKey(name) =>
      if name in local.secrets then
        LiveVersion(entries, k).Some?
        && LiveValue(entries, k) == Some(Sealed(key, SecretAad(name, entries[k].version), local.secrets[name]))
      else LiveVersion(entries, k).None?
    case _ => true
  }

  /** No live secret was sealed for anything but its own record. */
  ghost predicate SecretsOpen(entries: map<Key, Entry>, key: string) {
    forall name :: LiveVersion(entries, SecretKey(name)).Some? ==>
      Opens(entries, key, name)
  }

  predicate Opens(entries: map<Key, Entry>, key: string, name: string)
    requires LiveVersion(entries, SecretKey(name)).Some?
  {
    var e := entries[SecretKey(name)];
    e.value.value.Sealed? && e.value.value.key == key && e.value.value.aad == SecretAad(name, e.version)
  }

  /** MAIN RESULT. A sealed secret stored under another name, or at another version, than it was sealed for does not
      open; and a remote with one is refused by a pull. */
  lemma ReplayedSecretDoesNotOpen(entries: map<Key, Entry>, key: string, name: string, version: nat, at: string,
                                  body: Bytes)
    requires LiveValue(entries, SecretKey(at)) == Some(Sealed(key, SecretAad(name, version), body))
    ensures Opens(entries, key, at) <==> at == name && entries[SecretKey(at)].version == version
    ensures !(at == name && entries[SecretKey(at)].version == version) ==> !SecretsOpen(entries, key)
  {
    if Opens(entries, key, at) {
      SecretAadInjective(name, version, at, entries[SecretKey(at)].version);
    }
  }

  /** The write-back invariant: this host knows the version of every record, every secret opens, and
      host and remote disagree only on keys still owed to the remote (or too large for it). */
  ghost predicate Synced(entries: map<Key, Entry>, local: Local, key: string, versions: map<Key, nat>, owed: set<Key>) {
    && (forall k :: Mirrored(k) ==> LiveVersion(entries, k) == LookUp(versions, k))
    && (forall k :: Mirrored(k) && k !in owed ==> Agrees(entries, local, key, k) || Oversized(local, key, k))
    && SecretsOpen(entries, key)
  }

  /** The same live record at `k`. */
  ghost predicate SameRecord(a: map<Key, Entry>, b: map<Key, Entry>, k: Key) {
    LiveVersion(a, k) == LiveVersion(b, k) && LiveValue(a, k) == LiveValue(b, k)
  }

  /** The same live records, the lease aside. */
  ghost predicate SameLive(a: map<Key, Entry>, b: map<Key, Entry>) {
    forall k :: k != LeaseKey ==> SameRecord(a, b, k)
  }

  lemma SameLiveThrough(a: map<Key, Entry>, b: map<Key, Entry>, c: map<Key, Entry>)
    requires SameLive(a, b) && SameLive(b, c)
    ensures SameLive(a, c)
  {
    forall k | k != LeaseKey ensures SameRecord(a, c, k) {
      assert SameRecord(a, b, k) && SameRecord(b, c, k);
    }
  }

  /** Every mirrored change from `was` to `local` is marked in `dirty`. */
  ghost predicate Marks(was: Local, local: Local, dirty: set<Key>) {
    forall k :: Mirrored(k) && !SameAt(was, local, k) ==> k in dirty
  }

  lemma MarksThrough(a: Local, b: Local, c: Local, dirty: set<Key>, dirty': set<Key>)
    requires Marks(a, b, dirty) && Marks(b, c, dirty') && dirty <= dirty'
    ensures Marks(a, c, dirty')
  {
    forall k | Mirrored(k) && !SameAt(a, c, k) ensures k in dirty' {
      assert !SameAt(a, b, k) || !SameAt(b, c, k);
    }
  }

  /** Changes made beside a pass keep the invariant: they are owed, and the remote has not moved. */
  lemma SyncedStays(before: map<Key, Entry>, entries: map<Key, Entry>, was: Local, local: Local, key: string,
                    versions: map<Key, nat>, owed: set<Key>, owed': set<Key>)
    requires Synced(before, was, key, versions, owed) && SameLive(before, entries)
    requires owed <= owed' && Marks(was, local, owed')
    ensures Synced(entries, local, key, versions, owed')
  {
    forall name | LiveVersion(entries, SecretKey(name)).Some? ensures Opens(entries, key, name) {
      assert SameRecord(before, entries, SecretKey(name));
      assert Opens(before, key, name);
    }
    forall k | Mirrored(k)
      ensures LiveVersion(entries, k) == LookUp(versions, k)
      ensures k in owed' || Agrees(entries, local, key, k) || Oversized(local, key, k)
    {
      assert SameRecord(before, entries, k);
    }
  }

  /** A write of `item` that landed settles what was owed for it, unless it changed again meanwhile. */
  lemma WriteSettles(before: map<Key, Entry>, entries: map<Key, Entry>, was: Local, local: Local, key: string,
                     versions: map<Key, nat>, versions': map<Key, nat>, item: Key, owed: set<Key>, owed': set<Key>)
    requires Synced(before, was, key, versions, owed + {item}) && Mirrored(item)
    requires forall k :: k != LeaseKey && k != item ==> SameRecord(before, entries, k)
    requires forall k :: Mirrored(k) && k != item ==> LookUp(versions', k) == LookUp(versions, k)
    requires LookUp(versions', item) == LiveVersion(entries, item)
    requires owed <= owed' && Marks(was, local, owed')
    requires Agrees(entries, was, key, item)
    ensures Synced(entries, local, key, versions', owed')
  {
    forall name | LiveVersion(entries, SecretKey(name)).Some? ensures Opens(entries, key, name) {
      if SecretKey(name) != item {
        assert SameRecord(before, entries, SecretKey(name));
        assert Opens(before, key, name);
      }
    }
    forall k | Mirrored(k)
      ensures LiveVersion(entries, k) == LookUp(versions', k)
      ensures k in owed' || Agrees(entries, local, key, k) || Oversized(local, key, k)
    {
      if k != item {
        assert SameRecord(before, entries, k);
      }
    }
  }

  // ---- What this host asked of the remote ----

  /** The requests of `holder`'s that the remote decided, in order. */
  ghost function OwnOps(log: seq<Op>, holder: string): seq<Op> {
    if |log| == 0 then []
    else
      var last, rest := log[|log| - 1], OwnOps(log[..|log| - 1], holder);
      if last.who == holder then rest + [last] else rest
  }

  lemma OwnOpsMore(log: seq<Op>, op: Op, holder: string)
    ensures OwnOps(log + [op], holder) == OwnOps(log, holder) + (if op.who == holder then [op] else [])
  {
    assert (log + [op])[..|log|] == log;
  }

  predicate Rejected(op: Op) {
    Mirrored(op.key) && op.took.None?
  }

  predicate Landed(op: Op) {
    Mirrored(op.key) && op.took.Some?
  }

  /** Whether a write of a mirrored key was refused. */
  ghost predicate RefusedIn(mine: seq<Op>) {
    exists i :: 0 <= i < |mine| && Rejected(mine[i])
  }

  /** Nothing landed after a refusal. */
  ghost predicate Obedient(mine: seq<Op>) {
    forall i, j :: 0 <= i < j < |mine| && Rejected(mine[i]) ==> !Landed(mine[j])
  }

  lemma ObedientMore(mine: seq<Op>, op: Op)
    ensures RefusedIn(mine + [op]) == (RefusedIn(mine) || Rejected(op))
    ensures Obedient(mine + [op]) == (Obedient(mine) && (Landed(op) ==> !RefusedIn(mine)))
  {
    var more := mine + [op];
    assert more[|mine|] == op && forall i :: 0 <= i < |mine| ==> more[i] == mine[i];
    if RefusedIn(mine) {
      var i :| 0 <= i < |mine| && Rejected(mine[i]);
      assert Rejected(more[i]);
    }
    if Obedient(more) {
      forall i, j | 0 <= i < j < |mine| && Rejected(mine[i]) ensures !Landed(mine[j]) {
        assert Rejected(more[i]) && !Landed(more[j]);
      }
    }
  }

  /** Before its `n`th request the host had read `k` at version `x` in a listing, or its own write took it there.
      Each of `pulled` is a reading: after how many requests, of which key, and the version. */
  ghost predicate Saw(mine: seq<Op>, pulled: set<(nat, Key, nat)>, n: nat, k: Key, x: nat) {
    || (exists j :: j <= n && (j, k, x) in pulled)
    || (exists i :: 0 <= i < n && i < |mine| && mine[i].key == k && mine[i].took == Some(x))
  }

  /** What the `n`th request replaced, if it landed, is the version it named, which is the newest the host had seen
      of that key. Only a deletion of a key it goes by no version for names none. */
  ghost predicate CarefulAt(mine: seq<Op>, pulled: set<(nat, Key, nat)>, n: nat)
    requires n < |mine|
  {
    var op := mine[n];
    Landed(op) && op.Found().Some? && !(op.deletion && op.expected.None?) ==>
      && op.expected == op.Found()
      && Saw(mine, pulled, n, op.key, op.Found().value)
      && forall x: nat :: Saw(mine, pulled, n, op.key, x) ==> x <= op.Found().value
  }

  ghost predicate Careful(mine: seq<Op>, pulled: set<(nat, Key, nat)>) {
    forall n :: 0 <= n < |mine| ==> CarefulAt(mine, pulled, n)
  }

  /** Every version the host goes by is one it saw of that key. */
  ghost predicate Sourced(mine: seq<Op>, pulled: set<(nat, Key, nat)>, versions: map<Key, nat>) {
    forall k :: k in versions ==> Saw(mine, pulled, |mine|, k, versions[k])
  }

  /** Nothing was seen of a key that is newer than what is there. */
  ghost predicate Sighted(mine: seq<Op>, pulled: set<(nat, Key, nat)>, s: Remote) {
    && (forall r :: r in pulled ==> r.0 <= |mine|)
    && (forall k, x: nat :: Saw(mine, pulled, |mine|, k, x) ==>
          x <= s.counter && (LiveVersion(s.records, k).Some? ==> x <= LiveVersion(s.records, k).value))
  }

  lemma SawMore(mine: seq<Op>, op: Op, pulled: set<(nat, Key, nat)>, n: nat, k: Key, x: nat)
    requires (forall r :: r in pulled ==> r.0 <= |mine|) && n <= |mine| + 1
    ensures Saw(mine + [op], pulled, n, k, x)
         == (Saw(mine, pulled, n, k, x) || (n == |mine| + 1 && op.key == k && op.took == Some(x)))
    ensures n == |mine| + 1 ==> Saw(mine, pulled, n, k, x) == Saw(mine, pulled, |mine|, k, x)
  {
    var more := mine + [op];
    assert more[|mine|] == op && forall i :: 0 <= i < |mine| ==> more[i] == mine[i];
    if exists i :: 0 <= i < n && i < |mine| && mine[i].key == k && mine[i].took == Some(x) {
      var i :| 0 <= i < n && i < |mine| && mine[i].key == k && mine[i].took == Some(x);
      assert more[i] == mine[i];
    }
  }

  /** A listing read now: each live record is seen. */
  function Reading(n: nat, versions: map<Key, nat>): set<(nat, Key, nat)> {
    set k | k in versions :: (n, k, versions[k])
  }

  lemma SawReading(mine: seq<Op>, pulled: set<(nat, Key, nat)>, versions: map<Key, nat>, n: nat, k: Key, x: nat)
    requires n <= |mine|
    ensures Saw(mine, pulled + Reading(|mine|, versions), n, k, x)
         == (Saw(mine, pulled, n, k, x) || (n == |mine| && k in versions && versions[k] == x))
  {
    var more := pulled + Reading(|mine|, versions);
    if exists j :: j <= n && (j, k, x) in pulled {
      var j :| j <= n && (j, k, x) in pulled;
      assert (j, k, x) in more;
    }
    if n == |mine| && k in versions && versions[k] == x {
      assert (n, k, x) in more;
    }
  }

  /** From `a` to `b` the host made no request but of the lease. */
  ghost predicate LeaseOnly(a: seq<Op>, b: seq<Op>) {
    a <= b && forall i :: |a| <= i < |b| ==> b[i].key == LeaseKey
  }

  /** Nor any but of `k` and the lease. */
  ghost predicate RequestsOnly(a: seq<Op>, b: seq<Op>, k: Key) {
    a <= b && forall i :: |a| <= i < |b| ==> b[i].key == k || b[i].key == LeaseKey
  }

  lemma RequestsThrough(a: seq<Op>, b: seq<Op>, c: seq<Op>, k: Key)
    requires RequestsOnly(a, b, k) && RequestsOnly(b, c, k)
    ensures RequestsOnly(a, c, k)
  {
  }

  /** From `a` to `b` it made at most one request: a put or a deletion of `k`, on the condition `expected`. */
  ghost predicate Asked(a: seq<Op>, b: seq<Op>, k: Key, expected: Option<nat>, deletion: bool) {
    || b == a
    || (|b| == |a| + 1 && a <= b && b[|a|].key == k && b[|a|].expected == expected && b[|a|].deletion == deletion
        && (b[|a|].took.Some? ==> Precondition(b[|a|].Found(), expected)))
  }

  /** The records of `s` that are still there in `t` are as they were. */
  ghost predicate Persists(s: Remote, stamps: map<Key, int>, t: Remote, stamps': map<Key, int>) {
    && s.counter <= t.counter
    && forall k :: LiveVersion(t.records, k).Some? && LiveVersion(t.records, k).value <= s.counter ==>
         LiveRecord(t.records, stamps', k) == LiveRecord(s.records, stamps, k)
  }

  lemma PersistsThrough(s: Remote, stamps: map<Key, int>, t: Remote, stamps': map<Key, int>, u: Remote,
                        stamps'': map<Key, int>)
    requires Persists(s, stamps, t, stamps') && Persists(t, stamps', u, stamps'')
    ensures Persists(s, stamps, u, stamps'')
  {
    forall k | LiveVersion(u.records, k).Some? && LiveVersion(u.records, k).value <= s.counter
      ensures LiveRecord(u.records, stamps'', k) == LiveRecord(s.records, stamps, k)
    {
      assert LiveRecord(u.records, stamps'', k) == LiveRecord(t.records, stamps', k);
    }
  }

  /** What was seen stays no newer than what is there. */
  lemma SightedStays(mine: seq<Op>, pulled: set<(nat, Key, nat)>, s: Remote, stamps: map<Key, int>, t: Remote,
                     stamps': map<Key, int>)
    requires Sighted(mine, pulled, s) && Persists(s, stamps, t, stamps')
    ensures Sighted(mine, pulled, t)
  {
    forall k, x: nat | Saw(mine, pulled, |mine|, k, x) && LiveVersion(t.records, k).Some?
      ensures x <= LiveVersion(t.records, k).value
    {
      if LiveVersion(t.records, k).value <= s.counter {
        assert LiveRecord(t.records, stamps', k) == LiveRecord(s.records, stamps, k);
      }
    }
  }

  // ---- One process and its surroundings ----

  /** What can happen between two steps of a task: this host's other tasks, other writers, the remote's
      own life, and the clocks. */
  datatype Happening =
    | LocalPut(key: Key, value: Value)
    | LocalDelete(key: Key)
    | SecretPut(name: string, bytes: Bytes)
    | SecretDelete(name: string)
    | ForeignPut(who: string, key: Key, value: Value)
    | ForeignDelete(who: string, key: Key)
    | CounterBump(n: nat)
    | Reaping
    | Loss(key: Key)
    | Outage(down: bool)
    | Tick(ms: nat, wall: int, remoteClock: int)
  {
    /** Nothing here writes the remote's records or moves its counter. */
    predicate Quiet() {
      !ForeignPut? && !ForeignDelete? && !CounterBump? && !Loss?
    }

    /** Other writers go by other names, a record of the cache is a record, and a lossless remote loses
        nothing. */
    predicate Sane(holder: string, lossless: bool) {
      && (Loss? ==> !lossless)
      && ((ForeignPut? || ForeignDelete?) ==> who != holder)
      && ((LocalPut? || LocalDelete?) ==> key.StateKey?)
    }
  }

  ghost predicate Quiet(script: seq<seq<Happening>>) {
    forall i, j :: 0 <= i < |script| && 0 <= j < |script[i]| ==> script[i][j].Quiet()
  }

  ghost predicate Sane(script: seq<seq<Happening>>, holder: string, lossless: bool) {
    forall i, j :: 0 <= i < |script| && 0 <= j < |script[i]| ==> script[i][j].Sane(holder, lossless)
  }

  /** Everything a task can see or touch at one moment, and what is still to happen around it. */
  datatype View = View(
    holder: string, key: string, lossless: bool, remote: Remote, down: bool, stamps: map<Key, int>,
    puts: map<Key, nat>, mine: seq<Op>, local: Local, mirrored: map<Key, nat>, versions: map<Key, nat>, dirty: set<Key>,
    inFlight: nat, batch: set<Key>, conflicts: nat, pulled: set<(nat, Key, nat)>, mono: int, script: seq<seq<Happening>>)

  /** What holds at every step, whoever else writes. */
  ghost predicate Valid(v: View) {
    && Sane(v.script, v.holder, v.lossless)
    && (v.lossless ==> Accounts(v.remote, v.mirrored))
    && v.inFlight == |v.batch|
    && Sourced(v.mine, v.pulled, v.versions)
    && Careful(v.mine, v.pulled)
    && Sighted(v.mine, v.pulled, v.remote)
    && (forall k :: k in v.remote.records ==> 1 <= v.remote.records[k].version <= v.remote.counter)
    && (forall k :: k in v.dirty || k in v.batch ==> Mirrored(k))
    && (forall k :: k in v.local.records ==> k.StateKey?)
  }

  /** This host has seen `k` at version `x`. */
  ghost predicate Known(v: View, k: Key, x: nat) {
    Saw(v.mine, v.pulled, |v.mine|, k, x)
  }

  lemma KnownStays(a: View, b: View, k: Key, x: nat)
    requires Known(a, k, x) && a.mine <= b.mine && b.pulled == a.pulled
    ensures Known(b, k, x)
  {
    if i :| 0 <= i < |a.mine| && a.mine[i].key == k && a.mine[i].took == Some(x) {
      assert b.mine[i] == a.mine[i];
    }
  }

  /** What holds too on a host nobody else writes beside: only the keys in `owed` may differ. */
  ghost predicate Owing(v: View, owed: set<Key>) {
    Quiet(v.script) && Synced(v.remote.records, v.local, v.key, v.versions, owed)
  }

  ghost predicate InStep(v: View) {
    Owing(v, v.dirty + v.batch)
  }

  /** This process's side of a wait: local changes, each marked. */
  ghost predicate Marked(a: View, b: View) {
    && b.holder == a.holder && b.key == a.key && b.lossless == a.lossless
    && b.mirrored == a.mirrored && b.versions == a.versions
    && b.inFlight == a.inFlight && b.batch == a.batch && b.conflicts == a.conflicts && b.pulled == a.pulled
    && a.dirty <= b.dirty && Marks(a.local, b.local, b.dirty) && a.mono <= b.mono
  }

  /** What may have changed while the surroundings moved; `quiet` if nobody else wrote the remote. */
  ghost predicate Drift(quiet: bool, a: View, b: View) {
    && Marked(a, b)
    && Persists(a.remote, a.stamps, b.remote, b.stamps)
    && b.mine == a.mine
    && (quiet ==>
          && b.remote.counter == a.remote.counter && b.puts == a.puts
          && SameLive(a.remote.records, b.remote.records)
          && SameRecord(a.remote.records, b.remote.records, LeaseKey))
  }

  /** The script only runs down, and with no script left nothing local changes and the remote stays up or down. */
  ghost predicate RunsDown(a: View, b: View) {
    && |b.script| <= |a.script|
    && (Quiet(a.script) ==> Quiet(b.script))
    && (a.script == [] ==> b.local == a.local && b.dirty == a.dirty && b.down == a.down)
  }

  /** With no script left the clock stands still, but for sleeping. */
  predicate Still(a: View, b: View) {
    a.script == [] ==> b.mono == a.mono
  }

  lemma StillThrough(a: View, b: View, c: View)
    requires Still(a, b) && Still(b, c) && |b.script| <= |a.script|
    ensures Still(a, c)
  {
  }

  /** What may have changed across an await. */
  ghost predicate Beside(a: View, b: View) {
    RunsDown(a, b) && Still(a, b) && Drift(Quiet(a.script), a, b)
  }

  /** What may have changed across a lease operation: as across an await, and the lease record. */
  ghost predicate Leased(a: View, b: View) {
    && RunsDown(a, b)
    && Marked(a, b)
    && a.remote.counter <= b.remote.counter
    && LeaseOnly(a.mine, b.mine)
    && RefusedIn(b.mine) == RefusedIn(a.mine)
    && Obedient(b.mine) == Obedient(a.mine)
    && (Quiet(a.script) ==>
          && SameLive(a.remote.records, b.remote.records)
          && forall k :: k != LeaseKey ==> LookUp(b.puts, k) == LookUp(a.puts, k))
  }

  lemma MarkedThrough(a: View, b: View, c: View)
    requires Marked(a, b) && Marked(b, c)
    ensures Marked(a, c)
  {
    MarksThrough(a.local, b.local, c.local, b.dirty, c.dirty);
  }

  lemma DriftThrough(quiet: bool, a: View, b: View, c: View)
    requires Drift(quiet, a, b) && Drift(quiet, b, c)
    ensures Drift(quiet, a, c)
  {
    MarkedThrough(a, b, c);
    PersistsThrough(a.remote, a.stamps, b.remote, b.stamps, c.remote, c.stamps);
    if quiet {
      SameLiveThrough(a.remote.records, b.remote.records, c.remote.records);
    }
  }

  lemma DriftWeaker(quiet: bool, quiet': bool, a: View, b: View)
    requires Drift(quiet', a, b) && (quiet ==> quiet')
    ensures Drift(quiet, a, b)
  {
  }

  /** The next round of the script is about to happen, or there is none. */
  lemma RoundBegins(v: View)
    requires Valid(v)
    ensures v.script == [] ==> Beside(v, v)
    ensures v.script != [] ==>
      && Valid(v.(script := v.script[1..])) && Drift(Quiet(v.script), v, v.(script := v.script[1..]))
      && forall i :: 0 <= i < |v.script[0]| ==>
           v.script[0][i].Sane(v.holder, v.lossless) && (Quiet(v.script) ==> v.script[0][i].Quiet())
  {
    hide Accounts, Sourced, Careful, Sighted;
    if v.script != [] {
      var rest := v.script[1..];
      assert v.(script := rest).script == rest;
      assert forall i :: 0 <= i < |rest| ==> rest[i] == v.script[i + 1];
    }
  }

  lemma OnlyQuietRemains(a: View, b: View, quiet: bool)
    requires a.script != [] && b.script == a.script[1..] && quiet == Quiet(a.script) && Drift(quiet, a, b)
    ensures Beside(a, b)
  {
    assert forall i :: 0 <= i < |b.script| ==> b.script[i] == a.script[i + 1];
  }

  /** A put or a deletion loses nothing. */
  lemma WritesAdvance(v: View, k: Key, value: Value)
    requires Valid(v)
    ensures Advances(v.remote, PutAt(v.remote, k, value)) && Advances(v.remote, DeleteAt(v.remote, k))
    ensures Advances(v.remote, v.remote)
  {
  }

  lemma VersionsInRange(v: View)
    requires Valid(v)
    ensures forall k :: k in v.remote.records ==> 1 <= v.remote.records[k].version <= v.remote.counter
  {
  }

  lemma BesideIsLeased(a: View, b: View)
    requires Beside(a, b)
    ensures Leased(a, b)
  {
  }

  lemma LeasedNowhere(a: View)
    ensures Leased(a, a)
  {
  }

  lemma LeasedFacts(a: View, b: View)
    requires Leased(a, b)
    ensures a.mono <= b.mono && |b.script| <= |a.script| && (Quiet(a.script) ==> Quiet(b.script))
    ensures a.script == [] ==> b.down == a.down
  {
  }

  lemma LeasedMine(a: View, b: View)
    requires Leased(a, b)
    ensures a.mine <= b.mine && b.pulled == a.pulled
  {
  }

  lemma LeasedThrough(a: View, b: View, c: View)
    requires Leased(a, b) && Leased(b, c)
    ensures Leased(a, c)
  {
    MarkedThrough(a, b, c);
    if Quiet(a.script) {
      SameLiveThrough(a.remote.records, b.remote.records, c.remote.records);
    }
  }

  lemma LeasedThenBeside(a: View, b: View, c: View)
    requires Leased(a, b) && Beside(b, c)
    ensures Leased(a, c)
  {
    BesideIsLeased(b, c);
    LeasedThrough(a, b, c);
  }

  lemma LeasedKeepsInStep(a: View, b: View)
    requires Leased(a, b) && InStep(a)
    ensures InStep(b)
  {
    assert Marks(a.local, b.local, b.dirty + b.batch);
    SyncedStays(a.remote.records, b.remote.records, a.local, b.local, a.key, a.versions, a.dirty + a.batch,
                b.dirty + b.batch);
  }

  /** What one of this host's own tasks leaves locally. */
  function LocalAfter(local: Local, h: Happening): Local {
    match h
    case LocalPut(k, v) => local.(records := local.records[k := v])
    case LocalDelete(k) => local.(records := local.records - {k})
    case SecretPut(name, bytes) => local.(secrets := local.secrets[name := bytes])
    case SecretDelete(name) => local.(secrets := local.secrets - {name})
    case _ => local
  }

  /** What it marks for the mirror: a mirrored record or secret it wrote, or deleted and there was one. */
  function MarkedBy(local: Local, h: Happening): set<Key> {
    match h
    case LocalPut(k, _) => if Mirrored(k) then {k} else {}
    case LocalDelete(k) => if Mirrored(k) && k in local.records then {k} else {}
    case SecretPut(name, _) => if SecretIsMirrored(name) then {SecretKey(name)} else {}
    case SecretDelete(name) => if SecretIsMirrored(name) && name in local.secrets then {SecretKey(name)} else {}
    case _ => {}
  }

  lemma LocalAfterMarks(local: Local, h: Happening)
    ensures Marks(local, LocalAfter(local, h), MarkedBy(local, h))
  {
  }

  lemma LocalDrift(a: View, b: View, h: Happening)
    requires Valid(a) && h.Sane(a.holder, a.lossless)
    requires b == a.(local := LocalAfter(a.local, h), dirty := a.dirty + MarkedBy(a.local, h))
    ensures Valid(b) && Drift(true, a, b)
  {
    LocalAfterMarks(a.local, h);
  }

  /** What somebody else's doing makes of the remote, if it applies. */
  function RemoteAfter(s: Remote, h: Happening): Remote {
    match h
    case ForeignPut(_, k, v) => PutAt(s, k, v)
    case ForeignDelete(_, k) => DeleteAt(s, k)
    case CounterBump(n) => s.(counter := s.counter + n)
    case Reaping => Reap(s)
    case Loss(k) => s.(records := s.records - {k})
    case _ => s
  }

  /** What this host holds, what the remote does, and whether that is down. */
  datatype World = World(local: Local, remote: Remote, down: bool)

  /** All of it after one happening: a remote that is down takes no writes. */
  function WorldAfter(w: World, h: Happening): World {
    World(LocalAfter(w.local, h),
          if (h.ForeignPut? || h.ForeignDelete?) && w.down then w.remote else RemoteAfter(w.remote, h),
          if h.Outage? then h.down else w.down)
  }

  function WorldAfterAll(w: World, round: seq<Happening>): World {
    if round == [] then w else WorldAfter(WorldAfterAll(w, round[..|round| - 1]), round[|round| - 1])
  }

  lemma OneMoreHappens(w: World, round: seq<Happening>, i: nat)
    requires i < |round|
    ensures WorldAfterAll(w, round[..i + 1]) == WorldAfter(WorldAfterAll(w, round[..i]), round[i])
  {
    assert round[..i + 1][..i] == round[..i];
  }

  /** Nobody's record was stamped but that of what was written last. */
  ghost predicate StampsLast(s: Remote, stamps: map<Key, int>, t: Remote, stamps': map<Key, int>) {
    forall k :: LookUp(stamps', k) == LookUp(stamps, k) || (k in t.records && t.records[k].version > s.counter)
  }

  lemma HappeningPersists(h: Happening, a: View, remote: Remote, stamps: map<Key, int>)
    requires Valid(a) && StampsLast(a.remote, a.stamps, remote, stamps)
    requires remote == a.remote || remote == RemoteAfter(a.remote, h)
    ensures Persists(a.remote, a.stamps, remote, stamps)
  {
    hide Careful, Sourced, Sighted, Accounts;
    forall k | LiveVersion(remote.records, k).Some? && LiveVersion(remote.records, k).value <= a.remote.counter
      ensures LiveRecord(remote.records, stamps, k) == LiveRecord(a.remote.records, a.stamps, k)
    {
      assert LookUp(stamps, k) == LookUp(a.stamps, k);
    }
  }

  /** A change of the remote or the clocks by somebody else. */
  lemma RemoteDrift(h: Happening, a: View, b: View)
    requires Valid(a) && h.Sane(a.holder, a.lossless)
    requires b == a.(remote := b.remote, down := b.down, puts := b.puts, stamps := b.stamps, mono := b.mono)
    requires a.mono <= b.mono && (b.remote == a.remote || b.remote == RemoteAfter(a.remote, h))
    requires StampsLast(a.remote, a.stamps, b.remote, b.stamps)
    requires h.Quiet() ==> b.puts == a.puts
    ensures Valid(b) && Drift(h.Quiet(), a, b)
  {
    hide Careful, Sourced, Sighted;
    HappeningPersists(h, a, b.remote, b.stamps);
    hide Persists, StampsLast;
    HappeningAdvances(h, a, b.remote);
    hide Accounts;
    SightedStays(a.mine, a.pulled, a.remote, a.stamps, b.remote, b.stamps);
  }

  /** What somebody else does to the remote leaves it in order, and what this host mirrored accounted for. */
  lemma HappeningAdvances(h: Happening, a: View, remote: Remote)
    requires Valid(a) && h.Sane(a.holder, a.lossless)
    requires remote == a.remote || remote == RemoteAfter(a.remote, h)
    ensures a.lossless ==> Accounts(remote, a.mirrored)
    ensures forall k :: k in remote.records ==> 1 <= remote.records[k].version <= remote.counter
  {
    hide Careful, Sourced, Sighted;
    if a.lossless {
      AdvancesKeepsAccounts(a.remote, remote, a.mirrored);
    }
  }

  lemma SightedMore(mine: seq<Op>, op: Op, pulled: set<(nat, Key, nat)>, s: Remote)
    requires Sighted(mine, pulled, s)
    requires op.took.Some? ==>
      op.took.value <= s.counter
      && (LiveVersion(s.records, op.key).Some? ==> op.took.value <= LiveVersion(s.records, op.key).value)
    ensures Sighted(mine + [op], pulled, s)
  {
    var more := mine + [op];
    forall k, x: nat | Saw(more, pulled, |more|, k, x)
      ensures x <= s.counter && (LiveVersion(s.records, k).Some? ==> x <= LiveVersion(s.records, k).value)
    {
      SawMore(mine, op, pulled, |mine| + 1, k, x);
    }
  }

  /** A request that was careful, if it wrote a mirrored key, leaves the host careful and its versions sourced. */
  lemma RequestKept(v: View, op: Op)
    requires Valid(v) && (Landed(op) ==> CarefulAt(v.mine + [op], v.pulled, |v.mine|))
    ensures var mine := v.mine + [op]; Careful(mine, v.pulled) && Sourced(mine, v.pulled, v.versions)
  {
    hide Accounts, Saw;
    var mine := v.mine + [op];
    forall n | 0 <= n < |v.mine| ensures CarefulAt(mine, v.pulled, n) {
      assert CarefulAt(v.mine, v.pulled, n) && mine[n] == v.mine[n];
      forall k, x: nat ensures Saw(mine, v.pulled, n, k, x) == Saw(v.mine, v.pulled, n, k, x) {
        SawMore(v.mine, op, v.pulled, n, k, x);
      }
    }
    assert mine[|v.mine|] == op;
    forall k | k in v.versions ensures Saw(mine, v.pulled, |mine|, k, v.versions[k]) {
      SawMore(v.mine, op, v.pulled, |v.mine| + 1, k, v.versions[k]);
    }
  }

  /** A request that writes the lease record, refused or not. */
  lemma LeaseWrite(a: View, b: View, op: Op)
    requires Valid(a) && b == a.(remote := b.remote, puts := b.puts, stamps := b.stamps, mine := a.mine + [op])
    requires op.key == LeaseKey && (op.took.Some? ==> op.took.value == b.remote.counter)
    requires LiveVersion(b.remote.records, LeaseKey).Some? && op.took.Some? ==>
      LiveVersion(b.remote.records, LeaseKey) == op.took
    requires Advances(a.remote, b.remote) && Persists(a.remote, a.stamps, b.remote, b.stamps)
    requires forall k :: k in b.remote.records ==> 1 <= b.remote.records[k].version <= b.remote.counter
    requires SameLive(a.remote.records, b.remote.records)
    requires forall k :: k != LeaseKey ==> LookUp(b.puts, k) == LookUp(a.puts, k)
    ensures Valid(b) && Leased(a, b)
  {
    hide Saw, Careful, Sourced, Sighted;
    RequestKept(a, op);
    if a.lossless {
      AdvancesKeepsAccounts(a.remote, b.remote, a.mirrored);
    }
    SightedStays(a.mine, a.pulled, a.remote, a.stamps, b.remote, b.stamps);
    SightedMore(a.mine, op, a.pulled, b.remote);
    ObedientMore(a.mine, op);
  }

  /** The lease is the live one and knows the version the next write takes. */
  ghost predicate Predicts(version: nat, next: nat, v: View) {
    next == v.remote.counter + 1 && LiveVersion(v.remote.records, LeaseKey) == Some(version)
  }

  // ---- Writes of mirrored keys ----

  /** What a write of `item` by the host may have changed, beside what its surroundings did; `refused` if
      the remote refused it as someone else's. */
  ghost predicate Written(a: View, b: View, item: Key, refused: bool) {
    && RunsDown(a, b)
    && Marked(a, b)
    && a.remote.counter <= b.remote.counter
    && Still(a, b)
    && RequestsOnly(a.mine, b.mine, item)
    && RefusedIn(b.mine) == (RefusedIn(a.mine) || refused)
    && (Obedient(a.mine) && !RefusedIn(a.mine) ==> Obedient(b.mine))
    && (Quiet(a.script) ==> forall k :: k != LeaseKey && k != item ==>
          SameRecord(a.remote.records, b.remote.records, k) && LookUp(b.puts, k) == LookUp(a.puts, k))
  }

  lemma LeasedIsWritten(a: View, b: View, item: Key)
    requires Leased(a, b) && Still(a, b)
    ensures Written(a, b, item, false)
  {
  }

  lemma WrittenThrough(a: View, b: View, c: View, item: Key, refused: bool)
    requires Written(a, b, item, false) && Written(b, c, item, refused)
    ensures Written(a, c, item, refused)
  {
    MarkedThrough(a, b, c);
    if Quiet(a.script) {
      forall k | k != LeaseKey && k != item ensures SameRecord(a.remote.records, c.remote.records, k) {
        assert SameRecord(a.remote.records, b.remote.records, k) && SameRecord(b.remote.records, c.remote.records, k);
      }
    }
  }

  /** With nobody else writing, a wait or a lease operation leaves every other record alone. */
  lemma LeasedRecord(a: View, b: View, k: Key)
    requires Leased(a, b) && Quiet(a.script) && k != LeaseKey
    ensures Quiet(b.script) && SameRecord(a.remote.records, b.remote.records, k)
    ensures LookUp(b.puts, k) == LookUp(a.puts, k)
  {
  }

  /** With nobody else writing, a lease stays good across an await. */
  lemma BesideKeepsLease(a: View, b: View, version: nat, next: nat)
    requires Beside(a, b) && Quiet(a.script) && Predicts(version, next, a)
    ensures Predicts(version, next, b)
  {
  }

  /** The record of secret `name` is at `version`, sealed to it. */
  ghost predicate StoredSealed(entries: map<Key, Entry>, key: string, name: string, version: nat, bytes: Bytes) {
    && SecretKey(name) in entries
    && entries[SecretKey(name)]
       == Entry(version, Some(Sealed(key, "secret/" + name + "@" + Decimal(version), bytes)))
  }

  /** `k` was put exactly once more. */
  predicate PutOnce(before: map<Key, nat>, after: map<Key, nat>, k: Key) {
    LookUp(after, k) == Some(1 + (match LookUp(before, k) case None => 0 case Some(n) => n))
  }

  /** One write of `item` by the host, landed or refused; if it landed over something, conditional on a version it
      knew, save for a deletion. */
  lemma HostWrite(a: View, b: View, item: Key, op: Op)
    requires Valid(a) && Mirrored(item)
    requires b == a.(remote := b.remote, puts := b.puts, stamps := b.stamps, mine := a.mine + [op])
    requires Advances(a.remote, b.remote) && Persists(a.remote, a.stamps, b.remote, b.stamps)
    requires forall k :: k in b.remote.records ==> 1 <= b.remote.records[k].version <= b.remote.counter
    requires forall k :: k != item ==> LookUp(b.remote.records, k) == LookUp(a.remote.records, k)
    requires forall k :: k != item ==> LookUp(b.puts, k) == LookUp(a.puts, k)
    requires op.key == item && op.Found() == LiveVersion(a.remote.records, item)
    requires op.took.Some? ==> op.took.value == b.remote.counter
    requires LiveVersion(b.remote.records, item).Some? && op.took.Some? ==>
      LiveVersion(b.remote.records, item) == op.took
    requires op.took.Some? && op.Found().Some? && !(op.deletion && op.expected.None?) ==>
      op.expected == op.Found() && Known(a, item, op.Found().value)
    ensures Valid(b) && Written(a, b, item, op.took.None?)
    ensures op.took.Some? ==> Known(b, item, op.took.value)
  {
    hide Careful, Sourced;
    WriteIsCareful(a, op);
    RequestKept(a, op);
    if a.lossless {
      AdvancesKeepsAccounts(a.remote, b.remote, a.mirrored);
    }
    SightedStays(a.mine, a.pulled, a.remote, a.stamps, b.remote, b.stamps);
    SightedMore(a.mine, op, a.pulled, b.remote);
    ObedientMore(a.mine, op);
    if op.took.Some? {
      SawMore(a.mine, op, a.pulled, |b.mine|, item, op.took.value);
    }
    hide Saw, Sighted;
    forall k | k != item ensures SameRecord(a.remote.records, b.remote.records, k) {
      assert LookUp(b.remote.records, k) == LookUp(a.remote.records, k);
    }
  }

  /** What a host knows of a key is no newer than what it replaces. */
  lemma WriteIsCareful(v: View, op: Op)
    requires Valid(v) && op.Found() == LiveVersion(v.remote.records, op.key)
    requires Landed(op) && op.Found().Some? && !(op.deletion && op.expected.None?) ==>
      op.expected == op.Found() && Known(v, op.key, op.Found().value)
    ensures CarefulAt(v.mine + [op], v.pulled, |v.mine|)
  {
    hide Careful, Sourced, Accounts, Saw;
    forall x: nat ensures Saw(v.mine + [op], v.pulled, |v.mine|, op.key, x) == Saw(v.mine, v.pulled, |v.mine|, op.key, x) {
      SawMore(v.mine, op, v.pulled, |v.mine|, op.key, x);
    }
  }

  lemma PutOnceFrom(start: map<Key, nat>, before: map<Key, nat>, after: map<Key, nat>, k: Key)
    requires PutOnce(before, after, k)
    ensures LookUp(before, k) == LookUp(start, k) ==> PutOnce(start, after, k)
  {
  }

  function CountPut(puts: map<Key, nat>, k: Key): map<Key, nat> {
    puts[k := if k in puts then puts[k] + 1 else 1]
  }

  /** The moment after a put of the host's landed, by the remote's clock at `now`. */
  function AfterPut(v: View, item: Key, value: Value, expected: nat, now: int): View {
    v.(remote := PutAt(v.remote, item, value), stamps := v.stamps[item := now], puts := CountPut(v.puts, item),
       mine := v.mine + [Op(v.holder, item, Some(expected), LiveRecord(v.remote.records, v.stamps, item),
                            Some(v.remote.counter + 1), false)])
  }

  /** The moment after one was refused. */
  function AfterRefusal(v: View, item: Key, expected: Option<nat>, deletion: bool): View {
    v.(mine := v.mine + [Op(v.holder, item, expected, LiveRecord(v.remote.records, v.stamps, item), None, deletion)])
  }

  /** The moment after a deletion of the host's landed. */
  function AfterDelete(v: View, item: Key, expected: Option<nat>, now: int): View {
    v.(remote := DeleteAt(v.remote, item), stamps := v.stamps[item := now],
       mine := v.mine + [Op(v.holder, item, expected, LiveRecord(v.remote.records, v.stamps, item),
                            Some(v.remote.counter + 1), true)])
  }

  /** `replaced` is the newest version of `k` the host has seen. */
  ghost predicate Newest(v: View, k: Key, replaced: nat) {
    Known(v, k, replaced) && forall x: nat :: Known(v, k, x) ==> x <= replaced
  }

  lemma KnownIsOld(v: View, k: Key)
    requires Valid(v)
    ensures forall x: nat :: Known(v, k, x) ==>
      x <= v.remote.counter && (LiveVersion(v.remote.records, k).Some? ==> x <= LiveVersion(v.remote.records, k).value)
  {
    hide Saw;
  }

  lemma LandingPersists(v: View, k: Key, value: Value, now: int)
    requires Valid(v)
    ensures Persists(v.remote, v.stamps, PutAt(v.remote, k, value), v.stamps[k := now])
    ensures Persists(v.remote, v.stamps, DeleteAt(v.remote, k), v.stamps[k := now])
  {
  }

  lemma StaysPut(v: View)
    ensures Persists(v.remote, v.stamps, v.remote, v.stamps)
  {
  }

  /** A claim of the lease that landed. */
  lemma ClaimLands(a: View, value: Value, expected: nat, now: int)
    requires Valid(a) && Precondition(LiveVersion(a.remote.records, LeaseKey), Some(expected))
    ensures var b := AfterPut(a, LeaseKey, value, expected, now);
      Valid(b) && Leased(a, b) && Predicts(b.remote.counter, b.remote.counter + 1, b)
  {
    hide Valid, Leased, Accounts, Advances, Persists;
    VersionsInRange(a);
    WritesAdvance(a, LeaseKey, value);
    LandingPersists(a, LeaseKey, value, now);
    var b := AfterPut(a, LeaseKey, value, expected, now);
    LeaseWrite(a, b, b.mine[|a.mine|]);
  }

  lemma ReleaseLands(a: View, expected: Option<nat>, now: int)
    requires Valid(a) && LiveVersion(a.remote.records, LeaseKey).Some?
    ensures var b := AfterDelete(a, LeaseKey, expected, now); Valid(b) && Leased(a, b)
  {
    hide Valid, Leased, Accounts, Advances, Persists;
    VersionsInRange(a);
    WritesAdvance(a, LeaseKey, Json(""));
    LandingPersists(a, LeaseKey, Json(""), now);
    var b := AfterDelete(a, LeaseKey, expected, now);
    LeaseWrite(a, b, b.mine[|a.mine|]);
  }

  lemma ClaimRefused(a: View, expected: Option<nat>, deletion: bool)
    requires Valid(a)
    ensures var b := AfterRefusal(a, LeaseKey, expected, deletion); Valid(b) && Leased(a, b)
  {
    hide Valid, Leased, Accounts, Advances, Persists;
    VersionsInRange(a);
    WritesAdvance(a, LeaseKey, Json(""));
    StaysPut(a);
    var b := AfterRefusal(a, LeaseKey, expected, deletion);
    LeaseWrite(a, b, b.mine[|a.mine|]);
  }

  lemma PutLands(a: View, item: Key, value: Value, expected: nat, now: int)
    requires Valid(a) && Mirrored(item) && Precondition(LiveVersion(a.remote.records, item), Some(expected))
    requires expected == 0 || Known(a, item, expected)
    ensures var b, replaced := AfterPut(a, item, value, expected, now), LiveVersion(a.remote.records, item);
      && (replaced.Some? ==> replaced == Some(expected) && Newest(a, item, replaced.value))
      && Valid(b) && Written(a, b, item, false)
      && Newest(b, item, b.remote.counter)
      && PutOnce(a.puts, b.puts, item)
      && LiveVersion(b.remote.records, LeaseKey) == LiveVersion(a.remote.records, LeaseKey)
  {
    hide Valid, Written, Obedient, Careful, Sourced, Accounts, Advances, Known;
    VersionsInRange(a);
    var b := AfterPut(a, item, value, expected, now);
    WritesAdvance(a, item, value);
    hide Persists;
    LandingPersists(a, item, value, now);
    HostWrite(a, b, item, b.mine[|a.mine|]);
    hide LiveRecord, Newest;
    if LiveVersion(a.remote.records, item).Some? {
      LiveIsNewest(a, item, expected);
    }
    LiveIsNewest(b, item, b.remote.counter);
  }

  /** What is known and live is the newest known. */
  lemma LiveIsNewest(v: View, k: Key, x: nat)
    requires Valid(v) && Known(v, k, x) && LiveVersion(v.remote.records, k) == Some(x)
    ensures Newest(v, k, x)
  {
    hide Valid, Known;
    KnownIsOld(v, k);
  }

  lemma DeleteLands(a: View, item: Key, expected: Option<nat>, now: int)
    requires Valid(a) && Mirrored(item) && Precondition(LiveVersion(a.remote.records, item), expected)
    requires LiveVersion(a.remote.records, item).Some?
    requires expected.Some? ==> Known(a, item, expected.value)
    ensures var b, replaced := AfterDelete(a, item, expected, now), LiveVersion(a.remote.records, item).value;
      && (expected.Some? ==> expected == Some(replaced) && Newest(a, item, replaced))
      && Valid(b) && Written(a, b, item, false)
      && LiveVersion(b.remote.records, item).None?
      && LiveVersion(b.remote.records, LeaseKey) == LiveVersion(a.remote.records, LeaseKey)
  {
    hide Valid, Written, Obedient, Careful, Sourced, Accounts, Advances, Known;
    VersionsInRange(a);
    var b := AfterDelete(a, item, expected, now);
    WritesAdvance(a, item, Json(""));
    hide Persists;
    LandingPersists(a, item, Json(""), now);
    HostWrite(a, b, item, b.mine[|a.mine|]);
    hide LiveRecord, Newest;
    if expected.Some? {
      LiveIsNewest(a, item, expected.value);
    }
  }

  /** MAIN RESULT. A deletion goes out with the version the host goes by for the key, and so replaces no other,
      exactly if it goes by one now; if not, whatever is there is destroyed. */
  lemma UnseenIsDeletedUnconditionally(v: View, k: Key)
    requires Valid(v) && Mirrored(k) && LiveVersion(v.remote.records, k).Some?
    ensures var seen, live := LookUp(v.versions, k), LiveVersion(v.remote.records, k);
      && (k !in v.versions <==> Precondition(live, seen) && live != seen)
      && (Precondition(live, seen) ==> LiveVersion(AfterDelete(v, k, seen, 0).remote.records, k).None?)
  {
    assert v.remote.records[k].version >= 1;
  }

  /** So another writer's record can go that this host never pulled or wrote. */
  lemma ForeignRecordCanBeDeleted() returns (v: View, k: Key)
    ensures Valid(v) && Mirrored(k) && k in v.dirty && Outgoing(v.local, v.key, k).None?
    ensures LiveVersion(v.remote.records, k) == Some(1) && forall x: nat :: !Known(v, k, x)
    ensures LiveVersion(AfterDelete(v, k, LookUp(v.versions, k), 0).remote.records, k).None?
  {
    k := StateKey(Repos, "r");
    v := View("host", "key", false, Remote(1, map[k := Entry(1, Some(Json("theirs")))], false), false, map[], map[], [],
              Local(map[], map[]), map[], map[], {k}, 0, {}, 0, {}, 0, []);
  }

  /** And so it can if the host did see the key: its own deletion landed, and it goes by no version since. */
  lemma RecreatedRecordCanBeDeleted() returns (v: View, k: Key)
    ensures Valid(v) && Mirrored(k) && k in v.dirty && Outgoing(v.local, v.key, k).None?
    ensures Known(v, k, 1) && LiveVersion(v.remote.records, k) == Some(3) && !Known(v, k, 3)
    ensures LiveVersion(AfterDelete(v, k, LookUp(v.versions, k), 0).remote.records, k).None?
  {
    k := StateKey(Repos, "r");
    var wrote := Op("host", k, Some(0), None, Some(1), false);
    var deleted := Op("host", k, Some(1), Some((Entry(1, Some(Json("ours"))), Some(0))), Some(2), true);
    v := View("host", "key", false, Remote(3, map[k := Entry(3, Some(Json("theirs")))], false), false, map[], map[],
              [wrote, deleted], Local(map[], map[]), map[], map[], {k}, 0, {}, 0, {}, 0, []);
    assert v.mine[0] == wrote && v.mine[1] == deleted;
    assert Saw(v.mine, v.pulled, 1, k, 1);
  }

  lemma WriteRefused(a: View, item: Key, expected: Option<nat>, deletion: bool)
    requires Valid(a) && Mirrored(item)
    ensures Valid(AfterRefusal(a, item, expected, deletion))
    ensures Written(a, AfterRefusal(a, item, expected, deletion), item, true)
  {
    hide Careful, Sourced, Sighted, Saw;
    var b := AfterRefusal(a, item, expected, deletion);
    WritesAdvance(a, item, Json(""));
    HostWrite(a, b, item, b.mine[|a.mine|]);
  }

  /** Recording the version a landed write took (`None`: nothing is there now). */
  function Recording(v: View, item: Key, took: Option<nat>): View {
    match took
    case Some(version) => v.(versions := v.versions[item := version], mirrored := v.mirrored[item := version])
    case None => v.(versions := v.versions - {item}, mirrored := v.mirrored - {item})
  }

  lemma RecordingIsValid(v: View, item: Key, took: Option<nat>)
    requires Valid(v) && (took.Some? ==> Known(v, item, took.value) && LiveVersion(v.remote.records, item) == took)
    ensures Valid(Recording(v, item, took))
  {
  }

  /** A landed write settles `item`: `read` is the moment its value was read, `landed` the moment after. */
  lemma LandedSettles(read: View, landed: View, item: Key, took: Option<nat>)
    requires InStep(read) && Mirrored(item) && item in read.batch && Written(read, landed, item, false)
    requires LiveVersion(landed.remote.records, item) == took
    requires Agrees(landed.remote.records, read.local, read.key, item)
    ensures var b := Recording(landed, item, took); Owing(b, b.dirty + (b.batch - {item}))
  {
    var b := Recording(landed, item, took);
    assert read.dirty + read.batch == read.dirty + (read.batch - {item}) + {item};
    assert Marks(read.local, landed.local, b.dirty + (b.batch - {item}));
    WriteSettles(read.remote.records, landed.remote.records, read.local, landed.local, read.key, read.versions, b.versions,
                 item, read.dirty + (read.batch - {item}), b.dirty + (b.batch - {item}));
  }

  /** A write that did not apply leaves the host in step. */
  lemma UnwrittenKeepsInStep(a: View, b: View, item: Key)
    requires InStep(a) && Written(a, b, item, false) && SameRecord(a.remote.records, b.remote.records, item)
    ensures InStep(b)
  {
    assert Marks(a.local, b.local, b.dirty + b.batch);
    SyncedStays(a.remote.records, b.remote.records, a.local, b.local, a.key, a.versions, a.dirty + a.batch,
                b.dirty + b.batch);
  }

  /** What a request made by a host in step came to: its item is as the host held it when it read it, or
      nothing applied; either way the lease's prediction is right once it has noted `outcome`. */
  ghost predicate Arrived(read: View, b: View, item: Key, outcome: Result<Option<nat>, PutError>, version: nat,
                          next: nat) {
    && LiveVersion(b.remote.records, LeaseKey) == Some(version)
    && match outcome
       case Ok(took) =>
         && LiveVersion(b.remote.records, item) == took
         && Agrees(b.remote.records, read.local, read.key, item)
         && b.remote.counter + 1 == (if took.Some? && took.value + 1 > next then took.value + 1 else next)
       case Err(error) =>
         error == Other && SameRecord(read.remote.records, b.remote.records, item) && b.remote.counter + 1 == next
  }

  lemma OversizedSettles(v: View, item: Key)
    requires Oversized(v.local, v.key, item)
    ensures InStep(v) ==> Owing(v, v.dirty + (v.batch - {item}))
  {
  }

  /** A host in step goes by the version that is live. */
  lemma InStepVersion(v: View, item: Key)
    requires InStep(v) && Mirrored(item)
    ensures LiveVersion(v.remote.records, item) == LookUp(v.versions, item) && Quiet(v.script)
  {
  }

  lemma SeenIsSourced(v: View, item: Key)
    requires Valid(v) && item in v.versions
    ensures Known(v, item, v.versions[item])
  {
  }

  lemma CountingConflicts(v: View, conflicts: nat)
    requires Valid(v)
    ensures Valid(v.(conflicts := conflicts))
  {
  }

  lemma BesideKeepsInStep(a: View, b: View)
    requires Beside(a, b)
    ensures InStep(a) ==> InStep(b)
    ensures b.versions == a.versions && b.batch == a.batch && b.pulled == a.pulled && b.conflicts == a.conflicts
    ensures b.mirrored == a.mirrored
  {
    BesideIsLeased(a, b);
    if InStep(a) {
      LeasedKeepsInStep(a, b);
    }
  }

  /** What a pass, or part of one, may have changed. */
  ghost predicate Worked(a: View, b: View) {
    && b.holder == a.holder && b.key == a.key && b.lossless == a.lossless && b.pulled == a.pulled
    && |b.script| <= |a.script| && (Quiet(a.script) ==> Quiet(b.script))
    && (a.script == [] ==> b.local == a.local && b.down == a.down)
    && a.mine <= b.mine
    && a.conflicts <= b.conflicts
    && (b.conflicts == a.conflicts ==> RefusedIn(b.mine) == RefusedIn(a.mine))
    && (Obedient(a.mine) && !RefusedIn(a.mine) ==> Obedient(b.mine))
  }

  lemma WorkedThenLeased(a: View, b: View, c: View)
    requires Worked(a, b) && Leased(b, c)
    ensures Worked(a, c)
  {
  }

  lemma WorkedThrough(a: View, b: View, c: View)
    requires Worked(a, b) && Worked(b, c) && b.conflicts == a.conflicts
    ensures Worked(a, c)
  {
  }

  /** A write of one item, its bookkeeping done. */
  ghost predicate Handled(a: View, b: View) {
    && Worked(a, b)
    && b.batch == a.batch && b.inFlight == a.inFlight && a.dirty <= b.dirty
    && Still(a, b) && (a.script == [] ==> b.dirty == a.dirty)
  }

  lemma WrittenIsHandled(a: View, b: View, item: Key, refused: bool, conflicts: nat)
    requires Written(a, b, item, refused) && conflicts == a.conflicts + (if refused then 1 else 0)
    ensures Handled(a, b.(conflicts := conflicts))
  {
  }

  lemma LeasedMakesNone(a: View, b: View)
    requires Leased(a, b)
    ensures LeaseOnly(a.mine, b.mine)
  {
  }

  lemma NoRequests(mine: seq<Op>, item: Key)
    ensures RequestsOnly(mine, mine, item) && LeaseOnly(mine, mine)
  {
  }

  lemma LeasedRequests(a: View, b: View, item: Key)
    requires Leased(a, b)
    ensures RequestsOnly(a.mine, b.mine, item)
  {
  }

  lemma SettledByLanding(v: View, item: Key, outcome: Result<Option<nat>, PutError>)
    requires outcome.Ok? ==> LiveVersion(v.remote.records, item) == outcome.value
    requires outcome.Ok? && outcome.value.Some? ==> LandedLast(v, item, outcome.value.value)
    ensures outcome.Ok? ==> Settled(v, item)
  {
  }

  lemma WrittenRequests(a: View, b: View, item: Key, refused: bool)
    requires Written(a, b, item, refused)
    ensures RequestsOnly(a.mine, b.mine, item)
  {
  }

  lemma WrittenBatch(a: View, b: View, item: Key, refused: bool)
    requires Written(a, b, item, refused)
    ensures b.batch == a.batch && b.conflicts == a.conflicts
  {
  }

  lemma HandledFacts(a: View, b: View)
    requires Handled(a, b)
    ensures Worked(a, b) && b.batch == a.batch && b.inFlight == a.inFlight && |b.script| <= |a.script|
    ensures a.script == [] ==> b.dirty == a.dirty && b.script == []
    ensures Still(a, b) && a.dirty <= b.dirty
  {
  }

  lemma LeasedIsHandled(a: View, b: View)
    requires Leased(a, b) && Still(a, b)
    ensures Handled(a, b)
  {
  }

  lemma InStepIsQuiet(v: View)
    ensures InStep(v) ==> Quiet(v.script)
  {
  }

  lemma BatchMirrored(v: View)
    requires Valid(v)
    ensures forall k :: k in v.batch ==> Mirrored(k)
    ensures v.inFlight == |v.batch|
  {
  }

  lemma HandledThrough(a: View, b: View, c: View)
    requires Handled(a, b) && Handled(b, c) && b.conflicts == a.conflicts
    ensures Handled(a, c)
  {
    WorkedThrough(a, b, c);
  }

  /** A secret read twice, with an await between: if it is gone the second time, it is owed again. */
  lemma SecretReread(a: View, b: View, item: Key, version: nat, next: nat)
    requires Beside(a, b) && Mirrored(item) && item.SecretKey? && item.name in a.local.secrets
    ensures Handled(a, b) && b.conflicts == a.conflicts && b.batch == a.batch && b.mine == a.mine
    ensures item.name !in b.local.secrets ==> Settled(b, item)
    ensures InStep(a) ==> InStep(b)
    ensures InStep(a) && item.name !in b.local.secrets ==> Owing(b, b.dirty + (b.batch - {item}))
    ensures InStep(a) && Predicts(version, next, a) ==> Predicts(version, next, b)
  {
    BesideKeepsInStep(a, b);
    if item.name !in b.local.secrets {
      assert !SameAt(a.local, b.local, item);
      assert b.dirty + (b.batch - {item}) == b.dirty + b.batch;
    }
  }

  lemma RecordedIsHandled(a: View, b: View, item: Key, took: Option<nat>)
    requires Written(a, b, item, false)
    ensures Handled(a, Recording(b, item, took))
  {
  }

  lemma WorkedNowhere(a: View)
    ensures Worked(a, a)
  {
  }

  lemma WorkedBookkeeping(a: View, b: View, dirty: set<Key>, batch: set<Key>, inFlight: nat)
    requires Worked(a, b)
    ensures Worked(a, b.(dirty := dirty, batch := batch, inFlight := inFlight))
  {
  }

  lemma LeaseUnmoved(a: View, b: View, version: nat, next: nat)
    requires Predicts(version, next, a) && b.remote == a.remote
    ensures Predicts(version, next, b)
  {
  }

  lemma WorkedFacts(a: View, b: View)
    requires Worked(a, b)
    ensures |b.script| <= |a.script| && (Quiet(a.script) ==> Quiet(b.script)) && a.conflicts <= b.conflicts
    ensures a.script == [] ==> b.down == a.down
    ensures b.holder == a.holder && b.key == a.key && b.lossless == a.lossless && b.pulled == a.pulled
  {
  }

  lemma LeasedIsWorked(a: View, b: View)
    requires Leased(a, b)
    ensures Worked(a, b)
    ensures b.batch == a.batch && b.inFlight == a.inFlight && b.versions == a.versions && b.conflicts == a.conflicts
    ensures a.script == [] ==> b.dirty == a.dirty && b.script == []
    ensures InStep(a) ==> InStep(b)
  {
    if InStep(a) {
      LeasedKeepsInStep(a, b);
    }
  }

  // ---- What a pass came to, item by item ----

  /** The last request was a write of `item`, and landed: at `version`. */
  ghost predicate LandedLast(v: View, item: Key, version: nat) {
    v.mine != [] && Last(v.mine).key == item && Last(v.mine).took == Some(version)
  }

  /** `item` needs no more writing: what was sent of it landed just now, nothing is left of it in the remote, it is
      too large for that, or it is a secret that went while it was being sent, and is marked again. */
  ghost predicate Settled(v: View, item: Key) {
    || (LiveVersion(v.remote.records, item).Some? && LandedLast(v, item, LiveVersion(v.remote.records, item).value))
    || LiveVersion(v.remote.records, item).None?
    || Oversized(v.local, v.key, item)
    || (item.SecretKey? && item.name !in v.local.secrets && item in v.dirty)
  }

  /** One item of a pass: whether it was left unwritten, and the moment after. */
  datatype Attempt = Attempt(item: Key, failed: bool, after: View)

  /** What was asked in the turn of the `i`th item is about it, or the lease. */
  ghost predicate InTurn(start: View, trace: seq<Attempt>, i: nat)
    requires i < |trace|
  {
    RequestsOnly(if i == 0 then start.mine else trace[i - 1].after.mine, trace[i].after.mine, trace[i].item)
  }

  /** The items of a pass in the order they were taken. What is asked about each is asked in its turn; an item is
      settled or pending again; and from the first that failed on all fail, and nothing more is asked. */
  ghost predicate Traced(start: View, trace: seq<Attempt>) {
    && (forall i :: 0 <= i < |trace| ==> InTurn(start, trace, i))
    && (forall i :: 0 <= i < |trace| && !trace[i].failed ==> Settled(trace[i].after, trace[i].item))
    && (forall i, j :: 0 <= i <= j < |trace| && trace[i].failed ==>
          trace[j].failed && trace[j].after.mine == trace[i].after.mine)
    && (forall i, j :: 0 <= i < j < |trace| ==> trace[i].item != trace[j].item)
  }

  lemma TracedMore(start: View, trace: seq<Attempt>, t: Attempt)
    requires Traced(start, trace)
    requires RequestsOnly(if trace == [] then start.mine else trace[|trace| - 1].after.mine, t.after.mine, t.item)
    requires !t.failed ==> Settled(t.after, t.item)
    requires trace != [] && trace[|trace| - 1].failed ==>
      t.failed && t.after.mine == trace[|trace| - 1].after.mine
    requires forall i :: 0 <= i < |trace| ==> trace[i].item != t.item
    ensures Traced(start, trace + [t])
  {
    hide Settled, RequestsOnly;
    var more := trace + [t];
    assert more[|trace|] == t && forall i :: 0 <= i < |trace| ==> more[i] == trace[i];
    forall i | 0 <= i < |more| ensures InTurn(start, more, i) {
      if i < |trace| {
        assert InTurn(start, trace, i);
      }
    }
    forall i, j | 0 <= i <= j < |more| && more[i].failed
      ensures more[j].failed && more[j].after.mine == more[i].after.mine
    {
      if i < |trace| {
        assert trace[|trace| - 1].failed && trace[|trace| - 1].after.mine == trace[i].after.mine;
      }
    }
  }

  /** `trace` is of the items in `items`, up to now. */
  ghost predicate TraceOf(start: View, trace: seq<Attempt>, items: set<Key>, now: View, failed: bool) {
    && Traced(start, trace)
    && (set i | 0 <= i < |trace| :: trace[i].item) == items
    && (forall i :: 0 <= i < |trace| && trace[i].failed ==> trace[i].item in now.dirty)
    && now.mine == (if trace == [] then start.mine else trace[|trace| - 1].after.mine)
    && failed == (trace != [] && trace[|trace| - 1].failed)
  }

  lemma NothingTraced(start: View)
    ensures TraceOf(start, [], {}, start, false)
  {
  }

  lemma TraceGrows(start: View, trace: seq<Attempt>, items: set<Key>, before: View, failed: bool, t: Attempt)
    requires TraceOf(start, trace, items, before, failed) && t.item !in items
    requires RequestsOnly(before.mine, t.after.mine, t.item) && before.dirty <= t.after.dirty
    requires if t.failed then t.item in t.after.dirty else Settled(t.after, t.item)
    requires failed ==> t.failed && t.after.mine == before.mine
    ensures TraceOf(start, trace + [t], items + {t.item}, t.after, t.failed)
  {
    hide Settled, RequestsOnly, Traced;
    assert forall i :: 0 <= i < |trace| ==> trace[i].item in items;
    TracedMore(start, trace, t);
    ItemsMore(trace, t);
  }

  lemma ItemsMore(trace: seq<Attempt>, t: Attempt)
    ensures (set i | 0 <= i < |trace + [t]| :: (trace + [t])[i].item)
         == (set i | 0 <= i < |trace| :: trace[i].item) + {t.item}
  {
    var more := trace + [t];
    forall i | 0 <= i < |trace| ensures trace[i].item in (set i | 0 <= i < |more| :: more[i].item) {
      assert more[i] == trace[i];
    }
    assert more[|trace|] == t;
  }

  lemma SettledStays(a: View, b: View, item: Key)
    requires Settled(a, item) && a.dirty <= b.dirty
    requires b.remote == a.remote && b.mine == a.mine && b.local == a.local && b.key == a.key
    ensures Settled(b, item)
  {
  }

  /** The turn of one item of a pass: written, `skipped` because an earlier one failed, or failed itself. */
  ghost predicate Turn(a: View, b: View, item: Key, skipped: bool, failed: bool) {
    && Worked(a, b) && Still(a, b)
    && RequestsOnly(a.mine, b.mine, item)
    && a.dirty <= b.dirty && b.batch == a.batch - {item}
    && (if failed then item in b.dirty else Settled(b, item))
    && (skipped ==> failed && b == a.(dirty := b.dirty, batch := b.batch, inFlight := b.inFlight))
    && (b.conflicts > a.conflicts ==> failed)
    && (a.script == [] && a.dirty == {} ==> failed || b.dirty == {})
  }

  /** What was done about the item is `now`; then it was accounted for. */
  lemma TurnOver(a: View, now: View, b: View, item: Key, skipped: bool, failed: bool)
    requires if skipped then now == a && failed else Handled(a, now) && RequestsOnly(a.mine, now.mine, item)
    requires b == now.(dirty := if failed then now.dirty + {item} else now.dirty, batch := now.batch - {item},
                       inFlight := b.inFlight)
    requires !failed ==> Settled(now, item) && now.conflicts == a.conflicts
    ensures Turn(a, b, item, skipped, failed)
  {
    if !failed {
      SettledStays(now, b, item);
    }
    hide Settled;
    if skipped {
      WorkedNowhere(a);
    } else {
      HandledFacts(a, now);
    }
    WorkedBookkeeping(a, now, b.dirty, b.batch, b.inFlight);
    hide Handled, Worked, RequestsOnly;
    NoRequests(a.mine, item);
  }

  /** A pass so far, through the items no longer in its batch. */
  ghost predicate Passed(start: View, now: View, failed: bool) {
    && Worked(start, now) && Still(start, now)
    && now.batch <= start.batch
    && (exists trace :: TraceOf(start, trace, start.batch - now.batch, now, failed))
    && (now.conflicts > start.conflicts ==> failed)
    && (start.script == [] && start.dirty == {} ==> failed || now.dirty == {})
  }

  lemma NothingPassed(start: View)
    ensures Passed(start, start, false)
  {
    NothingTraced(start);
    assert start.batch - start.batch == {};
  }

  lemma PassGoesOn(start: View, a: View, skipped: bool, b: View, item: Key, failed: bool)
    requires Passed(start, a, skipped) && item in a.batch && Turn(a, b, item, skipped, failed)
    ensures Passed(start, b, failed)
  {
    var done := start.batch - a.batch;
    var trace :| TraceOf(start, trace, done, a, skipped);
    TraceGrows(start, trace, done, a, skipped, Attempt(item, failed, b));
    assert done + {item} == start.batch - b.batch;
    WorkedFacts(start, a);
    WorkedFacts(a, b);
    StillThrough(start, a, b);
    if skipped {
      WorkedBookkeeping(start, a, b.dirty, b.batch, b.inFlight);
    } else {
      WorkedThrough(start, a, b);
    }
    hide Worked, Still, TraceOf, Settled, RequestsOnly;
  }

  /** And for a host in step that holds its lease, which it stops at only if it lapsed or the remote is down. */
  ghost predicate Unbroken(start: View, now: View, failed: bool, version: nat, next: nat, deadline: int) {
    && InStep(now) && now.conflicts == start.conflicts
    && (if failed then now.down || deadline <= now.mono else Predicts(version, next, now))
  }

  lemma BegunUnbroken(start: View, version: nat, next: nat, deadline: int)
    requires InStep(start) && Predicts(version, next, start)
    ensures Unbroken(start, start, false, version, next, deadline)
  {
  }

  lemma UnbrokenFacts(start: View, now: View, failed: bool, version: nat, next: nat, deadline: int)
    ensures Unbroken(start, now, failed, version, next, deadline) ==>
      && InStep(now) && now.conflicts == start.conflicts
      && (failed ==> now.down || deadline <= now.mono)
      && (!failed ==> Predicts(version, next, now))
  {
  }

  lemma UnbrokenGoesOn(start: View, a: View, b: View, skipped: bool, failed: bool, version: nat, next: nat,
                       deadline: int)
    requires a.conflicts == start.conflicts
    requires if skipped then Unbroken(start, a, true, version, next, deadline) && InStep(b) && failed
                             && b == a.(dirty := b.dirty, batch := b.batch, inFlight := b.inFlight)
             else Unbroken(a, b, failed, version, next, deadline)
    ensures Unbroken(start, b, failed, version, next, deadline)
  {
  }

  lemma TurnFacts(a: View, b: View, item: Key, skipped: bool, failed: bool)
    requires Turn(a, b, item, skipped, failed)
    ensures b.batch == a.batch - {item}
    ensures skipped ==> failed && b == a.(dirty := b.dirty, batch := b.batch, inFlight := b.inFlight)
  {
  }

  lemma PassedFacts(start: View, now: View, failed: bool)
    requires Passed(start, now, failed)
    ensures Worked(start, now) && Still(start, now)
    ensures now.conflicts > start.conflicts ==> failed
    ensures start.script == [] && start.dirty == {} ==> failed || now.dirty == {}
  {
  }

  /** A pass takes what is marked: what was owed is owed still. */
  lemma BatchTaken(v: View)
    requires Valid(v) && v.batch == {}
    ensures var b := v.(dirty := {}, batch := v.dirty, inFlight := v.inFlight + |v.dirty|);
            Valid(b) && Worked(v, b) && (InStep(v) ==> InStep(b))
  {
    assert v.dirty + v.batch == {} + v.dirty;
  }

  /** One item of the batch is accounted for: written, or marked again. */
  lemma ItemDone(v: View, item: Key, failed: bool)
    requires Valid(v) && item in v.batch
    ensures var b := v.(dirty := if failed then v.dirty + {item} else v.dirty, batch := v.batch - {item},
                        inFlight := v.inFlight - 1);
            && Valid(b)
            && (failed && InStep(v) ==> InStep(b))
            && (Owing(v, v.dirty + (v.batch - {item})) ==> !failed ==> InStep(b))
  {
    assert v.dirty + {item} + (v.batch - {item}) == v.dirty + v.batch;
  }

  lemma BesideFacts(a: View, b: View)
    requires Beside(a, b)
    ensures b.batch == a.batch && b.conflicts == a.conflicts && b.inFlight == a.inFlight && |b.script| <= |a.script|
    ensures b.mine == a.mine && Still(a, b)
    ensures InStep(a) ==> InStep(b)
  {
    BesideKeepsInStep(a, b);
  }

  lemma WorkedLog(a: View, b: View)
    requires Worked(a, b)
    ensures b.conflicts == a.conflicts ==> RefusedIn(b.mine) == RefusedIn(a.mine)
    ensures Obedient(a.mine) && !RefusedIn(a.mine) ==> Obedient(b.mine)
    ensures |b.script| <= |a.script| && a.conflicts <= b.conflicts
  {
  }

  /** The remote does not store `v`: it is over 64 KiB. */
  ghost predicate TooLarge(v: Value) {
    match v
    case Json(text) => |text| > 65_536
    case LeaseClaim(holder, _) => |holder| + 33 > 65_536
    case Sealed(_, _, body) => 13 + 4 * ((|body| + 31) / 3) > 65_536
  }

  /** The record cached under `k` is live in the remote, or too large for it; and with none cached none is live. */
  ghost predicate RecordIsThere(entries: map<Key, Entry>, records: map<Key, Value>, k: Key) {
    if k in records then
      (k in entries && entries[k].value == Some(records[k])) || TooLarge(records[k])
    else k in entries ==> entries[k].value.None?
  }

  /** Secret `name` is in the remote, sealed to the version it is at, or too large for it; and with none held none is
      live. */
  ghost predicate SecretIsThere(entries: map<Key, Entry>, secrets: map<string, Bytes>, key: string, name: string) {
    var k := SecretKey(name);
    if name in secrets then
      || (k in entries && entries[k].value
            == Some(Sealed(key, "secret/" + name + "@" + Decimal(entries[k].version), secrets[name])))
      || TooLarge(Sealed(key, "", secrets[name]))
    else k in entries ==> entries[k].value.None?
  }

  /** The remote holds all this host does: each cached record of the four tables but the host's own binding, and each
      secret that is not a pending one. */
  ghost predicate RemoteHolds(entries: map<Key, Entry>, local: Local, key: string) {
    && (forall t, name :: !(t == Meta && name == "vta/binding") ==>
          RecordIsThere(entries, local.records, StateKey(t, name)))
    && (forall name :: !("pending/" <= name) ==> SecretIsThere(entries, local.secrets, key, name))
  }

  lemma AgreeingIsThere(entries: map<Key, Entry>, local: Local, key: string, k: Key)
    requires Mirrored(k) && (Agrees(entries, local, key, k) || Oversized(local, key, k))
    ensures k.StateKey? ==> RecordIsThere(entries, local.records, k)
    ensures k.SecretKey? ==> SecretIsThere(entries, local.secrets, key, k.name)
  {
  }

  /** A host in step with nothing pending has everything in the remote. */
  lemma NothingOwed(v: View)
    requires Valid(v)
    ensures InStep(v) && |v.dirty| + v.inFlight == 0 ==> RemoteHolds(v.remote.records, v.local, v.key)
  {
    if InStep(v) && |v.dirty| + v.inFlight == 0 {
      assert v.dirty + v.batch == {};
      forall k | Mirrored(k)
        ensures k.StateKey? ==> RecordIsThere(v.remote.records, v.local.records, k)
        ensures k.SecretKey? ==> SecretIsThere(v.remote.records, v.local.secrets, v.key, k.name)
      {
        AgreeingIsThere(v.remote.records, v.local, v.key, k);
      }
    }
  }

  /** The remote stores no value larger than its cap. */
  ghost predicate Capped(entries: map<Key, Entry>) {
    forall k :: k in entries && entries[k].value.Some? ==> !TooLarge(entries[k].value.value)
  }

  /** What a flush that succeeds means: the remote holds what this host does, or that is too large for it; and where
      the remote keeps to its cap, a record is there as it is cached exactly if it is not too large. */
  lemma FlushedMeans(v: View)
    requires Valid(v) && InStep(v) && |v.dirty| + v.inFlight == 0
    ensures RemoteHolds(v.remote.records, v.local, v.key)
    ensures Capped(v.remote.records) ==>
      forall t, name :: var k := StateKey(t, name); k in v.local.records && !(t == Meta && name == "vta/binding") ==>
        (k in v.remote.records && v.remote.records[k].value == Some(v.local.records[k]) <==> !TooLarge(v.local.records[k]))
  {
    NothingOwed(v);
    if Capped(v.remote.records) {
      forall t, name | StateKey(t, name) in v.local.records && !(t == Meta && name == "vta/binding")
        ensures var k := StateKey(t, name);
          k in v.remote.records && v.remote.records[k].value == Some(v.local.records[k]) <==> !TooLarge(v.local.records[k])
      {
        assert RecordIsThere(v.remote.records, v.local.records, StateKey(t, name));
      }
    }
  }

  /** So what is reported after a flush need not be in the remote: a record too large for it is not. */
  lemma OversizedIsNotWritten() returns (v: View, k: Key)
    ensures Valid(v) && InStep(v) && |v.dirty| + v.inFlight == 0 && Capped(v.remote.records)
    ensures k == StateKey(Repos, "r") && k in v.local.records && k !in v.remote.records
  {
    k := StateKey(Repos, "r");
    var large := seq(MAX_VALUE_BYTES + 1, _ => '0');
    v := View("host", "key", false, Remote(0, map[], false), false, map[], map[], [],
              Local(map[k := Json(large)], map[]), map[], map[], {}, 0, {}, 0, {}, 0, []);
  }

  // ---- Reading the remote back ----

  /** The remote went back in time, whichever way it shows: its counter is behind a version this host
      mirrored, a complete change feed has lost a mirrored key, or a record is older than mirrored. */
  predicate RolledBack(listing: Listing, mirrored: map<Key, nat>) {
    || (exists k :: k in mirrored && listing.watermark < mirrored[k])
    || (listing.mode == Feed && exists k :: k in mirrored && k !in listing.records)
    || (exists k :: k in mirrored && k in listing.records && listing.records[k].version < mirrored[k])
  }

  /** What a pull leaves of a mirrored record: the remote's, or the cached one if the remote never had it. */
  function PulledRecord(latest: map<Key, Entry>, mirrored: map<Key, nat>, records: map<Key, Value>,
                        k: Key): Option<Value> {
    if k in latest then latest[k].value else if k in mirrored then None else LookUp(records, k)
  }

  /** The cached records a pull marks for writing: never mirrored, and unknown to the remote. */
  function Unmirrored(latest: map<Key, Entry>, mirrored: map<Key, nat>, records: map<Key, Value>): set<Key> {
    set k | k in records && Mirrored(k) && k !in latest && k !in mirrored
  }

  function LiveVersions(latest: map<Key, Entry>): map<Key, nat> {
    map k | k in latest && latest[k].value.Some? :: latest[k].version
  }

  function PulledSecret(latest: map<Key, Entry>, secrets: map<string, Bytes>, name: string): Option<Bytes> {
    if LiveVersion(latest, SecretKey(name)).Some? && latest[SecretKey(name)].value.value.Sealed?
    then Some(latest[SecretKey(name)].value.value.body) else LookUp(secrets, name)
  }

  /** A mirrored record the remote no longer has goes from the cache. */
  function KeptRecord(latest: map<Key, Entry>, mirrored: map<Key, nat>, records: map<Key, Value>,
                      k: Key): Option<Value> {
    if Mirrored(k) && k !in latest && k in mirrored then None else LookUp(records, k)
  }

  function TakenRecord(latest: map<Key, Entry>, records: map<Key, Value>, k: Key): Option<Value> {
    if k.StateKey? && k in latest then latest[k].value else LookUp(records, k)
  }

  function TakenVersion(latest: map<Key, Entry>, mirrored: map<Key, nat>, k: Key): Option<nat> {
    if (k.StateKey? || k.SecretKey?) && LiveVersion(latest, k).Some? then LiveVersion(latest, k)
    else if k.StateKey? && k in latest then None
    else LookUp(mirrored, k)
  }

  /** The listing taken over, all but the keys in `todo`. */
  ghost predicate TakenOver(latest: map<Key, Entry>, todo: set<Key>, was: Local, wasMirrored: map<Key, nat>,
                            local: Local, mirrored: map<Key, nat>) {
    && (forall k :: LookUp(local.records, k)
                    == (if k in todo then LookUp(was.records, k) else TakenRecord(latest, was.records, k)))
    && (forall name :: LookUp(local.secrets, name)
          == (if SecretKey(name) in todo then LookUp(was.secrets, name) else PulledSecret(latest, was.secrets, name)))
    && (forall k :: LookUp(mirrored, k) == (if k in todo then LookUp(wasMirrored, k) else TakenVersion(latest, wasMirrored, k)))
  }

  lemma TakeOverStarts(latest: map<Key, Entry>, was: Local, mirrored: map<Key, nat>)
    ensures TakenOver(latest, latest.Keys, was, mirrored, was, mirrored)
  {
  }

  lemma TakenOverFrom(latest: map<Key, Entry>, todo: set<Key>, was: Local, wasMirrored: map<Key, nat>,
                      local: Local, mirrored: map<Key, nat>)
    requires TakenOver(latest, todo, was, wasMirrored, local, mirrored)
    ensures forall k :: k in mirrored ==> MirroredFrom(latest, wasMirrored, k, mirrored[k])
  {
    forall k | k in mirrored ensures MirroredFrom(latest, wasMirrored, k, mirrored[k]) {
      assert LookUp(mirrored, k) == Some(mirrored[k]);
    }
  }

  /** One key of a listing taken over. */
  lemma TakeOverStep(latest: map<Key, Entry>, todo: set<Key>, was: Local, wasMirrored: map<Key, nat>,
                     local: Local, mirrored: map<Key, nat>, key: Key, local': Local, mirrored': map<Key, nat>)
    requires TakenOver(latest, todo, was, wasMirrored, local, mirrored) && key in todo && key in latest
    requires local'.records == (match TakenRecord(latest, local.records, key)
                                case Some(v) => local.records[key := v] case None => local.records - {key})
    requires local'.secrets == (if key.SecretKey? && PulledSecret(latest, local.secrets, key.name).Some?
                                then local.secrets[key.name := PulledSecret(latest, local.secrets, key.name).value]
                                else local.secrets)
    requires mirrored' == (match TakenVersion(latest, mirrored, key)
                           case Some(v) => mirrored[key := v] case None => mirrored - {key})
    ensures TakenOver(latest, todo - {key}, was, wasMirrored, local', mirrored')
  {
  }

  /** MAIN RESULT. A store that only ever took writes, deletions and reaping since this host mirrored
      `mirrored` is never taken for one that was rolled back. */
  lemma HonestStoreIsNotRefused(s: Remote, changes: seq<Change>, mirrored: map<Key, nat>)
    requires Accounts(s, mirrored)
    ensures !WentBack(Evolve(s, changes), mirrored)
  {
    EvolveKeepsAccounts(s, changes, mirrored);
  }

  /** MAIN RESULT. A record this host mirrored and another host deleted is not brought back by a pull,
      whether its tombstone is still there or was reaped: it is dropped here and not marked for writing.
      And a stale host that writes it without pulling is refused. */
  lemma DeletedIsNotResurrected(s: Remote, changes: seq<Change>, mirrored: map<Key, nat>, records: map<Key, Value>,
                                k: Key)
    requires Accounts(s, mirrored) && k in mirrored
    requires LiveVersion(s.records, k).None? && LeavesAlone(changes, k)
    ensures var latest := Evolve(s, changes).records;
      && PulledRecord(latest, mirrored, records, k) == None
      && k !in Unmirrored(latest, mirrored, records)
      && (mirrored[k] > 0 ==> !Precondition(LiveVersion(latest, k), Some(mirrored[k])))
  {
    DeletedStaysDeleted(s, changes, k);
  }

  /** A remembered version is the one remembered before, or the one just listed. */
  predicate MirroredFrom(latest: map<Key, Entry>, mirrored: map<Key, nat>, k: Key, version: nat) {
    LookUp(mirrored, k) == Some(version) || (k in latest && latest[k].version == version)
  }

  lemma PulledKeys(v: View)
    requires Valid(v)
    ensures forall k :: k in v.local.records ==> k.StateKey?
    ensures forall k :: k in v.dirty ==> Mirrored(k)
  {
  }

  lemma UnmirroredMarks(latest: map<Key, Entry>, mirrored: map<Key, nat>, records: map<Key, Value>)
    ensures forall k :: k in Unmirrored(latest, mirrored, records) ==> Mirrored(k)
  {
  }

  /** The stages of a pull, put together: `taken` is what the listing taken over left, `after` what was left
      once the cached records were reconciled with it. */
  lemma PullComposes(latest: map<Key, Entry>, mirrored: map<Key, nat>, start: Local, startMirrored: map<Key, nat>,
                     taken: Local, takenMirrored: map<Key, nat>, after: Local)
    requires TakenOver(latest, {}, start, startMirrored, taken, takenMirrored)
    requires forall k :: k in start.records ==> k.StateKey?
    requires after.secrets == taken.secrets
    requires forall k :: LookUp(after.records, k) == KeptRecord(latest, mirrored, taken.records, k)
    ensures forall k :: Mirrored(k) && k.StateKey? ==>
      LookUp(after.records, k) == PulledRecord(latest, mirrored, start.records, k)
    ensures forall name :: LookUp(after.secrets, name) == PulledSecret(latest, start.secrets, name)
    ensures Unmirrored(latest, mirrored, taken.records) == Unmirrored(latest, mirrored, start.records)
    ensures forall k :: k in after.records ==> k.StateKey?
  {
    forall k
      ensures LookUp(taken.records, k) == TakenRecord(latest, start.records, k)
    {
    }
    forall k | k in after.records ensures k.StateKey? {
      assert LookUp(after.records, k) == KeptRecord(latest, mirrored, taken.records, k);
      assert LookUp(taken.records, k) == TakenRecord(latest, start.records, k);
    }
    forall k | k !in latest
      ensures k in taken.records <==> k in start.records
    {
      assert LookUp(taken.records, k) == TakenRecord(latest, start.records, k);
    }
  }

  datatype PullError = Unreachable | Refused

  /** The remote shows less than this host mirrored: its counter is behind, a record is older, or a complete change
      feed no longer has one. */
  ghost predicate WentBack(s: Remote, mirrored: map<Key, nat>) {
    exists k :: k in mirrored
      && (s.counter < mirrored[k] || (if k in s.records then s.records[k].version < mirrored[k] else !s.reaped))
  }

  /** Some live secret is not sealed under this host's key to its own name and version. */
  ghost predicate Tampered(entries: map<Key, Entry>, key: string) {
    exists name :: SecretKey(name) in entries
      && match entries[SecretKey(name)]
         case Entry(at, Some(Sealed(under, aad, _))) => under != key || aad != "secret/" + name + "@" + Decimal(at)
         case Entry(_, v) => v.Some?
  }

  lemma RefusalsMean(s: Remote, mirrored: map<Key, nat>, key: string)
    ensures RolledBack(ListingOf(s), mirrored) <==> WentBack(s, mirrored)
    ensures !SecretsOpen(s.records, key) <==> Tampered(s.records, key)
  {
    if !SecretsOpen(s.records, key) {
      var name :| LiveVersion(s.records, SecretKey(name)).Some? && !Opens(s.records, key, name);
      assert SecretKey(name) in s.records;
    }
    if Tampered(s.records, key) {
      var name :| SecretKey(name) in s.records
        && match s.records[SecretKey(name)]
           case Entry(at, Some(Sealed(under, aad, _))) => under != key || aad != "secret/" + name + "@" + Decimal(at)
           case Entry(_, v) => v.Some?;
      assert LiveVersion(s.records, SecretKey(name)).Some? && !Opens(s.records, key, name);
    }
  }

  /** What the remote holds taken over. A record it has is as it has it, and remembered at its version; one it has no
      word of goes if this host had mirrored it, and if not stays and is marked. A live secret is held, and
      remembered. */
  ghost predicate Adopted(latest: map<Key, Entry>, mirrored: map<Key, nat>, was: Local, marked: set<Key>, b: View) {
    && (forall t, name :: !(t == Meta && name == "vta/binding") ==>
          RecordAdopted(latest, mirrored, was.records, marked, b, StateKey(t, name)))
    && (forall name :: SecretAdopted(latest, was.secrets, marked, b, name))
    && (forall k :: if k in latest && latest[k].value.Some? then k in b.versions && b.versions[k] == latest[k].version
                    else k !in b.versions)
  }

  ghost predicate RecordAdopted(latest: map<Key, Entry>, mirrored: map<Key, nat>, records: map<Key, Value>,
                                marked: set<Key>, b: View, k: Key) {
    if k in latest then
      && LookUp(b.local.records, k) == latest[k].value
      && LookUp(b.mirrored, k) == (if latest[k].value.Some? then Some(latest[k].version) else None)
      && (k in b.dirty <==> k in marked)
    else
      && LookUp(b.local.records, k) == (if k in mirrored then None else LookUp(records, k))
      && (k in b.dirty <==> k in marked || (k in records && k !in mirrored))
  }

  ghost predicate SecretAdopted(latest: map<Key, Entry>, secrets: map<string, Bytes>, marked: set<Key>, b: View,
                                name: string) {
    var k := SecretKey(name);
    && (k in b.dirty <==> k in marked)
    && if k in latest && latest[k].value.Some? then
         && latest[k].value.value.Sealed? && LookUp(b.local.secrets, name) == Some(latest[k].value.value.body)
         && LookUp(b.mirrored, k) == Some(latest[k].version)
       else LookUp(b.local.secrets, name) == LookUp(secrets, name)
  }

  lemma AdoptionMeans(a: View, b: View)
    requires Valid(a)
    requires SecretsOpen(a.remote.records, a.key) && b.versions == LiveVersions(a.remote.records)
    requires forall k :: Mirrored(k) && k.StateKey? ==>
      LookUp(b.local.records, k) == PulledRecord(a.remote.records, a.mirrored, a.local.records, k)
    requires forall name :: LookUp(b.local.secrets, name) == PulledSecret(a.remote.records, a.local.secrets, name)
    requires b.dirty == a.dirty + Unmirrored(a.remote.records, a.mirrored, a.local.records)
    requires Remembers(a.remote.records, b.mirrored)
    ensures Adopted(a.remote.records, a.mirrored, a.local, a.dirty, b)
  {
    var latest := a.remote.records;
    forall k | Mirrored(k) && k.StateKey?
      ensures RecordAdopted(latest, a.mirrored, a.local.records, a.dirty, b, k)
    {
      assert LookUp(b.local.records, k) == PulledRecord(latest, a.mirrored, a.local.records, k);
      assert k in latest ==> LookUp(b.mirrored, k) == LiveVersion(latest, k);
    }
    forall name ensures SecretAdopted(latest, a.local.secrets, a.dirty, b, name) {
      assert LookUp(b.local.secrets, name) == PulledSecret(latest, a.local.secrets, name);
      if LiveVersion(latest, SecretKey(name)).Some? {
        assert Opens(latest, a.key, name);
        assert LookUp(b.mirrored, SecretKey(name)) == LiveVersion(latest, SecretKey(name));
      }
      assert SecretKey(name) !in Unmirrored(latest, a.mirrored, a.local.records);
    }
  }

  /** Each record listed and each live secret is remembered at its version. */
  ghost predicate Remembers(latest: map<Key, Entry>, mirrored: map<Key, nat>) {
    forall k :: k in latest && (k.StateKey? || (k.SecretKey? && latest[k].value.Some?)) ==>
      LookUp(mirrored, k) == LiveVersion(latest, k)
  }

  /** A listing taken over whole is remembered, and stays so. */
  lemma TakenOverRemembers(latest: map<Key, Entry>, start: Local, startMirrored: map<Key, nat>, taken: Local,
                           takenMirrored: map<Key, nat>, mirrored: map<Key, nat>)
    requires TakenOver(latest, {}, start, startMirrored, taken, takenMirrored)
    requires forall k :: k in mirrored ==> k in takenMirrored && mirrored[k] == takenMirrored[k]
    requires forall k :: k in takenMirrored && k in latest ==> k in mirrored
    ensures Remembers(latest, mirrored)
  {
    forall k | k in latest && (k.StateKey? || (k.SecretKey? && latest[k].value.Some?))
      ensures LookUp(mirrored, k) == LiveVersion(latest, k)
    {
      assert LookUp(takenMirrored, k) == TakenVersion(latest, startMirrored, k);
    }
  }

  /** Reading a listing leaves the host careful, and it has seen what it read. */
  lemma ReadingKept(v: View, versions: map<Key, nat>)
    requires Valid(v) && versions == LiveVersions(v.remote.records)
    ensures var pulled := v.pulled + Reading(|v.mine|, versions);
      && Careful(v.mine, pulled) && Sighted(v.mine, pulled, v.remote)
      && Sourced(v.mine, pulled, v.versions) && Sourced(v.mine, pulled, versions)
  {
    hide Saw, Accounts;
    var pulled := v.pulled + Reading(|v.mine|, versions);
    forall n, k, x: nat | 0 <= n <= |v.mine|
      ensures Saw(v.mine, pulled, n, k, x)
           == (Saw(v.mine, v.pulled, n, k, x) || (n == |v.mine| && k in versions && versions[k] == x))
    {
      SawReading(v.mine, v.pulled, versions, n, k, x);
    }
    hide Reading;
    forall n | 0 <= n < |v.mine| ensures CarefulAt(v.mine, pulled, n) {
      assert CarefulAt(v.mine, v.pulled, n);
    }
    assert forall r :: r in pulled ==> r.0 <= |v.mine| by {
      ReadingNow(|v.mine|, versions);
    }
  }

  lemma ReadingNow(n: nat, versions: map<Key, nat>)
    ensures forall r :: r in Reading(n, versions) ==> r.0 == n
  {
  }

  /** A host that goes by what it has just listed goes by what it has seen. */
  lemma NotedIsValid(a: View, b: View)
    requires Valid(a)
    requires b == a.(versions := LiveVersions(a.remote.records),
                     pulled := a.pulled + Reading(|a.mine|, LiveVersions(a.remote.records)))
    ensures Valid(b)
  {
    hide Careful, Sourced, Sighted, Reading, LiveVersions;
    ReadingKept(a, LiveVersions(a.remote.records));
  }

  /** What is adopted of a listing is valid, whether that was accepted or refused part way. */
  lemma AdoptedIsValid(a: View, b: View)
    requires Valid(a)
    requires b == a.(local := b.local, mirrored := b.mirrored, dirty := b.dirty, conflicts := b.conflicts)
    requires forall k :: k in b.mirrored ==> MirroredFrom(a.remote.records, a.mirrored, k, b.mirrored[k])
    requires forall k :: k in b.dirty ==> Mirrored(k)
    requires forall k :: k in b.local.records ==> k.StateKey?
    ensures Valid(b)
  {
    hide Careful, Sourced, Sighted;
  }

  /** Remembering less is no harm. */
  lemma ForgettingIsValid(v: View, mirrored: map<Key, nat>, conflicts: nat)
    requires Valid(v) && forall k :: k in mirrored ==> k in v.mirrored && mirrored[k] == v.mirrored[k]
    ensures Valid(v.(mirrored := mirrored, conflicts := conflicts))
  {
    hide Careful, Sourced, Sighted, Sane;
  }

  /** MAIN RESULT. After a pull by a host that held no secrets yet, host and remote agree on everything but
      what the pull marked. */
  lemma PulledIsInStep(v: View, records: map<Key, Value>, mirrored: map<Key, nat>)
    requires Quiet(v.script) && v.versions == LiveVersions(v.remote.records) && SecretsOpen(v.remote.records, v.key)
    requires forall k :: Mirrored(k) && k.StateKey? ==>
      LookUp(v.local.records, k) == PulledRecord(v.remote.records, mirrored, records, k)
    requires forall name :: LookUp(v.local.secrets, name) == PulledSecret(v.remote.records, map[], name)
    requires Unmirrored(v.remote.records, mirrored, records) <= v.dirty
    ensures InStep(v)
  {
    var latest := v.remote.records;
    forall k | Mirrored(k)
      ensures LiveVersion(latest, k) == LookUp(v.versions, k)
      ensures k in v.dirty + v.batch || Agrees(latest, v.local, v.key, k)
    {
      match k
      case StateKey(_, _) =>
        assert LookUp(v.local.records, k) == PulledRecord(latest, mirrored, records, k);
      case SecretKey(name) =>
        assert LookUp(v.local.secrets, name) == PulledSecret(latest, map[], name);
        if LiveVersion(latest, k).Some? {
          assert Opens(latest, v.key, name);
        }
      case _ =>
    }
  }

  lemma AccountedIsNotRolledBack(v: View)
    requires Valid(v) && v.lossless
    ensures !WentBack(v.remote, v.mirrored)
  {
    HonestStoreIsNotRefused(v.remote, [], v.mirrored);
  }

  // ---- The writer lease's decisions ----

  function HolderOf(v: Value): string {
    if v.LeaseClaim? then v.holder else ""
  }

  function UntilOf(v: Value): int {
    if v.LeaseClaim? then v.until else 0
  }

  function Min(a: int, b: int): int {
    if a <= b then a else b
  }

  /** The time from which others may take a lease over; `None`: at once. */
  function LeaseExpiry(v: Value, updatedAt: Option<int>): Option<int> {
    match updatedAt
    case Some(at) => Some(Min(UntilOf(v), at + LEASE_TTL_SECS))
    case None => None
  }

  predicate Expired(expiry: Option<int>, now: int) {
    expiry.None? || expiry.value < now
  }

  /** What an acquiring writer expects of the lease record it read: nothing there, or its version if
      that lease ran out or is its own. `None`: it must wait. */
  function AcquireExpecting(current: Option<(Entry, Option<int>)>, holder: string, now: int): Option<nat>
    requires current.Some? ==> current.value.0.value.Some?
  {
    match current
    case None => Some(0)
    case Some((e, at)) =>
      if Expired(LeaseExpiry(e.value.value, at), now) || HolderOf(e.value.value) == holder then Some(e.version) else None
  }

  /** Whether `holder` may take over the lease record found, by its clock `now`: nothing is live there, the store has
      no time for it, it is the holder's own, or it ran out (by its own word, or 120 seconds after it was written). */
  ghost predicate MayTake(was: Option<(Entry, Option<int>)>, holder: string, now: int) {
    match was
    case None => true
    case Some((e, at)) =>
      at.None? || at.value + 120 < now
      || match e.value
         case Some(LeaseClaim(h, until)) => h == holder || until < now
         case _ => holder == "" || 0 < now
  }

  /** The same of the lease record as it lies in the store. */
  ghost predicate LeaseIsOpen(records: map<Key, Entry>, stamps: map<Key, int>, holder: string, now: int) {
    || LeaseKey !in records || records[LeaseKey].value.None? || LeaseKey !in stamps
    || MayTake(Some((records[LeaseKey], Some(stamps[LeaseKey]))), holder, now)
  }

  lemma ExpectingMeans(current: Option<(Entry, Option<int>)>, holder: string, now: int)
    requires current.Some? ==> current.value.0.value.Some?
    ensures var expected := AcquireExpecting(current, holder, now);
      && (expected.Some? <==> MayTake(current, holder, now))
      && (expected.Some? ==> expected.value == if current.Some? then current.value.0.version else 0)
  {
  }

  lemma OpenMeans(records: map<Key, Entry>, stamps: map<Key, int>, holder: string, now: int)
    ensures AcquireExpecting(LiveRecord(records, stamps, LeaseKey), holder, now).Some?
       <==> LeaseIsOpen(records, stamps, holder, now)
    ensures LeaseIsOpen(records, stamps, holder, now) ==>
      Precondition(LiveVersion(records, LeaseKey), AcquireExpecting(LiveRecord(records, stamps, LeaseKey), holder, now))
  {
    ExpectingMeans(LiveRecord(records, stamps, LeaseKey), holder, now);
  }

  /** How many writes of `k` landed. */
  ghost function LandedOn(mine: seq<Op>, k: Key): nat {
    if mine == [] then 0
    else
      LandedOn(mine[..|mine| - 1], k)
      + if mine[|mine| - 1].key == k && mine[|mine| - 1].took.Some? then 1 else 0
  }

  lemma LandedOnMore(mine: seq<Op>, op: Op, k: Key)
    ensures LandedOn(mine + [op], k) == LandedOn(mine, k) + (if op.key == k && op.took.Some? then 1 else 0)
    ensures Last(mine + [op]) == op
  {
    assert (mine + [op])[..|mine|] == mine;
  }

  lemma {:induction false} LandedElsewhere(a: seq<Op>, b: seq<Op>, k: Key)
    requires LeaseOnly(a, b) && k != LeaseKey
    ensures LandedOn(b, k) == LandedOn(a, k)
    decreases |b|
  {
    if |b| > |a| {
      var last := |b| - 1;
      LandedElsewhere(a, b[..last], k);
      assert b == b[..last] + [b[last]];
      LandedOnMore(b[..last], b[last], k);
    } else {
      assert a == b;
    }
  }

  lemma LeasedLandsNothing(a: View, b: View, k: Key)
    requires Leased(a, b) && k != LeaseKey
    ensures LandedOn(b.mine, k) == LandedOn(a.mine, k)
  {
    LandedElsewhere(a.mine, b.mine, k);
  }

  /** The last request was refused. */
  ghost predicate RefusedLast(mine: seq<Op>) {
    mine != [] && Last(mine).took.None?
  }

  /** The last request made. */
  ghost function Last(mine: seq<Op>): Op {
    if mine == [] then Op("", LeaseKey, None, None, None, false) else mine[|mine| - 1]
  }

  /** From `a` to `b` the holder claimed the lease at most once. Over the record found, the claim is the one that
      record calls for by the clock `now`: there is none, or it ran out, or it is the holder's own. */
  ghost predicate Claims(a: seq<Op>, b: seq<Op>, holder: string, now: int) {
    b != a ==>
      && |b| == |a| + 1 && a <= b && Last(b).key == LeaseKey && !Last(b).deletion && Last(b).expected.Some?
      && (Last(b).took.Some? ==>
            (Last(b).was.Some? ==> Last(b).was.value.0.value.Some?)
            && MayTake(Last(b).was, holder, now)
            && Last(b).expected == Some(if Last(b).was.Some? then Last(b).was.value.0.version else 0))
  }

  lemma NothingClaimed(mine: seq<Op>, holder: string, now: int)
    ensures Claims(mine, mine, holder, now)
  {
  }

  lemma ClaimIsCalledFor(a: seq<Op>, b: seq<Op>, current: Option<(Entry, Option<int>)>, holder: string, now: int)
    requires current.Some? ==> current.value.0.value.Some?
    requires AcquireExpecting(current, holder, now).Some?
    requires Asked(a, b, LeaseKey, AcquireExpecting(current, holder, now), false)
    requires b != a && Last(b).took.Some? ==> Last(b).was == current
    ensures Claims(a, b, holder, now)
  {
    ExpectingMeans(current, holder, now);
  }
}
