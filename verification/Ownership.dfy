/** Which namespace governs a repository, under webhooks (crates/vgi-bridge/src/events.rs): an event that a
    GitHub App's secret verifies speaks for that App's owner only.

    Resources are in their canonical, lower-case form, so owners are compared as they are. */
module Ownership {
  import opened Wrappers
  import opened Keys

  /** `host/owner`, or `host/owner/.../repository`. */
  datatype Resource = Resource(host: string, path: seq<string>)
  {
    function Owner(): string {
      if path == [] then "" else path[0]
    }

    predicate IsNamespace() {
      |path| == 1
    }

    function RepoName(): string {
      if |path| <= 1 then "" else path[|path| - 1]
    }

    predicate Contains(r: Resource) {
      r.host == host && path <= r.path
    }
  }

  /** Whose deliveries these are: an owner's on a host, or (on Forgejo) the host's. */
  datatype Scope = Scope(host: string, owner: Option<string>)
  {
    predicate Covers(r: Resource) {
      r.host == host && (owner.None? || r.Owner() == owner.value)
    }
  }

  datatype NamespaceState = Pending | Bound | Orphaned

  datatype Namespace = Namespace(resource: Resource, state: NamespaceState, managed: set<nat>)

  /** `kept` stands for all that is kept with the record: owners, projected roles, the required check. */
  datatype RepoRecord = RepoRecord(namespace: string, resource: Resource, forgeId: nat, kept: string)

  datatype Notice =
    | Unmanaged(forgeId: nat, resource: Resource)
    | Deleted(forgeId: nat, resource: Resource)
    | Renamed(forgeId: nat, from: Resource, to: Resource)
    | Transferred(forgeId: nat, from: Resource, to: Resource)

  /** The tables an event can change, and what was reported to the VTC, by namespace. A branch ledger's key is
      the host, the repository's forge id and the branch. */
  datatype State = State(namespaces: map<string, Namespace>, repos: map<(string, nat), RepoRecord>,
                         ledgers: map<(string, nat, string), string>, reports: seq<(string, Notice)>)

  /** The bridge's own repository in a namespace. */
  const NAMESPACE_REPO := ".vgi"

  // ---- The keys of branch ledgers ----

  /** The text key of a ledger starts with this exactly when it is the repository's. */
  function LedgerPrefix(host: string, id: nat): string {
    host + "#" + Decimal(id) + "#"
  }

  lemma HashSplits(a: string, b: string, x: string, y: string)
    requires '#' !in a && '#' !in b && a + "#" + x <= b + "#" + y
    ensures a == b && x <= y
  {
    var s, t := a + "#" + x, b + "#" + y;
    assert forall i :: 0 <= i < |b| ==> t[i] == b[i] && b[i] in b;
    assert t[|a|] == s[|a|] == '#';
    assert |b| <= |a|;
    assert forall i :: 0 <= i < |a| ==> s[i] == a[i] && a[i] in a;
    assert s[|b|] == t[|b|] == '#';
    assert |a| == |b|;
    assert a == s[..|a|] == t[..|b|] == b;
    assert x == s[|a| + 1..] && y == t[|b| + 1..];
  }

  lemma {:induction false} DecimalHasNoHash(n: nat)
    ensures '#' !in Decimal(n)
  {
    if n >= 10 {
      DecimalHasNoHash(n / 10);
    }
  }

  /** Deleting the ledgers whose key has a repository's prefix deletes that repository's, and no other's. */
  lemma PrefixNamesTheRepository(host: string, id: nat, host': string, id': nat, branch: string)
    requires '#' !in host && '#' !in host'
    ensures LedgerPrefix(host, id) <= LedgerPrefix(host', id') + branch <==> host == host' && id == id'
  {
    var d, d' := Decimal(id), Decimal(id');
    DecimalHasNoHash(id);
    DecimalHasNoHash(id');
    assert LedgerPrefix(host, id) == host + "#" + (d + "#" + "");
    assert LedgerPrefix(host', id') + branch == host' + "#" + (d' + "#" + branch);
    if LedgerPrefix(host, id) <= LedgerPrefix(host', id') + branch {
      HashSplits(host, host', d + "#" + "", d' + "#" + branch);
      HashSplits(d, d', "", branch);
      DecimalInjective(id, id');
    }
  }

  // ---- Who governs what ----

  predicate Records(s: State, n: string, host: string, id: nat) {
    (host, id) in s.repos && s.repos[(host, id)].namespace == n
  }

  predicate Manages(s: State, n: string, host: string, id: nat) {
    n in s.namespaces && s.namespaces[n].resource.host == host && id in s.namespaces[n].managed
  }

  predicate Claims(s: State, n: string, host: string, id: nat) {
    Records(s, n, host, id) || Manages(s, n, host, id)
  }

  predicate InOrder(s: State, k: (string, nat)) {
    && k in s.repos && s.repos[k].forgeId == k.1 && s.repos[k].resource.host == k.0
    && s.repos[k].namespace in s.namespaces && s.namespaces[s.repos[k].namespace].resource.Contains(s.repos[k].resource)
  }

  /** Each forge id on a host is one namespace's at most, and a record lies in its namespace. */
  ghost predicate Exclusive(s: State) {
    && (forall n :: n in s.namespaces ==> s.namespaces[n].resource.IsNamespace())
    && (forall k :: k in s.repos ==> InOrder(s, k))
    && (forall m, n, host, id :: Claims(s, m, host, id) && Claims(s, n, host, id) ==> m == n)
  }

  predicate ClaimedElsewhere(s: State, n: string, host: string, id: nat) {
    ((host, id) in s.repos && s.repos[(host, id)].namespace != n)
    || exists m :: m in s.namespaces && m != n && Manages(s, m, host, id)
  }

  /** What the test finds if the store fails to read the record, or to list the namespaces. */
  predicate SeenElsewhere(s: State, n: string, host: string, id: nat, recordOk: bool, listOk: bool) {
    (recordOk && (host, id) in s.repos && s.repos[(host, id)].namespace != n)
    || (listOk && exists m :: m in s.namespaces && m != n && Manages(s, m, host, id))
  }

  lemma ClaimedElsewhereMeans(s: State, n: string, host: string, id: nat)
    ensures ClaimedElsewhere(s, n, host, id) <==> exists m :: m != n && Claims(s, m, host, id)
  {
    if (host, id) in s.repos {
      assert Claims(s, s.repos[(host, id)].namespace, host, id);
    }
    forall m | m in s.namespaces && Manages(s, m, host, id) ensures Claims(s, m, host, id) {
    }
  }

  /** Namespace `n` and all it governs are in `t` as in `s`, except for the forge ids in `ids`. */
  ghost predicate UntouchedBut(s: State, t: State, n: string, ids: set<nat>) {
    && (n in s.namespaces ==> n in t.namespaces)
    && (n in s.namespaces ==> t.namespaces[n].managed <= s.namespaces[n].managed <= t.namespaces[n].managed + ids)
    && (forall host, id :: id !in ids ==> Records(s, n, host, id) == Records(t, n, host, id))
    && (forall host, id :: id !in ids && Records(s, n, host, id) ==> t.repos[(host, id)] == s.repos[(host, id)])
    && (forall host, id, branch :: id !in ids && Claims(s, n, host, id) && (host, id, branch) in s.ledgers ==>
          (host, id, branch) in t.ledgers && t.ledgers[(host, id, branch)] == s.ledgers[(host, id, branch)])
  }

  predicate SamePlace(a: Namespace, b: Namespace) {
    a.resource == b.resource && a.state == b.state
  }

  /** Namespaces stay where and what they are, and nothing is added to what is governed. */
  ghost predicate Shrinks(s: State, t: State) {
    && t.namespaces.Keys == s.namespaces.Keys
    && (forall n :: n in s.namespaces ==> SamePlace(t.namespaces[n], s.namespaces[n]))
    && (forall n, host, id :: Claims(t, n, host, id) ==> Claims(s, n, host, id))
    && s.reports <= t.reports
  }

  /** Of a namespace `scope` does not cover nothing changed and to it nothing was reported, but for forge id
      `except.1` of namespace `except.0`. */
  ghost predicate Confined(s: State, t: State, scope: Scope, except: Option<(string, nat)>) {
    && Shrinks(s, t)
    && (forall n :: n in s.namespaces && !scope.Covers(s.namespaces[n].resource) ==>
          UntouchedBut(s, t, n, Excepted(except, n)) && (Excepted(except, n) == {} ==> Unheard(s, t, n)))
  }

  function Excepted(except: Option<(string, nat)>, n: string): set<nat> {
    if except.Some? && except.value.0 == n then {except.value.1} else {}
  }

  /** Nothing new was reported to `n`. */
  ghost predicate Unheard(s: State, t: State, n: string) {
    forall i :: |s.reports| <= i < |t.reports| ==> t.reports[i].0 != n
  }

  lemma ConfinedThrough(s: State, t: State, u: State, scope: Scope, except: Option<(string, nat)>)
    requires Confined(s, t, scope, except) && Confined(t, u, scope, except)
    ensures Confined(s, u, scope, except)
  {
    forall n | n in s.namespaces && !scope.Covers(s.namespaces[n].resource)
      ensures UntouchedBut(s, u, n, Excepted(except, n)) && (Excepted(except, n) == {} ==> Unheard(s, u, n))
    {
      assert UntouchedBut(s, t, n, Excepted(except, n)) && UntouchedBut(t, u, n, Excepted(except, n));
      UntouchedThrough(s, t, u, n, Excepted(except, n));
    }
  }

  lemma UntouchedThrough(s: State, t: State, u: State, n: string, ids: set<nat>)
    requires Shrinks(s, t) && UntouchedBut(s, t, n, ids) && UntouchedBut(t, u, n, ids)
    ensures UntouchedBut(s, u, n, ids)
  {
    forall host, id | id !in ids && Claims(s, n, host, id) ensures Claims(t, n, host, id) {
      assert Records(s, n, host, id) == Records(t, n, host, id);
    }
  }

  lemma ConfinedNowhere(s: State, scope: Scope, except: Option<(string, nat)>)
    ensures Confined(s, s, scope, except)
  {
  }

  // ---- Detaching ----

  /** Nothing on `host` mentions the forge ids `ids` any more. */
  function Detached(s: State, host: string, ids: set<nat>): State {
    s.(repos := map k | k in s.repos && !(k.0 == host && k.1 in ids) :: s.repos[k],
       namespaces := map n | n in s.namespaces :: Without(s.namespaces[n], host, ids),
       ledgers := map k | k in s.ledgers && !(k.0 == host && k.1 in ids) :: s.ledgers[k])
  }

  function Without(n: Namespace, host: string, ids: set<nat>): Namespace {
    if n.resource.host == host then n.(managed := n.managed - ids) else n
  }

  function Tell(s: State, n: string, notice: Notice): State {
    s.(reports := s.reports + [(n, notice)])
  }

  /** After a detach no record, managed set or branch ledger on the host mentions the forge id, and
      everything else is as it was. */
  lemma DetachLeavesNothing(s: State, host: string, ids: set<nat>, n: string, host': string, id: nat, branch: string)
    ensures var t := Detached(s, host, ids);
      && Claims(t, n, host', id) == (Claims(s, n, host', id) && !(host' == host && id in ids))
      && Records(t, n, host', id) == (Records(s, n, host', id) && !(host' == host && id in ids))
      && ((host', id, branch) in t.ledgers <==> (host', id, branch) in s.ledgers && !(host' == host && id in ids))
      && (Records(t, n, host', id) ==> t.repos[(host', id)] == s.repos[(host', id)])
      && ((host', id, branch) in t.ledgers ==> t.ledgers[(host', id, branch)] == s.ledgers[(host', id, branch)])
  {
  }

  lemma DetachKeepsExclusive(s: State, host: string, ids: set<nat>)
    requires Exclusive(s)
    ensures Exclusive(Detached(s, host, ids)) && Shrinks(s, Detached(s, host, ids))
  {
    var t := Detached(s, host, ids);
    forall n, h, id | Claims(t, n, h, id) ensures Claims(s, n, h, id) {
      DetachLeavesNothing(s, host, ids, n, h, id, "");
    }
    forall k | k in t.repos ensures InOrder(t, k) {
      assert InOrder(s, k);
    }
  }

  /** A detach of what only covered namespaces claim (or of `except`'s one id) is confined. */
  lemma DetachIsConfined(s: State, host: string, ids: set<nat>, scope: Scope, except: Option<(string, nat)>)
    requires Exclusive(s)
    requires forall n, id :: id in ids && Claims(s, n, host, id) && n in s.namespaces && !scope.Covers(s.namespaces[n].resource)
               ==> except == Some((n, id))
    ensures Confined(s, Detached(s, host, ids), scope, except)
  {
    var t := Detached(s, host, ids);
    DetachKeepsExclusive(s, host, ids);
    forall n | n in s.namespaces && !scope.Covers(s.namespaces[n].resource)
      ensures UntouchedBut(s, t, n, Excepted(except, n))
    {
      UnclaimedIsUntouched(s, host, ids, n, Excepted(except, n));
    }
  }

  lemma UnclaimedIsUntouched(s: State, host: string, ids: set<nat>, n: string, but: set<nat>)
    requires n in s.namespaces && forall id :: id in ids && Claims(s, n, host, id) ==> id in but
    ensures UntouchedBut(s, Detached(s, host, ids), n, but)
  {
    var t := Detached(s, host, ids);
    forall h, id, branch | id !in but
      ensures Records(s, n, h, id) == Records(t, n, h, id)
      ensures Records(s, n, h, id) ==> t.repos[(h, id)] == s.repos[(h, id)]
      ensures Claims(s, n, h, id) && (h, id, branch) in s.ledgers ==>
                (h, id, branch) in t.ledgers && t.ledgers[(h, id, branch)] == s.ledgers[(h, id, branch)]
    {
      DetachLeavesNothing(s, host, ids, n, h, id, branch);
    }
    forall id | id in s.namespaces[n].managed && id !in t.namespaces[n].managed ensures id in but {
      assert Manages(s, n, host, id);
    }
  }

  /** The forge ids namespace `n` records at `resource` other than `forgeId`. */
  function Stale(s: State, n: string, resource: Resource, forgeId: nat): set<nat> {
    set k | k in s.repos && s.repos[k].namespace == n && s.repos[k].resource == resource && s.repos[k].forgeId != forgeId
      :: s.repos[k].forgeId
  }

  lemma StaleIsOwn(s: State, n: string, resource: Resource, forgeId: nat, id: nat)
    requires Exclusive(s) && id in Stale(s, n, resource, forgeId)
    ensures Records(s, n, resource.host, id) && id != forgeId
  {
    var k :| k in s.repos && s.repos[k].namespace == n && s.repos[k].resource == resource
             && s.repos[k].forgeId != forgeId && s.repos[k].forgeId == id;
    assert InOrder(s, k);
    assert k == (resource.host, id);
  }

  // ---- What an event does ----

  /** A namespace as it was found in the store. */
  datatype Found = Found(id: string, resource: Resource)

  /** It is still the same one, or gone. */
  predicate Known(s: State, n: Found) {
    n.resource.IsNamespace() && (n.id in s.namespaces ==> s.namespaces[n.id].resource == n.resource)
  }

  predicate Reserved(r: Resource) {
    r.RepoName() == NAMESPACE_REPO
  }

  /** A repository unknown to the VTC turns up at `resource`. */
  function AfterUnmanaged(s: State, n: Found, resource: Resource, id: nat): State {
    if Reserved(resource) || Records(s, n.id, n.resource.host, id) then s
    else Tell(Detached(s, resource.host, Stale(s, n.id, resource, id)), n.id, Unmanaged(id, resource))
  }

  /** Detaching `id` from `n` on the word of reads that may have failed. */
  function AfterDetachSeen(s: State, n: Found, id: nat, recordOk: bool, listOk: bool): State {
    if SeenElsewhere(s, n.id, n.resource.host, id, recordOk, listOk) then s else Detached(s, n.resource.host, {id})
  }

  /** Another namespace's claim to a forge id outlives a detach exactly if a read that worked showed a
      claim: the record another's, or the id in another's managed set. With both reads working it always does. */
  lemma ClaimsOutliveADetachIfSeen(s: State, n: Found, id: nat, recordOk: bool, listOk: bool, m: string)
    requires m != n.id && Claims(s, m, n.resource.host, id)
    ensures Claims(AfterDetachSeen(s, n, id, recordOk, listOk), m, n.resource.host, id)
       <==> (recordOk && (n.resource.host, id) in s.repos && s.repos[(n.resource.host, id)].namespace != n.id)
            || (listOk && exists o :: o in s.namespaces && o != n.id && Manages(s, o, n.resource.host, id))
    ensures recordOk && listOk ==> AfterDetachSeen(s, n, id, recordOk, listOk) == s == AfterDetachFrom(s, n, id)
  {
    ClaimedElsewhereMeans(s, n.id, n.resource.host, id);
    DetachLeavesNothing(s, n.resource.host, {id}, m, n.resource.host, id, "");
  }

  /** A read that failed takes a record for not there, so another owner's repository can be detached. */
  lemma UnreadRecordIsDetached() returns (s: State, n: Found, id: nat, m: string)
    ensures Exclusive(s) && Known(s, n) && m != n.id && Records(s, m, n.resource.host, id)
    ensures !Claims(AfterDetachSeen(s, n, id, false, true), m, n.resource.host, id)
  {
    var ours, theirs := Resource("h", ["a"]), Resource("h", ["b"]);
    n, id, m := Found("n", ours), 1, "m";
    s := State(map["n" := Namespace(ours, Bound, {}), "m" := Namespace(theirs, Bound, {})],
               map[("h", 1) := RepoRecord("m", Resource("h", ["b", "r"]), 1, "")], map[], []);
    assert theirs.path <= ["b", "r"];
  }

  function AfterDetachFrom(s: State, n: Found, id: nat): State {
    if ClaimedElsewhere(s, n.id, n.resource.host, id) then s else Detached(s, n.resource.host, {id})
  }

  function AfterDeletion(s: State, n: Found, repo: Resource, id: nat): State {
    if Reserved(repo) || ClaimedElsewhere(s, n.id, n.resource.host, id) then s
    else Tell(AfterDetachFrom(s, n, id), n.id, Deleted(id, repo))
  }

  function AfterRename(s: State, n: Found, id: nat, from: Resource, to: Resource): State {
    if !n.resource.Contains(from) || ClaimedElsewhere(s, n.id, n.resource.host, id) then s
    else Tell(Relocated(Detached(s, to.host, Stale(s, n.id, to, id)), n.id, id, to), n.id, Renamed(id, from, to))
  }

  /** Namespace `n`'s record of forge id `id`, if it has one, is of `to` now. */
  function Relocated(s: State, n: string, id: nat, to: Resource): State {
    if Records(s, n, to.host, id) then s.(repos := s.repos[(to.host, id) := s.repos[(to.host, id)].(resource := to)]) else s
  }

  /** A repository left `n`. */
  function AfterLeaving(s: State, n: Found, from: Resource, to: Resource, id: nat): State {
    if ClaimedElsewhere(s, n.id, n.resource.host, id) then s
    else if Reserved(from) then Detached(s, n.resource.host, {id})
    else Tell(Detached(s, n.resource.host, {id}), n.id, Transferred(id, from, to))
  }

  /** Whether that was told, so that the side it went to is told next. */
  predicate Leaves(s: State, n: Found, from: Resource, id: nat) {
    !ClaimedElsewhere(s, n.id, n.resource.host, id) && !Reserved(from)
  }

  // ---- What that comes to, said of the tables ----

  ghost predicate IsNamespaceRepo(r: Resource) {
    |r.path| > 1 && r.path[|r.path| - 1] == ".vgi"
  }

  /** Another namespace than `n` has a record of forge id `id` on `host`, or manages it. */
  ghost predicate HeldByAnother(s: State, n: string, host: string, id: nat) {
    || ((host, id) in s.repos && s.repos[(host, id)].namespace != n)
    || exists m :: m in s.namespaces && m != n && s.namespaces[m].resource.host == host && id in s.namespaces[m].managed
  }

  /** No record, managed set or branch ledger of `host` in `t` mentions `ids`, and all else in them is as in `s`. */
  ghost predicate Forgets(s: State, t: State, host: string, ids: set<nat>) {
    && (forall k :: k in t.repos <==> k in s.repos && !(k.0 == host && k.1 in ids))
    && (forall k :: k in t.repos ==> t.repos[k] == s.repos[k])
    && (forall n :: n in t.namespaces <==> n in s.namespaces)
    && (forall n :: n in s.namespaces ==>
          var managed := s.namespaces[n].managed;
          t.namespaces[n]
          == s.namespaces[n].(managed := if s.namespaces[n].resource.host == host then managed - ids else managed))
    && (forall k :: k in t.ledgers <==> k in s.ledgers && !(k.0 == host && k.1 in ids))
    && (forall k :: k in t.ledgers ==> t.ledgers[k] == s.ledgers[k])
  }

  /** The forge ids under which `n` has a record of a repository at `r`, other than `id`. */
  ghost function OthersAt(s: State, n: string, r: Resource, id: nat): set<nat> {
    set k | k in s.repos && s.repos[k].namespace == n && s.repos[k].resource == r && k.1 != id :: k.1
  }

  /** A deletion heard of in `n`: the repository is forgotten and that is reported, unless it is the bridge's own or
      another namespace's. */
  ghost predicate DeletionDone(s: State, t: State, n: Found, repo: Resource, id: nat) {
    if IsNamespaceRepo(repo) || HeldByAnother(s, n.id, n.resource.host, id) then t == s
    else Forgets(s, t, n.resource.host, {id}) && t.reports == s.reports + [(n.id, Deleted(id, repo))]
  }

  /** A rename inside `n` of what no other namespace has: every other repository `n` recorded at the new name is
      forgotten, the record is of the new name, and that is reported. */
  ghost predicate RenameDone(s: State, t: State, n: Found, id: nat, from: Resource, to: Resource) {
    if !(from.host == n.resource.host && n.resource.path <= from.path)
       || HeldByAnother(s, n.id, n.resource.host, id) then
      t == s
    else
      var key := (to.host, id);
      && t.reports == s.reports + [(n.id, Renamed(id, from, to))]
      && if key in s.repos && s.repos[key].namespace == n.id then
           && key in t.repos && t.repos[key] == s.repos[key].(resource := to)
           && Forgets(s, t.(repos := t.repos[key := s.repos[key]]), to.host, OthersAt(s, n.id, to, id))
         else Forgets(s, t, to.host, OthersAt(s, n.id, to, id))
  }

  /** A repository that left `n` is forgotten, unless another namespace has it; and that is reported, unless it was the
      bridge's own. */
  ghost predicate LeavingDone(s: State, t: State, n: Found, from: Resource, to: Resource, id: nat) {
    if HeldByAnother(s, n.id, n.resource.host, id) then t == s
    else
      && Forgets(s, t, n.resource.host, {id})
      && t.reports == s.reports + if IsNamespaceRepo(from) then [] else [(n.id, Transferred(id, from, to))]
  }

  /** A repository `n` has no record of is reported to it as unmanaged, unless it is the bridge's own; and what `n`
      recorded at its name is forgotten. */
  ghost predicate UnmanagedDone(s: State, t: State, n: Found, r: Resource, id: nat) {
    var key := (n.resource.host, id);
    if IsNamespaceRepo(r) || (key in s.repos && s.repos[key].namespace == n.id) then t == s
    else Forgets(s, t, r.host, OthersAt(s, n.id, r, id)) && t.reports == s.reports + [(n.id, Unmanaged(id, r))]
  }

  lemma DetachedForgets(s: State, host: string, ids: set<nat>)
    ensures Forgets(s, Detached(s, host, ids), host, ids) && Detached(s, host, ids).reports == s.reports
  {
  }

  lemma HeldMeans(s: State, n: string, host: string, id: nat)
    ensures ClaimedElsewhere(s, n, host, id) <==> HeldByAnother(s, n, host, id)
  {
    if HeldByAnother(s, n, host, id) && !((host, id) in s.repos && s.repos[(host, id)].namespace != n) {
      var m :| m in s.namespaces && m != n && s.namespaces[m].resource.host == host && id in s.namespaces[m].managed;
      assert Manages(s, m, host, id);
    }
  }

  lemma StaleMeans(s: State, n: string, r: Resource, id: nat)
    requires Exclusive(s)
    ensures Stale(s, n, r, id) == OthersAt(s, n, r, id)
  {
    assert forall k :: k in s.repos ==> InOrder(s, k);
    forall i | i in Stale(s, n, r, id) ensures i in OthersAt(s, n, r, id) {
      var k :| k in s.repos && s.repos[k].namespace == n && s.repos[k].resource == r && s.repos[k].forgeId != id
               && s.repos[k].forgeId == i;
      assert k.1 == i;
    }
    forall i | i in OthersAt(s, n, r, id) ensures i in Stale(s, n, r, id) {
      var k :| k in s.repos && s.repos[k].namespace == n && s.repos[k].resource == r && k.1 != id && k.1 == i;
      assert s.repos[k].forgeId == i;
    }
  }

  /** What each event does to the tables is that. */
  lemma DeletionMeans(s: State, n: Found, repo: Resource, id: nat)
    ensures DeletionDone(s, AfterDeletion(s, n, repo, id), n, repo, id)
  {
    HeldMeans(s, n.id, n.resource.host, id);
    DetachedForgets(s, n.resource.host, {id});
    hide Detached, ClaimedElsewhere, HeldByAnother;
  }

  lemma RelocatedMeans(d: State, n: string, id: nat, to: Resource, notice: Notice)
    ensures var t, key := Tell(Relocated(d, n, id, to), n, notice), (to.host, id);
      && t.reports == d.reports + [(n, notice)]
      && if key in d.repos && d.repos[key].namespace == n then
           key in t.repos && t.repos[key] == d.repos[key].(resource := to)
           && t.(repos := t.repos[key := d.repos[key]], reports := d.reports) == d
         else t.(reports := d.reports) == d
  {
    var r, key := Relocated(d, n, id, to), (to.host, id);
    if Records(d, n, to.host, id) {
      assert r.repos[key := d.repos[key]] == d.repos;
    }
  }

  lemma ForgetsHeard(s: State, t: State, host: string, ids: set<nat>, reports: seq<(string, Notice)>)
    requires Forgets(s, t.(reports := reports), host, ids)
    ensures Forgets(s, t, host, ids)
  {
  }

  lemma RenameMeans(s: State, n: Found, id: nat, from: Resource, to: Resource)
    requires Exclusive(s)
    ensures RenameDone(s, AfterRename(s, n, id, from, to), n, id, from, to)
  {
    HeldMeans(s, n.id, n.resource.host, id);
    StaleMeans(s, n.id, to, id);
    var others, key, notice := OthersAt(s, n.id, to, id), (to.host, id), Renamed(id, from, to);
    DetachedForgets(s, to.host, others);
    assert id !in others;
    hide ClaimedElsewhere, HeldByAnother, Stale, OthersAt, Exclusive;
    var d := Detached(s, to.host, others);
    assert LookUpRepo(d, key) == LookUpRepo(s, key);
    hide Detached;
    RelocationForgets(s, d, n.id, id, to, notice, others);
    hide Tell, Relocated, Forgets;
  }

  /** The repositories at a new name forgotten, and then the record moved there. */
  lemma RelocationForgets(s: State, d: State, n: string, id: nat, to: Resource, notice: Notice, others: set<nat>)
    requires Forgets(s, d, to.host, others) && d.reports == s.reports
    requires LookUpRepo(d, (to.host, id)) == LookUpRepo(s, (to.host, id))
    ensures var t, key := Tell(Relocated(d, n, id, to), n, notice), (to.host, id);
      && t.reports == s.reports + [(n, notice)]
      && if key in s.repos && s.repos[key].namespace == n then
           && key in t.repos && t.repos[key] == s.repos[key].(resource := to)
           && Forgets(s, t.(repos := t.repos[key := s.repos[key]]), to.host, others)
         else Forgets(s, t, to.host, others)
  {
    var t, key := Tell(Relocated(d, n, id, to), n, notice), (to.host, id);
    RelocatedMeans(d, n, id, to, notice);
    hide Tell, Relocated, Forgets;
    if key in s.repos && s.repos[key].namespace == n {
      ForgetsHeard(s, t.(repos := t.repos[key := s.repos[key]]), to.host, others, d.reports);
    } else {
      ForgetsHeard(s, t, to.host, others, d.reports);
    }
  }

  ghost function LookUpRepo(s: State, key: (string, nat)): Option<RepoRecord> {
    if key in s.repos then Some(s.repos[key]) else None
  }

  lemma LeavingMeans(s: State, n: Found, from: Resource, to: Resource, id: nat)
    ensures LeavingDone(s, AfterLeaving(s, n, from, to, id), n, from, to, id)
  {
    HeldMeans(s, n.id, n.resource.host, id);
    DetachedForgets(s, n.resource.host, {id});
    var d := Detached(s, n.resource.host, {id});
    hide Detached, ClaimedElsewhere, HeldByAnother;
    ForgetsHeard(s, Tell(d, n.id, Transferred(id, from, to)), n.resource.host, {id}, d.reports) by {
      assert Tell(d, n.id, Transferred(id, from, to)).(reports := d.reports) == d;
    }
    hide Forgets;
  }

  lemma UnmanagedMeans(s: State, n: Found, r: Resource, id: nat)
    requires Exclusive(s)
    ensures UnmanagedDone(s, AfterUnmanaged(s, n, r, id), n, r, id)
  {
    StaleMeans(s, n.id, r, id);
    DetachedForgets(s, r.host, OthersAt(s, n.id, r, id));
    var d := Detached(s, r.host, OthersAt(s, n.id, r, id));
    hide Detached, Stale, OthersAt, Exclusive;
    ForgetsHeard(s, Tell(d, n.id, Unmanaged(id, r)), r.host, OthersAt(s, n.id, r, id), d.reports) by {
      assert Tell(d, n.id, Unmanaged(id, r)).(reports := d.reports) == d;
    }
    hide Forgets;
  }

  lemma TellKeeps(s: State, n: string, notice: Notice, scope: Scope, except: Option<(string, nat)>)
    requires Exclusive(s)
    requires n in s.namespaces && !scope.Covers(s.namespaces[n].resource) ==> Excepted(except, n) != {}
    ensures Exclusive(Tell(s, n, notice)) && Confined(s, Tell(s, n, notice), scope, except)
  {
    var t := Tell(s, n, notice);
    assert forall m, host, id :: Claims(t, m, host, id) == Claims(s, m, host, id);
    assert forall k :: k in s.repos ==> InOrder(s, k) ==> InOrder(t, k);
  }

  lemma UnmanagedKeeps(s: State, n: Found, resource: Resource, id: nat, scope: Scope)
    requires Exclusive(s) && Known(s, n) && scope.Covers(n.resource)
    ensures Exclusive(AfterUnmanaged(s, n, resource, id))
    ensures Confined(s, AfterUnmanaged(s, n, resource, id), scope, None)
  {
    var ids := Stale(s, n.id, resource, id);
    forall m, i | i in ids && Claims(s, m, resource.host, i) ensures m == n.id {
      StaleIsOwn(s, n.id, resource, id, i);
      assert Claims(s, n.id, resource.host, i);
    }
    hide Stale;
    var d := Detached(s, resource.host, ids);
    DetachKeepsExclusive(s, resource.host, ids);
    DetachIsConfined(s, resource.host, ids, scope, None);
    TellKeeps(d, n.id, Unmanaged(id, resource), scope, None);
    hide Exclusive, Confined;
    ConfinedThrough(s, d, Tell(d, n.id, Unmanaged(id, resource)), scope, None);
    ConfinedNowhere(s, scope, None);
  }

  /** What nobody but `n` claims can be detached from it. */
  lemma DetachFromKeeps(s: State, n: Found, id: nat, scope: Scope, except: Option<(string, nat)>)
    requires Exclusive(s) && Known(s, n) && !ClaimedElsewhere(s, n.id, n.resource.host, id)
    requires scope.Covers(n.resource) || except == Some((n.id, id))
    ensures var d := Detached(s, n.resource.host, {id});
      Exclusive(d) && Confined(s, d, scope, except) && forall m :: !Claims(d, m, n.resource.host, id)
  {
    ClaimedElsewhereMeans(s, n.id, n.resource.host, id);
    DetachKeepsExclusive(s, n.resource.host, {id});
    DetachIsConfined(s, n.resource.host, {id}, scope, except);
    forall m ensures !Claims(Detached(s, n.resource.host, {id}), m, n.resource.host, id) {
      DetachLeavesNothing(s, n.resource.host, {id}, m, n.resource.host, id, "");
    }
  }

  lemma DeletionKeeps(s: State, n: Found, repo: Resource, id: nat, scope: Scope)
    requires Exclusive(s) && Known(s, n) && scope.Covers(n.resource)
    ensures Exclusive(AfterDeletion(s, n, repo, id)) && Confined(s, AfterDeletion(s, n, repo, id), scope, None)
  {
    ConfinedNowhere(s, scope, None);
    if !Reserved(repo) && !ClaimedElsewhere(s, n.id, n.resource.host, id) {
      DetachFromKeeps(s, n, id, scope, None);
      var d := Detached(s, n.resource.host, {id});
      TellKeeps(d, n.id, Deleted(id, repo), scope, None);
      hide Exclusive, Confined;
      ConfinedThrough(s, d, Tell(d, n.id, Deleted(id, repo)), scope, None);
    }
  }

  lemma RelocateKeeps(s: State, n: Found, id: nat, to: Resource, scope: Scope)
    requires Exclusive(s) && Known(s, n) && scope.Covers(n.resource) && n.resource.Contains(to)
    ensures Exclusive(Relocated(s, n.id, id, to)) && Confined(s, Relocated(s, n.id, id, to), scope, None)
  {
    var t := Relocated(s, n.id, id, to);
    assert forall m, host, i :: Records(t, m, host, i) == Records(s, m, host, i);
    assert forall m, host, i :: Claims(t, m, host, i) == Claims(s, m, host, i);
    forall k | k in t.repos ensures InOrder(t, k) {
      assert InOrder(s, k);
    }
  }

  lemma RenameKeeps(s: State, n: Found, id: nat, from: Resource, to: Resource, scope: Scope)
    requires Exclusive(s) && Known(s, n) && scope.Covers(n.resource) && n.resource.Contains(to)
    ensures Exclusive(AfterRename(s, n, id, from, to)) && Confined(s, AfterRename(s, n, id, from, to), scope, None)
  {
    ConfinedNowhere(s, scope, None);
    var ids := Stale(s, n.id, to, id);
    forall m, i | i in ids && Claims(s, m, to.host, i) ensures m == n.id {
      StaleIsOwn(s, n.id, to, id, i);
      assert Claims(s, n.id, to.host, i);
    }
    hide Stale;
    var d := Detached(s, to.host, ids);
    DetachKeepsExclusive(s, to.host, ids);
    DetachIsConfined(s, to.host, ids, scope, None);
    assert Known(d, n);
    var r := Relocated(d, n.id, id, to);
    RelocateKeeps(d, n, id, to, scope);
    assert Known(r, n);
    TellKeeps(r, n.id, Renamed(id, from, to), scope, None);
    hide Exclusive, Confined;
    ConfinedThrough(s, d, r, scope, None);
    ConfinedThrough(s, r, Tell(r, n.id, Renamed(id, from, to)), scope, None);
  }

  /** Leaving a covered namespace is confined; leaving another changes that namespace's one id. */
  lemma LeavingKeeps(s: State, n: Found, from: Resource, to: Resource, id: nat, scope: Scope,
                     except: Option<(string, nat)>)
    requires Exclusive(s) && Known(s, n) && (scope.Covers(n.resource) || except == Some((n.id, id)))
    ensures var t := AfterLeaving(s, n, from, to, id); Exclusive(t) && Confined(s, t, scope, except)
  {
    ConfinedNowhere(s, scope, except);
    if !ClaimedElsewhere(s, n.id, n.resource.host, id) {
      DetachFromKeeps(s, n, id, scope, except);
      var d := Detached(s, n.resource.host, {id});
      TellKeeps(d, n.id, Transferred(id, from, to), scope, except);
      hide Exclusive, Confined;
      ConfinedThrough(s, d, Tell(d, n.id, Transferred(id, from, to)), scope, except);
    }
  }
}
