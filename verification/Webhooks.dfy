/** The handling of a forge's events, in place on the store's tables (crates/vgi-bridge/src/events.rs). What an
    event still has to do after waiting (for a new repository's record, or for the forge's answer) is a `Rest`,
    so other events are handled in between. */
module Webhooks {
  import opened Wrappers
  import opened Ownership

  datatype ForgeEvent =
    | RepoCreated(repo: Resource, forgeId: nat)
    | RepoDeleted(repo: Resource, forgeId: nat)
    | RepoRenamed(forgeId: nat, from: Resource, to: Resource)
    | RepoTransferred(forgeId: nat, fromNamespace: Option<Resource>, to: Resource)

  /** What is left to do for an event: once a new repository's record may have come, or a report is out, or the
      forge has answered. `Receiving`: `ns` was told that the repository left it for `repo`. */
  datatype Rest =
    | Done
    | Settling(ns: Found, repo: Resource, forgeId: nat)
    | Arriving(ns: Found, repo: Resource, forgeId: nat)
    | Confirming(ns: Found, repo: Resource, forgeId: nat, old_: Found, was: Resource)
    | Receiving(ns: Found, repo: Resource, forgeId: nat, after: Option<(Found, Resource)>)

  /** `namespace/name`, if that is a repository's name. */
  function Join(namespace: Resource, name: string): Option<Resource> {
    if namespace.IsNamespace() && name != "" && !(".git" == if |name| >= 4 then name[|name| - 4..] else "")
    then Some(Resource(namespace.host, namespace.path + [name])) else None
  }

  /** The scope of one owner's namespaces. */
  function OwnScope(n: Found): Scope {
    Scope(n.resource.host, Some(n.resource.Owner()))
  }

  /** Whether every resource the event names lies in scope; of a transfer, one side. */
  predicate Admits(scope: Scope, e: ForgeEvent) {
    match e
    case RepoCreated(repo, _) => scope.Covers(repo)
    case RepoDeleted(repo, _) => scope.Covers(repo)
    case RepoRenamed(_, from, to) => scope.Covers(from) && scope.Covers(to)
    case RepoTransferred(_, fromNamespace, to) =>
      scope.Covers(to) || (fromNamespace.Some? && scope.Covers(fromNamespace.value))
  }

  /** Where a transferred repository came from: the record's word, if the record is in scope, before the
      event's. */
  function Origin(s: State, scope: Scope, id: nat, fromNamespace: Option<Resource>,
                  to: Resource): (from: Option<Resource>)
  {
    var key := (to.host, id);
    if key in s.repos && scope.Covers(s.repos[key].resource) && s.repos[key].namespace in s.namespaces
       && scope.Covers(s.namespaces[s.repos[key].namespace].resource)
    then Some(s.repos[key].resource)
    else if fromNamespace.Some? && scope.Covers(fromNamespace.value) then Join(fromNamespace.value, to.RepoName())
    else None
  }

  /** Namespace `n` is bound, in scope, and contains `r`. */
  predicate Serves(s: State, n: string, scope: Scope, r: Resource) {
    n in s.namespaces && s.namespaces[n].state.Bound? && s.namespaces[n].resource.Contains(r)
    && scope.Covers(s.namespaces[n].resource)
  }

  // ---- What an event comes to, said of the tables ----

  /** `r` is of the host, and the owner, that `scope` names. */
  ghost predicate Within(scope: Scope, r: Resource) {
    r.host == scope.host && (scope.owner.None? || scope.owner.value == if r.path == [] then "" else r.path[0])
  }

  /** `r` is `namespace`, or in it. */
  ghost predicate IsIn(r: Resource, namespace: Resource) {
    r.host == namespace.host && namespace.path <= r.path
  }

  /** Namespace `n` is bound and has `r` in it, both being within `scope`. */
  ghost predicate Governs(s: State, n: string, scope: Scope, r: Resource) {
    && n in s.namespaces && s.namespaces[n].state == Bound
    && IsIn(r, s.namespaces[n].resource) && Within(scope, r) && Within(scope, s.namespaces[n].resource)
  }

  /** `found` is a namespace that governs `r`, or there is none. */
  ghost predicate IsGoverning(s: State, scope: Scope, r: Resource, found: Option<Found>) {
    if found.Some? then
      Governs(s, found.value.id, scope, r) && found.value.resource == s.namespaces[found.value.id].resource
    else forall n :: !Governs(s, n, scope, r)
  }

  /** Where a transferred repository came from. The record of it, if that and its namespace are within `scope`, says
      so; or else the event, if the namespace it names is: the repository was of its name there. */
  ghost predicate CameFrom(s: State, scope: Scope, id: nat, fromNamespace: Option<Resource>, to: Resource,
                           from: Option<Resource>) {
    if (to.host, id) in s.repos && Within(scope, s.repos[(to.host, id)].resource)
       && s.repos[(to.host, id)].namespace in s.namespaces
       && Within(scope, s.namespaces[s.repos[(to.host, id)].namespace].resource)
    then from == Some(s.repos[(to.host, id)].resource)
    else if fromNamespace.Some? && Within(scope, fromNamespace.value) && |to.path| > 1 && |fromNamespace.value.path| == 1
            && IsName(to.path[|to.path| - 1])
    then from == Some(Resource(fromNamespace.value.host, [fromNamespace.value.path[0], to.path[|to.path| - 1]]))
    else from.None?
  }

  /** A repository's name is not empty, and does not end in `.git`. */
  ghost predicate IsName(name: string) {
    name != "" && (|name| < 4 || name[|name| - 4..] != ".git")
  }

  /** What an event does up to where it waits, `about` being the namespace it is about. One that names what is outside
      `scope` does nothing. */
  ghost predicate EventDone(s: State, t: State, scope: Scope, e: ForgeEvent, about: Option<Found>) {
    match e
    case RepoCreated(repo, _) => t == s && IsGoverning(s, scope, repo, about)
    case RepoDeleted(repo, id) =>
      IsGoverning(s, scope, repo, about)
      && if about.Some? then DeletionDone(s, t, about.value, repo, id) else t == s
    case RepoRenamed(id, from, to) =>
      if Within(scope, from) then
        IsGoverning(s, scope, to, about)
        && if about.Some? then RenameDone(s, t, about.value, id, from, to) else t == s
      else t == s && about.None?
    case RepoTransferred(id, fromNamespace, to) =>
      if Within(scope, to) || (fromNamespace.Some? && Within(scope, fromNamespace.value)) then
        forall from :: CameFrom(s, scope, id, fromNamespace, to, from) ==> TransferDone(s, t, scope, id, from, to, about)
      else t == s && about.None?
  }

  ghost predicate TransferDone(s: State, t: State, scope: Scope, id: nat, from: Option<Resource>, to: Resource,
                               about: Option<Found>) {
    && (from.Some? ==> IsGoverning(s, scope, from.value, about))
    && if from.Some? && about.Some? then LeavingDone(s, t, about.value, from.value, to, id) else t == s && about.None?
  }

  /** What an event still has to do. */
  ghost predicate Waiting(s: State, scope: Scope, e: ForgeEvent, about: Option<Found>, rest: Rest) {
    match e
    case RepoCreated(repo, id) =>
      rest == if about.Some? && !IsNamespaceRepo(repo) && !HasRecord(s, about.value, id)
              then Settling(about.value, repo, id) else Done
    case RepoDeleted(_, _) => rest.Done?
    case RepoRenamed(_, _, _) => rest.Done?
    case RepoTransferred(id, fromNamespace, to) =>
      if !Within(scope, to) && !(fromNamespace.Some? && Within(scope, fromNamespace.value)) then rest.Done?
      else if about.Some? then
        (rest.Done? || rest == Receiving(about.value, to, id, None))
        && forall from :: CameFrom(s, scope, id, fromNamespace, to, Some(from)) ==>
          rest == if HeldByAnother(s, about.value.id, about.value.resource.host, id) || IsNamespaceRepo(from) then Done
                  else Receiving(about.value, to, id, None)
      else ArrivalWaits(s, scope, to, id, rest)
  }

  ghost predicate HasRecord(s: State, n: Found, id: nat) {
    (n.resource.host, id) in s.repos && s.repos[(n.resource.host, id)].namespace == n.id
  }

  /** A repository came in: the namespace that governs it now, if there is one, hears of it, but first the forge is
      asked if another namespace that is there has a record of it. */
  ghost predicate ArrivalWaits(s: State, scope: Scope, to: Resource, id: nat, rest: Rest) {
    if rest.Done? then IsGoverning(s, scope, to, None)
    else
      && (rest.Arriving? || rest.Confirming?) && rest.repo == to && rest.forgeId == id
      && IsGoverning(s, scope, to, Some(rest.ns))
      && var key := (rest.ns.resource.host, id);
         if key in s.repos && s.repos[key].namespace != rest.ns.id && s.repos[key].namespace in s.namespaces then
           rest.Confirming? && rest.old_ == Found(s.repos[key].namespace, s.namespaces[s.repos[key].namespace].resource)
           && rest.was == s.repos[key].resource
         else rest.Arriving?
  }

  /** What is done once the wait is over, given the forge's `answer` if that was asked for. Only a repository the forge
      finds in the new namespace, and not in the old, leaves that. */
  ghost predicate RestDone(s: State, t: State, rest: Rest, answer: Result<Option<Resource>, ()>, next: Rest) {
    match rest
    case Done => t == s && next.Done?
    case Settling(ns, repo, id) => UnmanagedDone(s, t, ns, repo, id) && next.Done?
    case Arriving(ns, repo, id) => UnmanagedDone(s, t, ns, repo, id) && next.Done?
    case Confirming(ns, repo, id, old_, was) =>
      if answer.Ok? && answer.value.Some? && IsIn(answer.value.value, ns.resource)
         && !IsIn(answer.value.value, old_.resource) then
        && LeavingDone(s, t, old_, was, answer.value.value, id)
        && next == if IsNamespaceRepo(was) || HeldByAnother(s, old_.id, old_.resource.host, id)
                   then Arriving(ns, repo, id)
                   else Receiving(old_, answer.value.value, id, Some((ns, repo)))
      else t == s && next == Arriving(ns, repo, id)
    case Receiving(ns, repo, id, after) =>
      && (exists into :: ReceivingDone(s, t, ns, repo, id, into))
      && next == if after.Some? then Arriving(after.value.0, after.value.1, id) else Done
  }

  /** The repository that left `ns` is reported unmanaged to the other namespace of the same owner that governs it now,
      if there is one. */
  ghost predicate ReceivingDone(s: State, t: State, ns: Found, repo: Resource, id: nat, into: Option<Found>) {
    && ns.resource.path != []
    && IsGoverning(s, Scope(ns.resource.host, Some(ns.resource.path[0])), repo, into)
    && if into.Some? && into.value.id != ns.id then UnmanagedDone(s, t, into.value, repo, id) else t == s
  }

  lemma OriginMeans(s: State, scope: Scope, id: nat, fromNamespace: Option<Resource>, to: Resource,
                    from: Option<Resource>)
    ensures CameFrom(s, scope, id, fromNamespace, to, from) <==> from == Origin(s, scope, id, fromNamespace, to)
  {
    if fromNamespace.Some? && |fromNamespace.value.path| == 1 && |to.path| > 1 {
      assert fromNamespace.value.path + [to.RepoName()] == [fromNamespace.value.path[0], to.path[|to.path| - 1]];
    }
  }

  predicate RestKnown(s: State, scope: Scope, rest: Rest) {
    match rest
    case Done => true
    case Settling(ns, repo, _) => InScope(s, scope, ns, repo)
    case Arriving(ns, repo, _) => InScope(s, scope, ns, repo)
    case Confirming(ns, repo, _, old_, _) => InScope(s, scope, ns, repo) && Known(s, old_)
    case Receiving(ns, repo, _, after) =>
      && Known(s, ns) && (scope.Covers(ns.resource) || !OwnScope(ns).Covers(repo))
      && (after.Some? ==> InScope(s, scope, after.value.0, after.value.1))
  }

  predicate InScope(s: State, scope: Scope, n: Found, r: Resource) {
    Known(s, n) && scope.Covers(n.resource) && n.resource.Contains(r)
  }

  class Governance {
    var namespaces: map<string, Namespace>
    var repos: map<(string, nat), RepoRecord>
    var ledgers: map<(string, nat, string), string>
    var reports: seq<(string, Notice)>

    function Now(): State
      reads this
    {
      State(namespaces, repos, ledgers, reports)
    }

    constructor (namespaces: map<string, Namespace>, repos: map<(string, nat), RepoRecord>,
                 ledgers: map<(string, nat, string), string>)
      ensures Now() == State(namespaces, repos, ledgers, [])
    {
      this.namespaces, this.repos, this.ledgers, reports := namespaces, repos, ledgers, [];
    }

    /** A bound namespace containing `r`, if `r` and it lie in `scope`. */
    method NamespaceIn(scope: Scope, r: Resource) returns (found: Option<Found>)
      ensures IsGoverning(Now(), scope, r, found)
    {
      found := None;
      if !scope.Covers(r) {
        return;
      }
      var todo := namespaces.Keys;
      while todo != {}
        invariant todo <= namespaces.Keys
        invariant forall n :: Governs(Now(), n, scope, r) ==> n in todo
      {
        var n :| n in todo;
        todo := todo - {n};
        if Serves(Now(), n, scope, r) {
          return Some(Found(n, namespaces[n].resource));
        }
      }
    }

    /** Forge id `id` leaves the managed set of every namespace on `host`. */
    method LeaveManagedSets(host: string, id: nat)
      modifies this`namespaces
      ensures namespaces == Detached(old(Now()), host, {id}).namespaces
    {
      var todo := namespaces.Keys;
      while todo != {}
        invariant todo <= namespaces.Keys == old(namespaces).Keys
        invariant forall n :: n in namespaces ==>
          namespaces[n] == if n in todo then old(namespaces)[n] else Without(old(namespaces)[n], host, {id})
      {
        var n :| n in todo;
        todo := todo - {n};
        var ns := namespaces[n];
        if ns.resource.host == host && id in ns.managed {
          namespaces := namespaces[n := ns.(managed := ns.managed - {id})];
        }
      }
    }

    /** The ledgers of forge id `id`'s branches are deleted. */
    method DropLedgers(host: string, id: nat)
      modifies this`ledgers
      ensures ledgers == Detached(old(Now()), host, {id}).ledgers
    {
      var todo := ledgers.Keys;
      while todo != {}
        invariant todo <= ledgers.Keys
        invariant forall k :: k in ledgers ==> k in old(ledgers) && ledgers[k] == old(ledgers)[k]
        invariant forall k :: k in old(ledgers) ==> (k in ledgers <==> k in todo || !(k.0 == host && k.1 == id))
      {
        var k :| k in todo;
        todo := todo - {k};
        if k.0 == host && k.1 == id {
          ledgers := ledgers - {k};
        }
      }
    }

    /** Stop governing forge id `id` on `host`. */
    method Detach(host: string, id: nat)
      modifies this`namespaces, this`repos, this`ledgers
      ensures Now() == Detached(old(Now()), host, {id})
    {
      repos := repos - {(host, id)};
      LeaveManagedSets(host, id);
      DropLedgers(host, id);
    }

    /** Whether another namespace claims `id`, as far as the store reads the record and lists the namespaces. */
    method IsClaimedElsewhere(n: Found, id: nat, recordOk: bool, listOk: bool) returns (claimed: bool)
      ensures claimed == SeenElsewhere(Now(), n.id, n.resource.host, id, recordOk, listOk)
    {
      var host := n.resource.host;
      if recordOk && (host, id) in repos && repos[(host, id)].namespace != n.id {
        return true;
      }
      var todo := if listOk then namespaces.Keys else {};
      while todo != {}
        invariant todo <= namespaces.Keys && (todo != {} ==> listOk)
        invariant forall m :: listOk && m in namespaces && m != n.id && Manages(Now(), m, host, id) ==> m in todo
      {
        var m :| m in todo;
        todo := todo - {m};
        if m != n.id && namespaces[m].resource.host == host && id in namespaces[m].managed {
          assert Manages(Now(), m, host, id);
          return true;
        }
      }
      claimed := false;
    }

    /** Detach `id` from `n`: not what another namespace is seen to claim. */
    method DetachFrom(n: Found, id: nat, recordOk: bool, listOk: bool) returns (detached: bool)
      modifies this`namespaces, this`repos, this`ledgers
      ensures detached == !SeenElsewhere(old(Now()), n.id, n.resource.host, id, recordOk, listOk)
      ensures Now() == AfterDetachSeen(old(Now()), n, id, recordOk, listOk)
      ensures recordOk && listOk ==>
        && detached == !ClaimedElsewhere(old(Now()), n.id, n.resource.host, id)
        && Now() == AfterDetachFrom(old(Now()), n, id)
    {
      var claimed := IsClaimedElsewhere(n, id, recordOk, listOk);
      if !claimed {
        Detach(n.resource.host, id);
      }
      detached := !claimed;
    }

    /** Detach every repository `n` records at `resource` under another forge id than `id`. */
    method DetachReusedName(n: string, resource: Resource, id: nat) returns (reused: bool)
      modifies this`namespaces, this`repos, this`ledgers
      ensures Now() == Detached(old(Now()), resource.host, Stale(old(Now()), n, resource, id))
      ensures reused <==> Stale(old(Now()), n, resource, id) != {}
    {
      var stale := Stale(Now(), n, resource, id);
      var todo := stale;
      NothingDetached(Now(), resource.host);
      assert stale - todo == {};
      while todo != {}
        invariant todo <= stale && Now() == Detached(old(Now()), resource.host, stale - todo)
      {
        var i :| i in todo;
        DetachedOneMore(old(Now()), resource.host, stale - todo, i);
        Detach(resource.host, i);
        assert stale - (todo - {i}) == stale - todo + {i};
        todo := todo - {i};
      }
      assert stale - todo == stale;
      reused := stale != {};
    }

    method Report(n: string, notice: Notice)
      modifies this`reports
      ensures Now() == Tell(old(Now()), n, notice)
    {
      reports := reports + [(n, notice)];
    }

    method ReportUnmanaged(n: Found, resource: Resource, id: nat)
      modifies this
      ensures Now() == AfterUnmanaged(old(Now()), n, resource, id)
    {
      var key := (n.resource.host, id);
      if resource.RepoName() == NAMESPACE_REPO || (key in repos && repos[key].namespace == n.id) {
        return;
      }
      var _ := DetachReusedName(n.id, resource, id);
      Report(n.id, Unmanaged(id, resource));
    }

    /** A repository left `n`: it is detached there, and `n` is told, before the side it went to is looked for. */
    method TransferredOut(n: Found, from: Resource, to: Resource, id: nat) returns (told: bool)
      modifies this
      ensures Now() == AfterLeaving(old(Now()), n, from, to, id)
      ensures told == Leaves(old(Now()), n, from, id)
    {
      var detached := DetachFrom(n, id, true, true);
      if !detached || from.RepoName() == NAMESPACE_REPO {
        return false;
      }
      Report(n.id, Transferred(id, from, to));
      told := true;
    }

    /** Handle one event, up to where it waits: whatever it names, nothing outside `scope` changes. `about` is the
        namespace it is about. */
    method Handle(scope: Scope, e: ForgeEvent) returns (rest: Rest, ghost about: Option<Found>)
      requires Exclusive(Now())
      modifies this
      ensures Exclusive(Now()) && Confined(old(Now()), Now(), scope, None)
      ensures RestKnown(Now(), scope, rest)
      ensures EventDone(old(Now()), Now(), scope, e, about)
      ensures Waiting(old(Now()), scope, e, about, rest)
    {
      hide Exclusive, Confined, HeldByAnother, DeletionDone, RenameDone;
      ghost var was := Now();
      rest, about := Done, None;
      ConfinedNowhere(was, scope, None);
      if !Admits(scope, e) {
        return;
      }
      match e
      case RepoCreated(repo, id) =>
        var found := NamespaceIn(scope, repo);
        about := found;
        if found.Some? && !Reserved(repo) && !Records(Now(), found.value.id, found.value.resource.host, id) {
          FoundIsKnown(Now(), found.value);
          rest := Settling(found.value, repo, id);
        }
      case RepoDeleted(repo, id) =>
        var found := NamespaceIn(scope, repo);
        about := found;
        if found.Some? && !Reserved(repo) {
          FoundIsKnown(Now(), found.value);
          DeletionKeeps(was, found.value, repo, id, scope);
          var detached := DetachFrom(found.value, id, true, true);
          if detached {
            Report(found.value.id, Deleted(id, repo));
          }
        }
        if found.Some? {
          DeletionMeans(was, found.value, repo, id);
        }
      case RepoRenamed(id, from, to) =>
        var found := NamespaceIn(scope, to);
        about := found;
        if found.Some? {
          FoundIsKnown(Now(), found.value);
          RenameKeeps(was, found.value, id, from, to, scope);
          RenameMeans(was, found.value, id, from, to);
          Rename(found.value, id, from, to);
        }
      case RepoTransferred(id, fromNamespace, to) =>
        rest, about := Transfer(scope, id, fromNamespace, to);
    }

    method Rename(n: Found, id: nat, from: Resource, to: Resource)
      modifies this
      ensures Now() == AfterRename(old(Now()), n, id, from, to)
    {
      if !n.resource.Contains(from) {
        return;
      }
      var claimed := IsClaimedElsewhere(n, id, true, true);
      if claimed {
        return;
      }
      var _ := DetachReusedName(n.id, to, id);
      var key := (to.host, id);
      if key in repos && repos[key].namespace == n.id {
        repos := repos[key := repos[key].(resource := to)];
      }
      Report(n.id, Renamed(id, from, to));
    }

    method Transfer(scope: Scope, id: nat, fromNamespace: Option<Resource>, to: Resource)
      returns (rest: Rest, ghost about: Option<Found>)
      requires Exclusive(Now())
      modifies this
      ensures Exclusive(Now()) && Confined(old(Now()), Now(), scope, None)
      ensures RestKnown(Now(), scope, rest)
      ensures forall from :: CameFrom(old(Now()), scope, id, fromNamespace, to, from) ==>
        && TransferDone(old(Now()), Now(), scope, id, from, to, about)
        && (about.Some? && from.Some? ==>
              rest == if IsNamespaceRepo(from.value)
                         || HeldByAnother(old(Now()), about.value.id, about.value.resource.host, id)
                      then Done else Receiving(about.value, to, id, None))
      ensures about.Some? ==> rest.Done? || rest == Receiving(about.value, to, id, None)
      ensures about.None? ==> ArrivalWaits(old(Now()), scope, to, id, rest)
    {
      hide Exclusive, Confined, HeldByAnother, CameFrom, LeavingDone;
      rest, about := Done, None;
      ConfinedNowhere(Now(), scope, None);
      forall from { OriginMeans(Now(), scope, id, fromNamespace, to, from); }
      var from := Origin(Now(), scope, id, fromNamespace, to);
      hide Origin;
      if from.Some? {
        var fromNs := NamespaceIn(scope, from.value);
        if fromNs.Some? {
          ghost var was := Now();
          about := fromNs;
          FoundIsKnown(was, fromNs.value);
          LeavingKeeps(was, fromNs.value, from.value, to, id, scope, None);
          LeavingMeans(was, fromNs.value, from.value, to, id);
          HeldMeans(was, fromNs.value.id, fromNs.value.resource.host, id);
          var told := TransferredOut(fromNs.value, from.value, to, id);
          StillKnown(was, Now(), scope, None, fromNs.value);
          if told {
            rest := Receiving(fromNs.value, to, id, None);
          }
          return;
        }
      }
      var toNs := NamespaceIn(scope, to);
      if toNs.Some? {
        FoundIsKnown(Now(), toNs.value);
        rest := Arrival(toNs.value, to, id);
      }
    }

    /** A repository came into `n`: another namespace's record of it calls for the forge's confirmation. */
    method Arrival(n: Found, to: Resource, id: nat) returns (rest: Rest)
      requires Exclusive(Now()) && Known(Now(), n) && n.resource.Contains(to)
      ensures rest.Arriving? || (rest.Confirming? && Known(Now(), rest.old_))
      ensures rest.ns == n && rest.repo == to && rest.forgeId == id
      ensures var key := (n.resource.host, id);
        if key in repos && repos[key].namespace != n.id && repos[key].namespace in namespaces then
          rest.Confirming? && rest.old_ == Found(repos[key].namespace, namespaces[repos[key].namespace].resource)
          && rest.was == repos[key].resource
        else rest.Arriving?
    {
      rest := Arriving(n, to, id);
      var key := (n.resource.host, id);
      if key in repos && repos[key].namespace != n.id && repos[key].namespace in namespaces {
        var old_ := Found(repos[key].namespace, namespaces[repos[key].namespace].resource);
        rest := Confirming(n, to, id, old_, repos[key].resource);
      }
    }

    /** The side a repository went to is told, if it is the same owner's and another namespace than it left. */
    method Receive(scope: Scope, rest: Rest) returns (next: Rest, ghost into: Option<Found>)
      requires Exclusive(Now()) && RestKnown(Now(), scope, rest) && rest.Receiving?
      modifies this
      ensures Exclusive(Now()) && Confined(old(Now()), Now(), scope, None) && RestKnown(Now(), scope, next)
      ensures ReceivingDone(old(Now()), Now(), rest.ns, rest.repo, rest.forgeId, into)
      ensures var after := if rest.after.Some? then Arriving(rest.after.value.0, rest.after.value.1, rest.forgeId) else Done;
        next == after
    {
      hide Exclusive, Confined, UnmanagedDone;
      ghost var was := Now();
      ConfinedNowhere(was, scope, None);
      var found := NamespaceIn(OwnScope(rest.ns), rest.repo);
      into := found;
      if found.Some? && found.value.id != rest.ns.id {
        FoundIsKnown(was, found.value);
        UnmanagedKeeps(was, found.value, rest.repo, rest.forgeId, scope);
        UnmanagedMeans(was, found.value, rest.repo, rest.forgeId);
        ReportUnmanaged(found.value, rest.repo, rest.forgeId);
      }
      next := Done;
      if rest.after.Some? {
        next := Arriving(rest.after.value.0, rest.after.value.1, rest.forgeId);
        StillKnown(was, Now(), scope, None, rest.after.value.0);
      }
    }

    /** The forge's answer about a repository that came in. Only its own word that the repository is in `rest.ns`
        now, and not where it was, lets another owner's namespace lose it. */
    method Confirm(scope: Scope, rest: Rest, answer: Result<Option<Resource>, ()>) returns (next: Rest, confirmed: bool)
      requires Exclusive(Now()) && RestKnown(Now(), scope, rest) && rest.Confirming?
      modifies this
      ensures confirmed <==> answer.Ok? && answer.value.Some? && IsIn(answer.value.value, rest.ns.resource)
                             && !IsIn(answer.value.value, rest.old_.resource)
      ensures Exclusive(Now()) && RestKnown(Now(), scope, next)
      ensures Confined(old(Now()), Now(), scope, if confirmed then Some((rest.old_.id, rest.forgeId)) else None)
      ensures if confirmed then LeavingDone(old(Now()), Now(), rest.old_, rest.was, answer.value.value, rest.forgeId)
              else Now() == old(Now())
      ensures next == if confirmed && !IsNamespaceRepo(rest.was)
                         && !HeldByAnother(old(Now()), rest.old_.id, rest.old_.resource.host, rest.forgeId)
                      then Receiving(rest.old_, answer.value.value, rest.forgeId, Some((rest.ns, rest.repo)))
                      else Arriving(rest.ns, rest.repo, rest.forgeId)
    {
      hide Exclusive, Confined, HeldByAnother, LeavingDone;
      next, confirmed := Arriving(rest.ns, rest.repo, rest.forgeId), false;
      ghost var was := Now();
      ConfinedNowhere(was, scope, None);
      if answer.Ok? && answer.value.Some? {
        var at := answer.value.value;
        if rest.ns.resource.Contains(at) && !rest.old_.resource.Contains(at) {
          confirmed := true;
          ghost var except := Some((rest.old_.id, rest.forgeId));
          LeavingKeeps(was, rest.old_, rest.was, at, rest.forgeId, scope, except);
          LeavingMeans(was, rest.old_, rest.was, at, rest.forgeId);
          HeldMeans(was, rest.old_.id, rest.old_.resource.host, rest.forgeId);
          var told := TransferredOut(rest.old_, rest.was, at, rest.forgeId);
          StillKnown(was, Now(), scope, except, rest.ns);
          StillKnown(was, Now(), scope, except, rest.old_);
          NotTheSameOwner(rest.old_, at);
          if told {
            next := Receiving(rest.old_, at, rest.forgeId, Some((rest.ns, rest.repo)));
          }
        }
      }
    }

    /** Go on with an event after its wait; `lost` is the one id another owner's namespace may lose by it. */
    method Resume(scope: Scope, rest: Rest, answer: Result<Option<Resource>, ()>)
      returns (next: Rest, ghost lost: Option<(string, nat)>)
      requires Exclusive(Now()) && RestKnown(Now(), scope, rest)
      modifies this
      ensures Exclusive(Now()) && RestKnown(Now(), scope, next)
      ensures Confined(old(Now()), Now(), scope, lost)
      ensures lost.Some? ==>
        && rest.Confirming? && lost == Some((rest.old_.id, rest.forgeId)) && answer.Ok? && answer.value.Some?
        && IsIn(answer.value.value, rest.ns.resource) && !IsIn(answer.value.value, rest.old_.resource)
      ensures !next.Confirming?
      ensures RestDone(old(Now()), Now(), rest, answer, next)
    {
      hide Exclusive, Confined, UnmanagedDone, LeavingDone, ReceivingDone, HeldByAnother;
      next, lost := Done, None;
      ConfinedNowhere(Now(), scope, None);
      match rest
      case Done =>
      case Confirming(_, _, _, _, _) =>
        var confirmed;
        next, confirmed := Confirm(scope, rest, answer);
        lost := if confirmed then Some((rest.old_.id, rest.forgeId)) else None;
      case Receiving(_, _, _, _) =>
        ghost var into;
        next, into := Receive(scope, rest);
      case Settling(ns, repo, id) =>
        UnmanagedKeeps(Now(), ns, repo, id, scope);
        UnmanagedMeans(Now(), ns, repo, id);
        ReportUnmanaged(ns, repo, id);
      case Arriving(ns, repo, id) =>
        UnmanagedKeeps(Now(), ns, repo, id, scope);
        UnmanagedMeans(Now(), ns, repo, id);
        ReportUnmanaged(ns, repo, id);
    }

    /** The bridge at work: deliveries, each in its scope, and the answers their events wait for, in any order. */
    method Serve(steps: seq<Step>) returns (ghost lost: set<(string, nat)>, ghost run: seq<Moment>)
      requires Exclusive(Now())
      modifies this
      ensures Exclusive(Now()) && ConfinedTo(old(Now()), Now(), Scopes(steps), lost)
      ensures forall x :: x in lost ==> ConfirmedAway(old(Now()), steps, x.0, x.1)
      ensures ServesAll(steps, old(Now()), run) && run[|steps|].tables == Now()
    {
      hide Exclusive, ConfinedTo, ConfirmedAway, AllKnown, StepDone, EventDone, Waiting, RestDone;
      ghost var start := Now();
      run := [Moment(start, map[])];
      lost := {};
      var waiting: map<nat, (Scope, Rest)> := map[];
      var k := 0;
      ServiceBegins(start, steps);
      while k < |steps|
        invariant 0 <= k <= |steps| && Exclusive(Now())
        invariant ConfinedTo(start, Now(), Scopes(steps[..k]), lost) && AllKnown(Now(), steps[..k], waiting)
        invariant forall x :: x in lost ==> ConfirmedAway(start, steps[..k], x.0, x.1)
        invariant ServesAll(steps[..k], start, run) && run[k] == Moment(Now(), waiting)
      {
        ghost var before := Now();
        AwayLater(start, steps, k, lost);
        match steps[k] {
          case Delivery(scope, e) =>
            var rest;
            ghost var about;
            rest, about := Handle(scope, e);
            Delivered(start, before, Now(), steps, k, waiting, lost, rest, about);
            DeliveryIsDone(run[k], Now(), scope, e, k, rest, about);
            waiting := waiting[k := (scope, rest)];
          case Answered(n, answer) =>
            if n in waiting {
              var (scope, rest) := waiting[n];
              WaitingIsKnown(before, steps[..k], waiting, n);
              var next;
              ghost var gone;
              next, gone := Resume(scope, rest, answer);
              Resumed(start, before, Now(), steps, k, waiting, lost, next, gone);
              AnswerIsDone(run[k], Now(), n, answer, k, next);
              waiting := waiting[n := (scope, next)];
              lost := lost + (if gone.Some? then {gone.value} else {});
            } else {
              NobodyWaits(start, before, steps, k, waiting, lost);
              NothingIsDone(run[k], n, answer, k);
            }
        }
        RunGrows(steps, k, start, run, Moment(Now(), waiting));
        run := run + [Moment(Now(), waiting)];
        k := k + 1;
      }
      assert steps[..k] == steps;
    }
  }

  // ---- Deliveries and answers in any order ----

  /** A delivery in the scope its secret speaks for, or the answer that the event of the `n`th step waits for. */
  datatype Step = Delivery(scope: Scope, event: ForgeEvent) | Answered(n: nat, answer: Result<Option<Resource>, ()>)

  /** The tables, and the events that wait, by the step that delivered them. */
  datatype Moment = Moment(tables: State, waiting: map<nat, (Scope, Rest)>)

  /** What the `k`th step does: a delivery is handled, and an answer goes to the event that waits for it. */
  ghost predicate StepDone(k: nat, step: Step, s: Moment, t: Moment) {
    match step
    case Delivery(scope, e) =>
      exists about, rest :: EventDone(s.tables, t.tables, scope, e, about) && Waiting(s.tables, scope, e, about, rest)
                            && t.waiting == s.waiting[k := (scope, rest)]
    case Answered(n, answer) =>
      if n in s.waiting then
        exists next :: RestDone(s.tables, t.tables, s.waiting[n].1, answer, next)
                       && t.waiting == s.waiting[n := (s.waiting[n].0, next)]
      else t == s
  }

  /** `run` is how things stood before each step, and after the last. */
  ghost predicate ServesAll(steps: seq<Step>, start: State, run: seq<Moment>) {
    && |run| == |steps| + 1 && run[0] == Moment(start, map[])
    && forall k :: 0 <= k < |steps| ==> StepDone(k, steps[k], run[k], run[k + 1])
  }

  lemma DeliveryIsDone(s: Moment, tables: State, scope: Scope, e: ForgeEvent, k: nat, rest: Rest, about: Option<Found>)
    requires EventDone(s.tables, tables, scope, e, about) && Waiting(s.tables, scope, e, about, rest)
    ensures StepDone(k, Delivery(scope, e), s, Moment(tables, s.waiting[k := (scope, rest)]))
  {
    hide EventDone, Waiting;
  }

  lemma AnswerIsDone(s: Moment, tables: State, n: nat, answer: Result<Option<Resource>, ()>, k: nat, next: Rest)
    requires n in s.waiting && RestDone(s.tables, tables, s.waiting[n].1, answer, next)
    ensures StepDone(k, Answered(n, answer), s, Moment(tables, s.waiting[n := (s.waiting[n].0, next)]))
  {
    hide RestDone;
  }

  lemma NothingIsDone(s: Moment, n: nat, answer: Result<Option<Resource>, ()>, k: nat)
    requires n !in s.waiting
    ensures StepDone(k, Answered(n, answer), s, s)
  {
  }

  lemma RunGrows(steps: seq<Step>, k: nat, start: State, run: seq<Moment>, now: Moment)
    requires k < |steps| && ServesAll(steps[..k], start, run) && StepDone(k, steps[k], run[k], now)
    ensures ServesAll(steps[..k + 1], start, run + [now])
  {
    hide StepDone;
    var more, taken := run + [now], steps[..k + 1];
    forall i | 0 <= i < |taken| ensures StepDone(i, taken[i], more[i], more[i + 1]) {
      assert i < k ==> taken[i] == steps[..k][i];
    }
  }

  function Scopes(steps: seq<Step>): set<Scope> {
    set k | 0 <= k < |steps| && steps[k].Delivery? :: steps[k].scope
  }

  function LostOf(lost: set<(string, nat)>, n: string): set<nat> {
    set x | x in lost && x.0 == n :: x.1
  }

  /** Of a namespace none of `scopes` covers nothing changed and to it nothing was reported, but for the forge ids it
      lost. */
  ghost predicate ConfinedTo(s: State, t: State, scopes: set<Scope>, lost: set<(string, nat)>) {
    && Shrinks(s, t)
    && (forall n :: n in s.namespaces && (forall c :: c in scopes ==> !c.Covers(s.namespaces[n].resource)) ==>
          UntouchedBut(s, t, n, LostOf(lost, n)) && (LostOf(lost, n) == {} ==> Unheard(s, t, n)))
  }

  /** Namespace `n` may lose forge id `id`: a transfer of it was delivered, and the forge's answer, when that was
      asked for, was that it is within that delivery's scope now, and not within `n`. */
  ghost predicate ConfirmedAway(s: State, steps: seq<Step>, n: string, id: nat) {
    exists k, j :: 0 <= k < j < |steps| && Confirms(s, steps[k], k, steps[j], n, id)
  }

  ghost predicate Confirms(s: State, delivery: Step, k: nat, answer: Step, n: string, id: nat) {
    && delivery.Delivery? && delivery.event.RepoTransferred? && delivery.event.forgeId == id
    && answer.Answered? && answer.n == k && answer.answer.Ok? && answer.answer.value.Some?
    && Within(delivery.scope, answer.answer.value.value)
    && (n in s.namespaces ==> !IsIn(answer.answer.value.value, s.namespaces[n].resource))
  }

  /** What waits is known to be what it was, and in a scope that was served; and what asks the forge is a transfer. */
  ghost predicate AllKnown(s: State, steps: seq<Step>, waiting: map<nat, (Scope, Rest)>) {
    forall n :: n in waiting ==> WaitsFor(s, steps, n, waiting[n].0, waiting[n].1)
  }

  predicate WaitsFor(s: State, steps: seq<Step>, n: nat, scope: Scope, rest: Rest) {
    && n < |steps| && steps[n].Delivery? && steps[n].scope == scope && RestKnown(s, scope, rest)
    && (rest.Confirming? ==> steps[n].event.RepoTransferred? && steps[n].event.forgeId == rest.forgeId)
  }

  lemma UntouchedWeaker(s: State, t: State, n: string, ids: set<nat>, more: set<nat>)
    requires UntouchedBut(s, t, n, ids) && ids <= more
    ensures UntouchedBut(s, t, n, more)
  {
  }

  lemma ConfinedOn(s: State, t: State, u: State, scopes: set<Scope>, lost: set<(string, nat)>, scope: Scope,
                   except: Option<(string, nat)>)
    requires ConfinedTo(s, t, scopes, lost) && Confined(t, u, scope, except)
    ensures ConfinedTo(s, u, scopes + {scope}, lost + (if except.Some? then {except.value} else {}))
  {
    var more := lost + (if except.Some? then {except.value} else {});
    hide UntouchedBut;
    forall n | n in s.namespaces && forall c :: c in scopes + {scope} ==> !c.Covers(s.namespaces[n].resource)
      ensures UntouchedBut(s, u, n, LostOf(more, n)) && (LostOf(more, n) == {} ==> Unheard(s, u, n))
    {
      assert scope in scopes + {scope} && SamePlace(t.namespaces[n], s.namespaces[n]);
      LostMore(lost, except, n);
      UntouchedWeaker(s, t, n, LostOf(lost, n), LostOf(more, n));
      UntouchedWeaker(t, u, n, Excepted(except, n), LostOf(more, n));
      UntouchedThrough(s, t, u, n, LostOf(more, n));
    }
  }

  lemma LostMore(lost: set<(string, nat)>, except: Option<(string, nat)>, n: string)
    ensures LostOf(lost + (if except.Some? then {except.value} else {}), n) == LostOf(lost, n) + Excepted(except, n)
  {
    var more := lost + (if except.Some? then {except.value} else {});
    forall id | id in LostOf(lost, n) + Excepted(except, n) ensures id in LostOf(more, n) {
      assert (n, id) in more;
    }
  }

  lemma ScopesMore(steps: seq<Step>, k: nat)
    requires k < |steps|
    ensures Scopes(steps[..k + 1]) == Scopes(steps[..k]) + (if steps[k].Delivery? then {steps[k].scope} else {})
  {
    var now, next := steps[..k], steps[..k + 1];
    forall c | c in Scopes(now) ensures c in Scopes(next) {
      var i :| 0 <= i < |now| && now[i].Delivery? && now[i].scope == c;
      assert next[i] == now[i];
    }
    assert next[k] == steps[k];
  }

  lemma RestStays(s: State, t: State, scope': Scope, except: Option<(string, nat)>, scope: Scope, rest: Rest)
    requires Confined(s, t, scope', except) && RestKnown(s, scope, rest)
    ensures RestKnown(t, scope, rest)
  {
    hide Confined;
    assert Shrinks(s, t) by {
      ConfinedShrinks(s, t, scope', except);
    }
  }

  lemma ConfinedShrinks(s: State, t: State, scope: Scope, except: Option<(string, nat)>)
    requires Confined(s, t, scope, except)
    ensures Shrinks(s, t)
  {
  }

  /** What waits still does after another event's step, `n` aside. */
  lemma OthersWait(s: State, t: State, scope: Scope, except: Option<(string, nat)>, steps: seq<Step>, k: nat,
                   waiting: map<nat, (Scope, Rest)>)
    requires Confined(s, t, scope, except) && k < |steps| && AllKnown(s, steps[..k], waiting)
    ensures AllKnown(t, steps[..k + 1], waiting)
  {
    hide Confined, RestKnown;
    forall n | n in waiting ensures WaitsFor(t, steps[..k + 1], n, waiting[n].0, waiting[n].1) {
      assert WaitsFor(s, steps[..k], n, waiting[n].0, waiting[n].1);
      RestStays(s, t, scope, except, waiting[n].0, waiting[n].1);
    }
  }

  lemma ServiceBegins(s: State, steps: seq<Step>)
    ensures ConfinedTo(s, s, Scopes(steps[..0]), {}) && AllKnown(s, steps[..0], map[])
  {
  }

  lemma WaitingIsKnown(s: State, steps: seq<Step>, waiting: map<nat, (Scope, Rest)>, n: nat)
    requires AllKnown(s, steps, waiting) && n in waiting
    ensures WaitsFor(s, steps, n, waiting[n].0, waiting[n].1)
  {
  }

  lemma AwayLater(s: State, steps: seq<Step>, k: nat, lost: set<(string, nat)>)
    requires k < |steps| && forall x :: x in lost ==> ConfirmedAway(s, steps[..k], x.0, x.1)
    ensures forall x :: x in lost ==> ConfirmedAway(s, steps[..k + 1], x.0, x.1)
  {
    var now, next := steps[..k], steps[..k + 1];
    forall x | x in lost ensures ConfirmedAway(s, next, x.0, x.1) {
      var i, j :| 0 <= i < j < |now| && Confirms(s, now[i], i, now[j], x.0, x.1);
      assert next[i] == now[i] && next[j] == now[j];
    }
  }

  /** After a delivery: one more waits, as far as it has to. */
  lemma Delivered(start: State, s: State, t: State, steps: seq<Step>, k: nat, waiting: map<nat, (Scope, Rest)>,
                  lost: set<(string, nat)>, rest: Rest, about: Option<Found>)
    requires k < |steps| && steps[k].Delivery?
    requires ConfinedTo(start, s, Scopes(steps[..k]), lost) && AllKnown(s, steps[..k], waiting)
    requires Confined(s, t, steps[k].scope, None) && RestKnown(t, steps[k].scope, rest)
    requires Waiting(s, steps[k].scope, steps[k].event, about, rest)
    ensures ConfinedTo(start, t, Scopes(steps[..k + 1]), lost)
    ensures AllKnown(t, steps[..k + 1], waiting[k := (steps[k].scope, rest)])
  {
    hide Confined, ConfinedTo, RestKnown;
    ScopesMore(steps, k);
    ConfinedOn(start, s, t, Scopes(steps[..k]), lost, steps[k].scope, None);
    assert lost + {} == lost;
    OthersWait(s, t, steps[k].scope, None, steps, k, waiting);
    assert steps[..k + 1][k] == steps[k];
  }

  /** After an answer: its event goes on, and may have cost another owner's namespace the id. */
  lemma Resumed(start: State, s: State, t: State, steps: seq<Step>, k: nat, waiting: map<nat, (Scope, Rest)>,
                lost: set<(string, nat)>, next: Rest, gone: Option<(string, nat)>)
    requires k < |steps| && steps[k].Answered? && steps[k].n in waiting
    requires ConfinedTo(start, s, Scopes(steps[..k]), lost) && AllKnown(s, steps[..k], waiting)
    requires Confined(s, t, waiting[steps[k].n].0, gone) && RestKnown(t, waiting[steps[k].n].0, next)
    requires !next.Confirming?
    requires forall x :: x in lost ==> ConfirmedAway(start, steps[..k + 1], x.0, x.1)
    requires var rest, answer := waiting[steps[k].n].1, steps[k].answer;
      gone.Some? ==>
        && rest.Confirming? && gone == Some((rest.old_.id, rest.forgeId)) && answer.Ok? && answer.value.Some?
        && IsIn(answer.value.value, rest.ns.resource) && !IsIn(answer.value.value, rest.old_.resource)
    ensures var more := lost + (if gone.Some? then {gone.value} else {});
      && ConfinedTo(start, t, Scopes(steps[..k + 1]), more)
      && (forall x :: x in more ==> ConfirmedAway(start, steps[..k + 1], x.0, x.1))
    ensures AllKnown(t, steps[..k + 1], waiting[steps[k].n := (waiting[steps[k].n].0, next)])
  {
    var n, scope := steps[k].n, waiting[steps[k].n].0;
    assert WaitsFor(s, steps[..k], n, scope, waiting[n].1);
    assert scope in Scopes(steps[..k]) by {
      assert steps[..k][n].Delivery?;
    }
    if gone.Some? {
      GoneIsAway(start, s, steps, k, scope, waiting[n].1, Scopes(steps[..k]), lost);
    }
    hide Confined, ConfinedTo, ConfirmedAway, RestKnown;
    ScopesMore(steps, k);
    ConfinedOn(start, s, t, Scopes(steps[..k]), lost, scope, gone);
    assert Scopes(steps[..k]) + {scope} == Scopes(steps[..k]);
    OthersWait(s, t, scope, gone, steps, k, waiting);
  }

  lemma GoneIsAway(start: State, s: State, steps: seq<Step>, k: nat, scope: Scope, rest: Rest, scopes: set<Scope>,
                   lost: set<(string, nat)>)
    requires k < |steps| && steps[k].Answered? && ConfinedTo(start, s, scopes, lost)
    requires WaitsFor(s, steps[..k], steps[k].n, scope, rest) && rest.Confirming?
    requires steps[k].answer.Ok? && steps[k].answer.value.Some?
    requires IsIn(steps[k].answer.value.value, rest.ns.resource)
    requires !IsIn(steps[k].answer.value.value, rest.old_.resource)
    ensures ConfirmedAway(start, steps[..k + 1], rest.old_.id, rest.forgeId)
  {
    var now, at := steps[..k + 1], steps[k].answer.value.value;
    assert now[steps[k].n] == steps[..k][steps[k].n] && now[k] == steps[k];
    assert at.Owner() == rest.ns.resource.Owner();
    if rest.old_.id in start.namespaces {
      assert SamePlace(s.namespaces[rest.old_.id], start.namespaces[rest.old_.id]);
    }
    assert Confirms(start, now[steps[k].n], steps[k].n, now[k], rest.old_.id, rest.forgeId);
  }

  lemma NobodyWaits(start: State, s: State, steps: seq<Step>, k: nat, waiting: map<nat, (Scope, Rest)>,
                    lost: set<(string, nat)>)
    requires k < |steps| && steps[k].Answered?
    requires ConfinedTo(start, s, Scopes(steps[..k]), lost) && AllKnown(s, steps[..k], waiting)
    ensures ConfinedTo(start, s, Scopes(steps[..k + 1]), lost) && AllKnown(s, steps[..k + 1], waiting)
  {
    hide ConfinedTo, RestKnown;
    ScopesMore(steps, k);
    assert Scopes(steps[..k + 1]) == Scopes(steps[..k]);
    forall n | n in waiting ensures WaitsFor(s, steps[..k + 1], n, waiting[n].0, waiting[n].1) {
      assert WaitsFor(s, steps[..k], n, waiting[n].0, waiting[n].1);
    }
  }

  lemma FoundIsKnown(s: State, n: Found)
    requires Exclusive(s) && n.id in s.namespaces && s.namespaces[n.id].resource == n.resource
    ensures Known(s, n)
  {
  }

  lemma StillKnown(s: State, t: State, scope: Scope, except: Option<(string, nat)>, n: Found)
    requires Confined(s, t, scope, except) && Known(s, n)
    ensures Known(t, n)
  {
  }

  /** A resource outside a namespace is another owner's. */
  lemma NotTheSameOwner(n: Found, r: Resource)
    requires n.resource.IsNamespace() && !n.resource.Contains(r) && r.path != []
    ensures !OwnScope(n).Covers(r)
  {
    assert r.path[0] == n.resource.path[0] ==> n.resource.path == r.path[..1];
  }

  lemma NothingDetached(s: State, host: string)
    ensures Detached(s, host, {}) == s
  {
    assert forall n :: n in s.namespaces ==> Without(s.namespaces[n], host, {}) == s.namespaces[n];
  }

  lemma DetachedOneMore(s: State, host: string, ids: set<nat>, id: nat)
    ensures Detached(Detached(s, host, ids), host, {id}) == Detached(s, host, ids + {id})
  {
    assert forall n :: n in s.namespaces ==>
      Without(Without(s.namespaces[n], host, ids), host, {id}) == Without(s.namespaces[n], host, ids + {id});
  }
}
