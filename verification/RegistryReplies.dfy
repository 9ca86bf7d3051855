/** The bridge's queries to the trust registry, over a session it shares with everything else
    (crates/vgi-bridge/src/registry_channel.rs). Every query and every inbound document is a task of its own, so
    the steps of `Replies` happen in any order: a query is registered, sent, answered, given up on or dropped. */
module RegistryReplies {
  import opened Wrappers

  datatype Via = Tsp | Didcomm

  /** A document the transport delivered, and the sender it proved, if it proved one. */
  datatype Inbound = Inbound(sender: Option<string>, via: Via, thread: Option<string>, body: string)

  datatype Failure = WrongRecipient | NoId | SendFailed | ReplyChannelClosed | TimedOut | Dropped

  /** A query: `mail` is its one-shot reply channel, open while `pending` holds the other end. */
  datatype Exchange = Exchange(id: string, via: Via, sent: bool, mail: Option<Inbound>,
                               outcome: Option<Result<Inbound, Failure>>)
  {
    predicate Live() {
      outcome.None?
    }
  }

  /** A key id's DID: what comes before the first `#`. */
  function Did(sender: string): (did: string)
    ensures '#' !in did
    ensures did == sender || did + "#" <= sender
    ensures did == sender <==> '#' !in sender
  {
    if sender == "" then ""
    else if sender[0] == '#' then ""
    else [sender[0]] + Did(sender[1..])
  }

  /** The registry's answer to query `x`: from its DID, over the binding the query went out on, on its thread. */
  ghost predicate Answers(registry: string, doc: Inbound, x: Exchange) {
    doc.sender.Some? && Did(doc.sender.value) == registry && doc.via == x.via && doc.thread == Some(x.id)
  }

  ghost predicate InFlight(exchanges: map<nat, Exchange>, n: nat) {
    n in exchanges && exchanges[n].Live() && exchanges[n].mail.None?
  }

  /** Exchange `n` has no reply yet and has not ended, and `doc` is the registry's reply to it: the sender's DID, up to
      any key, is the registry's, and binding and thread are the query's own. */
  ghost predicate IsAnswered(registry: string, exchanges: map<nat, Exchange>, n: nat, doc: Inbound) {
    && n in exchanges && exchanges[n].outcome.None? && exchanges[n].mail.None?
    && doc.sender.Some? && IsKeyOf(doc.sender.value, registry)
    && doc.via == exchanges[n].via && doc.thread == Some(exchanges[n].id)
  }

  ghost predicate IsKeyOf(sender: string, did: string) {
    '#' !in did && (sender == did || did + "#" <= sender)
  }

  lemma KeyMeans(sender: string, did: string)
    ensures Did(sender) == did <==> IsKeyOf(sender, did)
  {
    if IsKeyOf(sender, did) {
      var d := Did(sender);
      assert forall i :: 0 <= i < |d| ==> sender[i] == d[i] && d[i] in d;
      assert forall i :: 0 <= i < |did| ==> sender[i] == did[i] && did[i] in did;
      assert d != sender ==> (d + "#")[|d|] == sender[|d|];
      assert did != sender ==> (did + "#")[|did|] == sender[|did|];
      assert |d| == |did|;
      assert d == sender[..|d|] == did;
    }
  }

  /** What one step makes of the exchanges. One that cannot be taken changes nothing. */
  ghost predicate StepTaken(registry: string, a: Action, s: map<nat, Exchange>, t: map<nat, Exchange>) {
    match a
    case Query(recipient, id, via) =>
      if recipient == registry && id.Some? then
        exists n: nat :: n !in s && t == s[n := Exchange(id.value, via, false, None, None)]
      else t == s
    case Send(n, ok) =>
      t == if n in s && s[n].outcome.None? && !s[n].sent then
             s[n := if ok then s[n].(sent := true) else s[n].(outcome := Some(Err(SendFailed)))]
           else s
    case Arrive(doc) =>
      if exists n :: IsAnswered(registry, s, n, doc) then
        exists n :: IsAnswered(registry, s, n, doc) && t == s[n := s[n].(mail := Some(doc))]
      else t == s
    case Wait(n, expired) =>
      t == if n in s && s[n].outcome.None? && s[n].sent then
             s[n := s[n].(outcome := if s[n].mail.Some? then Some(Ok(s[n].mail.value))
                                     else if expired then Some(Err(TimedOut)) else None)]
           else s
    case Abort(n) => t == if n in s && s[n].outcome.None? then s[n := s[n].(outcome := Some(Err(Dropped)))] else s
  }

  ghost predicate Identified(exchanges: map<nat, Exchange>, used: set<string>, next: nat) {
    && (forall n :: n in exchanges ==> n < next && exchanges[n].id in used)
    && (forall m, n :: m in exchanges && n in exchanges && exchanges[m].id == exchanges[n].id ==> m == n)
  }

  /** `pending` holds exactly the live queries that are not answered. */
  ghost predicate PendingIsLive(pending: map<string, (Via, nat)>, exchanges: map<nat, Exchange>) {
    && (forall id :: id in pending ==> InFlight(exchanges, pending[id].1) && exchanges[pending[id].1].id == id)
    && (forall n :: InFlight(exchanges, n) ==> exchanges[n].id in pending && pending[exchanges[n].id] == (exchanges[n].via, n))
  }

  /** What an exchange got, and what it returned, is the registry's answer to it. */
  ghost predicate AnswersAreTheRegistrys(registry: string, exchanges: map<nat, Exchange>) {
    forall n :: n in exchanges ==> AnswerIsTheRegistrys(registry, exchanges[n])
  }

  ghost predicate AnswerIsTheRegistrys(registry: string, x: Exchange) {
    && (x.mail.Some? ==> Answers(registry, x.mail.value, x))
    && (x.outcome.Some? && x.outcome.value.Ok? ==> x.mail == Some(x.outcome.value.value))
    && x.outcome != Some(Err(ReplyChannelClosed))
  }

  /** A document that came in answers one exchange at most. */
  ghost predicate EachArrivalOnce(exchanges: map<nat, Exchange>, taken: map<nat, nat>, arrivals: seq<Inbound>) {
    && (forall n :: n in taken <==> n in exchanges && exchanges[n].mail.Some?)
    && (forall n :: n in taken ==> taken[n] < |arrivals| && exchanges[n].mail == Some(arrivals[taken[n]]))
    && (forall m, n :: m in taken && n in taken && taken[m] == taken[n] ==> m == n)
  }

  /** A query begins: only its own entry is new. */
  lemma BeginStays(pending: map<string, (Via, nat)>, exchanges: map<nat, Exchange>, used: set<string>, next: nat,
                   id: string,
                   via: Via)
    requires Identified(exchanges, used, next) && PendingIsLive(pending, exchanges) && id !in used
    ensures var now := exchanges[next := Exchange(id, via, false, None, None)];
      Identified(now, used + {id}, next + 1) && PendingIsLive(pending[id := (via, next)], now)
  {
    var now := exchanges[next := Exchange(id, via, false, None, None)];
    forall n | InFlight(now, n) && n != next ensures now[n].id != id && InFlight(exchanges, n) {
    }
    forall k | k in pending ensures k != id && InFlight(now, pending[k].1) {
    }
  }

  /** An exchange was answered or ended: its entry is gone, and no other's. */
  lemma LeaveStays(pending: map<string, (Via, nat)>, exchanges: map<nat, Exchange>, used: set<string>, next: nat,
                   n: nat, x: Exchange)
    requires Identified(exchanges, used, next) && PendingIsLive(pending, exchanges) && n in exchanges
    requires x.id == exchanges[n].id && (x.outcome.Some? || x.mail.Some?)
    ensures Identified(exchanges[n := x], used, next) && PendingIsLive(pending - {x.id}, exchanges[n := x])
  {
    var now := exchanges[n := x];
    forall m | InFlight(now, m) ensures m != n && InFlight(exchanges, m) && now[m].id != x.id {
    }
    forall k | k in pending && k != x.id ensures pending[k].1 != n && InFlight(now, pending[k].1) {
    }
  }

  lemma MailUnmoved(registry: string, was: map<nat, Exchange>, now: map<nat, Exchange>, n: nat, taken: map<nat, nat>,
                    arrivals: seq<Inbound>)
    requires AnswersAreTheRegistrys(registry, was) && EachArrivalOnce(was, taken, arrivals)
    requires n in now && now == was[n := now[n]] && AnswerIsTheRegistrys(registry, now[n])
    requires now[n].mail == if n in was then was[n].mail else None
    ensures AnswersAreTheRegistrys(registry, now) && EachArrivalOnce(now, taken, arrivals)
  {
  }

  lemma PendingFound(pending: map<string, (Via, nat)>, exchanges: map<nat, Exchange>, thread: string)
    requires PendingIsLive(pending, exchanges) && thread in pending
    ensures var (via, n) := pending[thread]; InFlight(exchanges, n) && exchanges[n].id == thread && exchanges[n].via == via
  {
    var n := pending[thread].1;
    assert InFlight(exchanges, n);
  }

  lemma MoreArrivals(exchanges: map<nat, Exchange>, taken: map<nat, nat>, arrivals: seq<Inbound>, doc: Inbound)
    requires EachArrivalOnce(exchanges, taken, arrivals)
    ensures EachArrivalOnce(exchanges, taken, arrivals + [doc])
  {
  }

  lemma MailTaken(exchanges: map<nat, Exchange>, n: nat, doc: Inbound, taken: map<nat, nat>, arrivals: seq<Inbound>)
    requires EachArrivalOnce(exchanges, taken, arrivals) && InFlight(exchanges, n)
    ensures EachArrivalOnce(exchanges[n := exchanges[n].(mail := Some(doc))], taken[n := |arrivals|], arrivals + [doc])
  {
  }

  /** A document that the table has no waiter for answers nothing in flight. */
  lemma NobodyWaits(registry: string, pending: map<string, (Via, nat)>, exchanges: map<nat, Exchange>, doc: Inbound)
    requires PendingIsLive(pending, exchanges)
    requires doc.sender.Some? && Did(doc.sender.value) == registry && doc.thread.Some? ==>
               doc.thread.value !in pending || pending[doc.thread.value].0 != doc.via
    ensures forall n :: !IsAnswered(registry, exchanges, n, doc)
  {
    if doc.sender.Some? {
      KeyMeans(doc.sender.value, registry);
    }
    forall n | IsAnswered(registry, exchanges, n, doc) ensures false {
      assert InFlight(exchanges, n);
    }
  }

  lemma IdsAreOwn(exchanges: map<nat, Exchange>, used: set<string>, next: nat)
    requires Identified(exchanges, used, next)
    ensures OwnIds(exchanges)
  {
  }

  lemma IsNew(exchanges: map<nat, Exchange>, used: set<string>, next: nat)
    requires Identified(exchanges, used, next)
    ensures next !in exchanges
  {
  }

  lemma SentStays(registry: string, pending: map<string, (Via, nat)>, exchanges: map<nat, Exchange>, used: set<string>,
                  next: nat, n: nat, taken: map<nat, nat>, arrivals: seq<Inbound>)
    requires Identified(exchanges, used, next) && PendingIsLive(pending, exchanges) && n in exchanges
    requires AnswersAreTheRegistrys(registry, exchanges) && EachArrivalOnce(exchanges, taken, arrivals)
    ensures var now := exchanges[n := exchanges[n].(sent := true)];
      && Identified(now, used, next) && PendingIsLive(pending, now)
      && AnswersAreTheRegistrys(registry, now) && EachArrivalOnce(now, taken, arrivals)
  {
    var now := exchanges[n := exchanges[n].(sent := true)];
    assert AnswerIsTheRegistrys(registry, exchanges[n]);
    assert forall m :: InFlight(now, m) == InFlight(exchanges, m);
    MailUnmoved(registry, exchanges, now, n, taken, arrivals);
  }

  class Replies {
    const registry: string
    /** The queries in flight, by document id: the binding used, and the exchange that waits. */
    var pending: map<string, (Via, nat)>
    var exchanges: map<nat, Exchange>
    var next: nat
    /** The ids taken so far, and each exchange's reply by its place among the documents that came in. */
    ghost var used: set<string>
    ghost var arrivals: seq<Inbound>
    ghost var taken: map<nat, nat>

    ghost predicate Valid()
      reads this
    {
      && Identified(exchanges, used, next) && PendingIsLive(pending, exchanges)
      && AnswersAreTheRegistrys(registry, exchanges) && EachArrivalOnce(exchanges, taken, arrivals)
    }

    constructor (registry: string)
      ensures Valid() && this.registry == registry && exchanges == map[] && pending == map[]
    {
      this.registry := registry;
      pending, exchanges, next := map[], map[], 0;
      used, arrivals, taken := {}, [], map[];
    }

    /** Register a query before it is sent, so that a fast reply is not lost. Its id is new. */
    method Begin(recipient: string, id: Option<string>, via: Via) returns (r: Result<nat, Failure>)
      requires Valid() && (id.Some? ==> id.value !in used)
      modifies this`pending, this`exchanges, this`next, this`used
      ensures Valid()
      ensures r.Ok? <==> recipient == registry && id.Some?
      ensures r.Ok? ==> InFlight(exchanges, r.value)
      ensures r.Ok? ==> exchanges == old(exchanges)[r.value := Exchange(id.value, via, false, None, None)]
                        && r.value !in old(exchanges) && pending == old(pending)[id.value := (via, r.value)]
      ensures r.Err? ==> exchanges == old(exchanges) && pending == old(pending)
      ensures used == old(used) + if r.Ok? then {id.value} else {}
    {
      hide PendingIsLive, AnswersAreTheRegistrys, EachArrivalOnce, Identified;
      if recipient != registry {
        return Err(WrongRecipient);
      }
      if id.None? {
        return Err(NoId);
      }
      var n := next;
      IsNew(exchanges, used, next);
      BeginStays(pending, exchanges, used, next, id.value, via);
      ghost var was := exchanges;
      pending := pending[id.value := (via, n)];
      exchanges := exchanges[n := Exchange(id.value, via, false, None, None)];
      next := next + 1;
      used := used + {id.value};
      MailUnmoved(registry, was, exchanges, n, taken, arrivals);
      r := Ok(n);
    }

    /** The end of a query, whichever it is, removes its entry, so that what comes late finds none. */
    method End(n: nat, outcome: Result<Inbound, Failure>)
      requires Valid() && n in exchanges && exchanges[n].Live()
      requires outcome.Ok? ==> exchanges[n].mail == Some(outcome.value)
      requires outcome != Err(ReplyChannelClosed)
      modifies this`pending, this`exchanges
      ensures Valid() && exchanges == old(exchanges)[n := old(exchanges)[n].(outcome := Some(outcome))]
      ensures pending == old(pending) - {old(exchanges)[n].id} && !InFlight(exchanges, n)
    {
      hide PendingIsLive, EachArrivalOnce, Identified;
      assert AnswerIsTheRegistrys(registry, exchanges[n]);
      hide AnswersAreTheRegistrys;
      ghost var was := exchanges;
      LeaveStays(pending, exchanges, used, next, n, exchanges[n].(outcome := Some(outcome)));
      pending := pending - {exchanges[n].id};
      exchanges := exchanges[n := exchanges[n].(outcome := Some(outcome))];
      MailUnmoved(registry, was, exchanges, n, taken, arrivals);
    }

    /** The link took the query, or could not. */
    method Sent(n: nat, ok: bool)
      requires Valid() && n in exchanges && exchanges[n].Live() && !exchanges[n].sent
      modifies this`pending, this`exchanges
      ensures Valid() && n in exchanges
      ensures exchanges == old(exchanges)[n := if ok then old(exchanges)[n].(sent := true)
                                               else old(exchanges)[n].(outcome := Some(Err(SendFailed)))]
      ensures pending == if ok then old(pending) else old(pending) - {old(exchanges)[n].id}
    {
      if ok {
        SentStays(registry, pending, exchanges, used, next, n, taken, arrivals);
        hide PendingIsLive, AnswersAreTheRegistrys, EachArrivalOnce, Identified;
        exchanges := exchanges[n := exchanges[n].(sent := true)];
      } else {
        End(n, Err(SendFailed));
      }
    }

    /** An inbound document is taken if a query in flight is what it answers, by sender, binding and thread; if not, the
        job path gets it. */
    method Route(doc: Inbound) returns (mine: bool)
      requires Valid()
      modifies this`pending, this`exchanges, this`arrivals, this`taken
      ensures Valid() && arrivals == old(arrivals) + [doc]
      ensures mine <==> exists n :: IsAnswered(registry, old(exchanges), n, doc)
      ensures !mine ==> exchanges == old(exchanges) && pending == old(pending) && taken == old(taken)
      ensures mine ==> exists n :: IsAnswered(registry, old(exchanges), n, doc)
                                   && exchanges == old(exchanges)[n := old(exchanges)[n].(mail := Some(doc))]
                                   && pending == old(pending) - {old(exchanges)[n].id}
    {
      hide PendingIsLive, EachArrivalOnce, Identified;
      MoreArrivals(exchanges, taken, arrivals, doc);
      if doc.sender.Some? && Did(doc.sender.value) == registry && doc.thread.Some? {
        KeyMeans(doc.sender.value, registry);
        var thread := doc.thread.value;
        if thread in pending && pending[thread].0 == doc.via {
          var n := pending[thread].1;
          PendingFound(pending, exchanges, thread);
          LeaveStays(pending, exchanges, used, next, n, exchanges[n].(mail := Some(doc)));
          MailTaken(exchanges, n, doc, taken, arrivals);
          pending := pending - {thread};
          exchanges := exchanges[n := exchanges[n].(mail := Some(doc))];
          arrivals, taken := arrivals + [doc], taken[n := |arrivals|];
          assert IsAnswered(registry, old(exchanges), n, doc);
          return true;
        }
      }
      NobodyWaits(registry, pending, exchanges, doc);
      arrivals := arrivals + [doc];
      mine := false;
    }

    /** The wait ends: with the reply if it is there, even at the last moment, or else in the timeout. */
    method Await(n: nat, expired: bool)
      requires Valid() && n in exchanges && exchanges[n].Live() && exchanges[n].sent
      modifies this`pending, this`exchanges
      ensures Valid() && n in exchanges
      ensures exchanges[n].outcome ==
              if old(exchanges)[n].mail.Some? then Some(Ok(old(exchanges)[n].mail.value))
              else if expired then Some(Err(TimedOut)) else None
      ensures exchanges == old(exchanges)[n := old(exchanges)[n].(outcome := exchanges[n].outcome)]
    {
      if exchanges[n].mail.Some? {
        End(n, Ok(exchanges[n].mail.value));
      } else if expired {
        End(n, Err(TimedOut));
      }
    }

    /** The exchange is dropped: its check was aborted, or the bridge stops. */
    method Drop(n: nat)
      requires Valid() && n in exchanges && exchanges[n].Live()
      modifies this`pending, this`exchanges
      ensures Valid() && exchanges == old(exchanges)[n := old(exchanges)[n].(outcome := Some(Err(Dropped)))]
    {
      End(n, Err(Dropped));
    }

    /** One step, if it can be taken. */
    method Take(a: Action)
      requires Valid() && IdsOf(a) !! used
      modifies this
      ensures Valid() && used <= old(used) + IdsOf(a)
      ensures Settled(old(exchanges), exchanges)
      ensures StepTaken(registry, a, old(exchanges), exchanges)
    {
      hide PendingIsLive, AnswersAreTheRegistrys, EachArrivalOnce, Identified;
      match a
      case Query(recipient, id, via) =>
        var _ := Begin(recipient, id, via);
      case Send(n, ok) =>
        if n in exchanges && exchanges[n].Live() && !exchanges[n].sent {
          Sent(n, ok);
        }
      case Arrive(doc) =>
        var _ := Route(doc);
      case Wait(n, expired) =>
        if n in exchanges && exchanges[n].Live() && exchanges[n].sent {
          Await(n, expired);
        }
      case Abort(n) =>
        if n in exchanges && exchanges[n].Live() {
          Drop(n);
        }
    }

    /** MAIN RESULT. Any steps in any order: the table holds exactly the live unanswered queries (`Valid`), an
        exchange that ended keeps its one outcome, and a document it returned is the registry's answer to it. */
    method Serve(script: seq<Action>) returns (ghost run: seq<map<nat, Exchange>>)
      requires Valid() && Distinct(script) && (forall i :: 0 <= i < |script| ==> IdsOf(script[i]) !! used)
      modifies this
      ensures Valid() && Settled(old(exchanges), exchanges)
      ensures Serves(registry, script, old(exchanges), run) && run[|script|] == exchanges
      ensures forall i :: 0 <= i < |run| ==> OwnIds(run[i])
      ensures forall n :: n in exchanges && exchanges[n].outcome.Some? && exchanges[n].outcome.value.Ok? ==>
        var doc := exchanges[n].outcome.value.value;
        doc.sender.Some? && IsKeyOf(doc.sender.value, registry) && doc.via == exchanges[n].via
        && doc.thread == Some(exchanges[n].id)
    {
      hide PendingIsLive, EachArrivalOnce, Identified, StepTaken, OwnIds;
      IdsAreOwn(exchanges, used, next);
      run := [exchanges];
      for i := 0 to |script|
        invariant Valid() && Settled(old(exchanges), exchanges)
        invariant Serves(registry, script[..i], old(exchanges), run) && run[i] == exchanges
        invariant forall k :: 0 <= k < |run| ==> OwnIds(run[k])
        invariant forall j :: i <= j < |script| ==> IdsOf(script[j]) !! used
      {
        Take(script[i]);
        RunGrows(registry, script, i, old(exchanges), run, exchanges);
        IdsAreOwn(exchanges, used, next);
        run := run + [exchanges];
        assert forall j :: i < j < |script| ==> IdsOf(script[j]) !! IdsOf(script[i]);
      }
      assert script[..|script|] == script;
      forall n | n in exchanges && exchanges[n].outcome.Some? && exchanges[n].outcome.value.Ok?
        ensures exchanges[n].outcome.value.value.sender.Some?
                && IsKeyOf(exchanges[n].outcome.value.value.sender.value, registry)
      {
        assert AnswerIsTheRegistrys(registry, exchanges[n]);
        KeyMeans(exchanges[n].outcome.value.value.sender.value, registry);
      }
      assert forall n :: n in exchanges ==> AnswerIsTheRegistrys(registry, exchanges[n]);
    }
  }

  datatype Action =
    | Query(recipient: string, id: Option<string>, via: Via)
    | Send(n: nat, ok: bool)
    | Arrive(doc: Inbound)
    | Wait(n: nat, expired: bool)
    | Abort(n: nat)

  function IdsOf(a: Action): set<string> {
    if a.Query? && a.id.Some? then {a.id.value} else {}
  }

  /** Every query has an id of its own. */
  ghost predicate Distinct(script: seq<Action>) {
    forall i, j :: 0 <= i < j < |script| ==> IdsOf(script[i]) !! IdsOf(script[j])
  }

  /** `run` is what the exchanges were before each step of `script`, and after the last. */
  ghost predicate Serves(registry: string, script: seq<Action>, start: map<nat, Exchange>,
                         run: seq<map<nat, Exchange>>) {
    && |run| == |script| + 1 && run[0] == start
    && forall i :: 0 <= i < |script| ==> StepTaken(registry, script[i], run[i], run[i + 1])
  }

  /** No two exchanges have the same id. */
  ghost predicate OwnIds(exchanges: map<nat, Exchange>) {
    forall m, n :: m in exchanges && n in exchanges && exchanges[m].id == exchanges[n].id ==> m == n
  }

  lemma {:induction false} ReplyWaits(registry: string, script: seq<Action>, start: map<nat, Exchange>,
                                      run: seq<map<nat, Exchange>>, i: nat, j: nat, n: nat, doc: Inbound)
    requires Serves(registry, script, start, run) && i <= j < |run|
    requires n in run[i] && run[i][n].mail == Some(doc)
    ensures n in run[j] && run[j][n].mail == Some(doc)
    decreases j
  {
    if i < j {
      ReplyWaits(registry, script, start, run, i, j - 1, n, doc);
      assert StepTaken(registry, script[j - 1], run[j - 1], run[j]);
    }
  }

  /** MAIN RESULT. In every order of steps, a reply that comes before the wait for it ends is what it returns. */
  lemma RepliesAreReturned(registry: string, script: seq<Action>, start: map<nat, Exchange>,
                           run: seq<map<nat, Exchange>>, i: nat, j: nat, n: nat, doc: Inbound)
    requires Serves(registry, script, start, run) && i < j < |script| && OwnIds(run[i])
    requires script[i] == Arrive(doc) && IsAnswered(registry, run[i], n, doc)
    requires script[j].Wait? && script[j].n == n && n in run[j] && run[j][n].outcome.None? && run[j][n].sent
    ensures n in run[j + 1] && run[j + 1][n].outcome == Some(Ok(doc))
  {
    assert StepTaken(registry, script[i], run[i], run[i + 1]);
    ReplyWaits(registry, script, start, run, i + 1, j, n, doc);
    assert StepTaken(registry, script[j], run[j], run[j + 1]);
  }

  lemma RunGrows(registry: string, script: seq<Action>, i: nat, start: map<nat, Exchange>, run: seq<map<nat, Exchange>>,
                 now: map<nat, Exchange>)
    requires i < |script| && Serves(registry, script[..i], start, run) && StepTaken(registry, script[i], run[i], now)
    ensures Serves(registry, script[..i + 1], start, run + [now])
  {
    hide StepTaken;
    var more, steps := run + [now], script[..i + 1];
    forall k | 0 <= k < |steps| ensures StepTaken(registry, steps[k], more[k], more[k + 1]) {
      assert k < i ==> steps[k] == script[..i][k];
    }
  }

  /** What ended stays as it ended. */
  ghost predicate Settled(was: map<nat, Exchange>, now: map<nat, Exchange>) {
    forall n :: n in was && !was[n].Live() ==> n in now && now[n] == was[n]
  }
}
