/** The verdict pipeline (crates/verify-trust/src/lib.rs and registry.rs): the signature check of each
    commit, one registry query per signer over a channel that latches its first failure, and the
    platform-merge policy over the result. Cryptography and parsing are answers recorded in the input. */
module Verification {
  import opened Wrappers
  import opened MergePolicy
  import opened MergePolicyLoop

  // ---- Pass 1: signatures ----

  /** What parsing and cryptography make of a commit object's signature. */
  datatype Signature =
    | Absent
    | Garbled(problem: string)
    | Pgp(keyringAnswer: Result<string, string>)
    | UnparsableSsh(problem: string)
    | UnusableKey(problem: string)
    | Ssh(key: string, conflicting: Option<(string, string)>, claimed: Option<string>, committer: string, verifies: bool)

  datatype Object = Object(commit: Commit, signature: Signature)

  /** The signing keys each resolved DID publishes, and why the others did not resolve. */
  datatype Signers = Signers(keys: map<string, set<string>>, unresolved: map<string, string>)

  datatype SignatureCheck =
    | NotSigned
    | MalformedSignature(problem: string)
    | NoDid(committer: string)
    | ConflictingDids(trailer: string, committer: string)
    | Unresolved(did: string, error: string)
    | KeyNotPublished(did: string, key: string)
    | DoesNotVerify(did: string)
    | PgpRefused(problem: string)
    | PlatformKey(fingerprint: string)
    | Valid(did: string)

  /** The claimed DID publishes the signing key, and the signature verifies: what a signer vouches. */
  ghost predicate VouchedBy(signature: Signature, signers: Signers, did: string) {
    && signature.Ssh?
    && signature.conflicting.None?
    && signature.claimed == Some(did)
    && did in signers.keys
    && signature.key in signers.keys[did]
    && signature.verifies
  }

  function CheckSignature(signature: Signature, signers: Signers, keyring: bool): (r: SignatureCheck)
    ensures forall did :: r == Valid(did) <==> VouchedBy(signature, signers, did)
    ensures forall f :: r == PlatformKey(f) <==> keyring && signature == Pgp(Ok(f))
  {
    match signature
    case Absent => NotSigned
    case Garbled(problem) => MalformedSignature(problem)
    case Pgp(answer) =>
      if !keyring then PgpRefused("PGP-signed commit, but no exempt keyring is configured")
      else (match answer case Ok(fingerprint) => PlatformKey(fingerprint) case Err(problem) => PgpRefused(problem))
    case UnparsableSsh(problem) => MalformedSignature(problem)
    case UnusableKey(problem) => MalformedSignature(problem)
    case Ssh(key, conflicting, claimed, committer, verifies) =>
      if conflicting.Some? then ConflictingDids(conflicting.value.0, conflicting.value.1)
      else if claimed.None? then NoDid(committer)
      else
        var did := claimed.value;
        if did !in signers.keys then
          Unresolved(did, if did in signers.unresolved then signers.unresolved[did] else "not resolved")
        else if key !in signers.keys[did] then KeyNotPublished(did, key)
        else if verifies then Valid(did)
        else DoesNotVerify(did)
  }

  // ---- Pass 2: the registry ----

  /** What an answer document says: a decision, or a refusal that may be worth asking again. */
  datatype Verdict = Decided(authorized: bool) | Rejected(retryable: bool, why: string)

  datatype Fault = Timeout(why: string) | Transport(why: string) | Contract(why: string)

  /** A reply document: the thread it answers on, and its verdict. */
  datatype Reply = Reply(thread: Option<string>, verdict: Verdict)

  datatype Answer = Heard(verdict: Verdict) | Lost(fault: Fault)

  /** One query that went out on the channel, and what came of it. */
  datatype Asked = Asked(did: string, resource: string, answer: Answer)

  /** A failure that latches the channel for the rest of the check. */
  predicate Latching(answer: Answer) {
    answer.Lost? && (answer.fault.Timeout? || answer.fault.Transport?)
  }

  /** The world on the far side: the reply (or fault) each outgoing query meets, by its number, and the
      fresh id drawn for it. */
  datatype Far = Far(reply: (nat, string, string) -> Result<Reply, Fault>, freshId: nat -> string)

  /** The far side times out on query number `k`, or the transport fails under it. */
  ghost predicate Breaks(far: Far, k: nat, did: string, resource: string) {
    match far.reply(k, did, resource)
    case Err(Timeout(_)) => true
    case Err(Transport(_)) => true
    case _ => false
  }

  /** Query number `k` came to what the far side made of it: a reply on its own fresh thread is heard, one on another
      is not an answer. */
  ghost predicate Happened(far: Far, k: nat, a: Asked) {
    match far.reply(k, a.did, a.resource)
    case Err(fault) => a.answer == Lost(fault)
    case Ok(doc) =>
      if doc.thread == Some(far.freshId(k)) then a.answer == Heard(doc.verdict)
      else a.answer.Lost? && a.answer.fault.Contract?
  }

  class ChannelTransport {
    var failed: Option<string>
    var sent: nat
    ghost var log: seq<Asked>

    constructor ()
      ensures failed == None && sent == 0 && log == [] && Valid()
    {
      failed, sent, log := None, 0, [];
    }

    /** The latch is set exactly when some query failed by timeout or transport, and that query was the
        last one sent. */
    ghost predicate Valid()
      reads this
    {
      && sent == |log|
      && (failed.Some? <==> |log| > 0 && Latching(log[|log| - 1].answer))
      && forall k :: 0 <= k < |log| - 1 ==> !Latching(log[k].answer)
    }

    /** Send one query under a fresh id; `clientId` is the id the client chose for it. The reply is handed
        back on the client's own thread. */
    method Exchange(clientId: string, did: string, resource: string, far: Far)
      returns (answer: Answer, thread: Option<string>)
      requires Valid()
      modifies this
      ensures Valid()
      ensures old(failed).Some? ==>
        log == old(log) && sent == old(sent) && answer.Lost? && answer.fault.Transport? && failed == old(failed)
      ensures old(failed).None? ==>
        && log == old(log) + [Asked(did, resource, answer)] && sent == old(sent) + 1
        && Happened(far, old(sent), Asked(did, resource, answer))
        && (failed.Some? <==> Breaks(far, old(sent), did, resource))
      ensures thread == if answer.Heard? then Some(clientId) else None
    {
      thread := None;
      if failed.Some? {
        return Lost(Transport(failed.value)), None;
      }
      var id, reply := far.freshId(sent), far.reply(sent, did, resource);
      sent := sent + 1;
      match reply {
        case Err(fault) =>
          answer := Lost(fault);
          if Latching(answer) {
            failed := Some("an earlier registry query failed");
          }
        case Ok(doc) =>
          if doc.thread == Some(id) {
            answer, thread := Heard(doc.verdict), Some(clientId);
          } else {
            answer := Lost(Contract("reply does not answer the request"));
          }
      }
      log := log + [Asked(did, resource, answer)];
    }
  }

  /** A signer's decision: the resource it is authorised under, none, or no decision. */
  type Decision = Result<Option<string>, string>

  /** `s` up to its first `mark`, if there is one. */
  function UpTo(s: string, mark: string): (head: string)
    ensures head <= s && (head == s || mark <= s[|head|..])
    ensures forall i :: 0 <= i < |head| ==> !(mark <= s[i..])
  {
    if s == "" || mark <= s then ""
    else
      var rest := UpTo(s[1..], mark);
      assert forall i :: 0 < i <= |rest| ==> s[i..] == s[1..][i - 1..];
      [s[0]] + rest
  }

  const SCID := "did:scid:"

  /** Whom a registry is asked about: the DID without its key fragment and, if it is a `did:scid`, without its
      locator. */
  function SignerIdentity(did: string): string {
    var base := UpTo(did, "#");
    if SCID <= base then UpTo(base, "?src=") else base
  }

  lemma UpToAgain(s: string, mark: string, cut: string)
    requires cut <= s && (forall i :: 0 <= i < |s| ==> !(mark <= s[i..])) && mark != ""
    ensures UpTo(cut, mark) == cut
  {
    assert forall i :: 0 <= i <= |cut| ==> cut[i..] <= s[i..];
  }

  /** What an identity is: the DID up to its first `#` or, of a `did:scid`, up to its locator if that comes first. */
  lemma IdentityMeans(did: string)
    ensures var id := SignerIdentity(did);
      && id <= did && '#' !in id
      && (id == did || did[|id|] == '#' || ("did:scid:" <= did && "?src=" <= did[|id|..]))
      && ("did:scid:" <= id ==> forall i :: 0 <= i < |id| ==> !("?src=" <= id[i..]))
  {
    var base, id := UpTo(did, "#"), SignerIdentity(did);
    forall i | 0 <= i < |base| ensures base[i] != '#' {
      assert did[i..][0] == base[i] && !("#" <= did[i..]);
    }
    assert base != did ==> did[|base|..][0] == did[|base|];
    if SCID <= base {
      LocatorCutOff(did, base, id);
    }
    hide UpTo;
  }

  lemma LocatorCutOff(did: string, base: string, id: string)
    requires base <= did && id == UpTo(base, "?src=")
    ensures id <= did && (id == base || "?src=" <= did[|id|..])
    ensures forall i :: 0 <= i < |id| ==> !("?src=" <= id[i..])
  {
    forall i | 0 <= i < |id| ensures !("?src=" <= id[i..]) {
      assert id[i..] <= base[i..] && !("?src=" <= base[i..]);
    }
    assert id != base ==> base[|id|..] <= did[|id|..];
  }

  /** An identity is its own: asking about it asks about the same. */
  lemma IdentityIsItself(did: string)
    ensures SignerIdentity(SignerIdentity(did)) == SignerIdentity(did)
  {
    var base, id := UpTo(did, "#"), SignerIdentity(did);
    forall i | 0 <= i < |base| ensures !("#" <= base[i..]) {
      assert base[i] == did[i] && !("#" <= did[i..]);
    }
    UpToAgain(base, "#", id);
    if SCID <= id {
      forall i | 0 <= i < |id| ensures !("?src=" <= id[i..]) {
        assert !("?src=" <= base[i..]);
      }
      UpToAgain(id, "?src=", id);
    }
  }

  /** The registry said no to `did`'s identity under `resource`. */
  ghost predicate Denied(log: seq<Asked>, did: string, resource: string) {
    exists a :: a in log && a.did == SignerIdentity(did) && a.resource == resource && a.answer.Heard?
             && (a.answer.verdict == Decided(false) || (a.answer.verdict.Rejected? && !a.answer.verdict.retryable))
  }

  /** Why there is no decision on `did`: the registry put it off, an answer about it was lost, or the channel had
      failed for good. */
  ghost predicate Undecided(log: seq<Asked>, resources: seq<string>, did: string, why: string) {
    exists a :: a in log
      && (Latching(a.answer)
          || (a.did == SignerIdentity(did) && a.resource in resources
              && (a.answer == Heard(Rejected(true, why)) || (a.answer.Lost? && a.answer.fault.why == why))))
  }

  /** `decision` is backed by what the channel heard: a grant, after a refusal under each resource before it; refusals
      under all; or why there is none. */
  ghost predicate Backed(log: seq<Asked>, resources: seq<string>, did: string, decision: Decision) {
    match decision
    case Ok(Some(resource)) =>
      exists k :: 0 <= k < |resources| && resources[k] == resource
        && Asked(SignerIdentity(did), resource, Heard(Decided(true))) in log
        && forall j :: 0 <= j < k ==> Denied(log, did, resources[j])
    case Ok(None) => forall r :: r in resources ==> Denied(log, did, r)
    case Err(why) => Undecided(log, resources, did, why)
  }

  lemma DeniedLater(log: seq<Asked>, later: seq<Asked>, did: string, resource: string)
    requires Denied(log, did, resource) && log <= later
    ensures Denied(later, did, resource)
  {
    var a :| a in log && a.did == SignerIdentity(did) && a.resource == resource && a.answer.Heard?
          && (a.answer.verdict == Decided(false) || (a.answer.verdict.Rejected? && !a.answer.verdict.retryable));
    assert a in later;
  }

  lemma UndecidedLater(log: seq<Asked>, later: seq<Asked>, resources: seq<string>, did: string, why: string)
    requires Undecided(log, resources, did, why) && log <= later
    ensures Undecided(later, resources, did, why)
  {
    var a :| a in log
      && (Latching(a.answer)
          || (a.did == SignerIdentity(did) && a.resource in resources
              && (a.answer == Heard(Rejected(true, why)) || (a.answer.Lost? && a.answer.fault.why == why))));
    assert a in later;
  }

  lemma BackedLater(log: seq<Asked>, later: seq<Asked>, resources: seq<string>, did: string, decision: Decision)
    requires Backed(log, resources, did, decision) && log <= later
    ensures Backed(later, resources, did, decision)
  {
    forall r | r in resources && Denied(log, did, r) ensures Denied(later, did, r) {
      DeniedLater(log, later, did, r);
    }
    if decision.Err? {
      UndecidedLater(log, later, resources, did, decision.error);
    }
  }

  /** `log` goes on from `was` with queries that came to what the far side made of them; it broke under the last of
      them alone, if at all. */
  ghost predicate Extends(far: Far, was: seq<Asked>, log: seq<Asked>) {
    && was <= log
    && (forall k :: |was| <= k < |log| ==>
          Happened(far, k, log[k]) && (Breaks(far, k, log[k].did, log[k].resource) <==> Latching(log[k].answer)))
  }

  lemma OneMoreQuery(far: Far, was: seq<Asked>, log: seq<Asked>, a: Asked)
    requires Extends(far, was, log) && Happened(far, |log|, a)
    requires Breaks(far, |log|, a.did, a.resource) <==> Latching(a.answer)
    ensures Extends(far, was, log + [a]) && a in log + [a]
  {
    var more := log + [a];
    forall k | |was| <= k < |more|
      ensures Happened(far, k, more[k]) && (Breaks(far, k, more[k].did, more[k].resource) <==> Latching(more[k].answer))
    {
      if k < |log| {
        assert more[k] == log[k];
      }
    }
  }

  lemma ExtendsNowhere(far: Far, log: seq<Asked>)
    ensures Extends(far, log, log)
  {
  }

  lemma ExtendsThrough(far: Far, a: seq<Asked>, b: seq<Asked>, c: seq<Asked>)
    requires Extends(far, a, b) && Extends(far, b, c)
    ensures Extends(far, a, c)
  {
    hide Happened, Breaks, Latching;
    forall k | |a| <= k < |c|
      ensures Happened(far, k, c[k]) && (Breaks(far, k, c[k].did, c[k].resource) <==> Latching(c[k].answer))
    {
      assert k < |b| ==> b[k] == c[k];
    }
  }

  /** What one query about `did`, the last made, says of it. */
  lemma OneAnswer(log: seq<Asked>, resources: seq<string>, did: string, resource: string, answer: Answer)
    requires resource in resources
    ensures var now := log + [Asked(SignerIdentity(did), resource, answer)];
      match answer
      case Heard(Decided(true)) => Asked(SignerIdentity(did), resource, Heard(Decided(true))) in now
      case Heard(Decided(false)) => Denied(now, did, resource)
      case Heard(Rejected(true, why)) => Undecided(now, resources, did, why)
      case Heard(Rejected(false, _)) => Denied(now, did, resource)
      case Lost(fault) => Undecided(now, resources, did, fault.why)
  {
    hide SignerIdentity;
    var now := log + [Asked(SignerIdentity(did), resource, answer)];
    assert Asked(SignerIdentity(did), resource, answer) in now;
  }

  lemma StillDenied(log: seq<Asked>, later: seq<Asked>, did: string, resources: seq<string>, k: nat)
    requires k <= |resources| && log <= later && forall j :: 0 <= j < k ==> Denied(log, did, resources[j])
    ensures forall j :: 0 <= j < k ==> Denied(later, did, resources[j])
  {
    hide Denied;
    forall j | 0 <= j < k {
      DeniedLater(log, later, did, resources[j]);
    }
  }

  /** Once the channel has failed, every answer is lost and nothing is decided. */
  lemma FailedIsUndecided(log: seq<Asked>, resources: seq<string>, did: string)
    requires |log| > 0 && Latching(log[|log| - 1].answer)
    ensures forall why :: Undecided(log, resources, did, why)
  {
    assert log[|log| - 1] in log;
  }

  /** A signer is asked about at the primary resource and, unless that grants, at the broader one. */
  method QuerySigner(transport: ChannelTransport, far: Far, did: string, resources: seq<string>)
    returns (decision: Decision)
    requires transport.Valid() && |resources| > 0
    modifies transport
    ensures transport.Valid()
    ensures Backed(transport.log, resources, did, decision)
    ensures Extends(far, old(transport.log), transport.log)
    ensures transport.failed.Some? ==> decision.Err?
    ensures old(transport.failed).Some? ==> transport.failed.Some? && transport.log == old(transport.log)
    ensures old(transport.failed).None? && transport.failed.Some? ==>
      transport.log[|transport.log| - 1].did == SignerIdentity(did)
  {
    hide Extends, Happened, Breaks, Denied, Undecided, SignerIdentity;
    ghost var start := transport.log;
    ExtendsNowhere(far, start);
    decision := Ok(None);
    if transport.failed.Some? {
      FailedIsUndecided(start, resources, did);
    }
    for k := 0 to |resources|
      invariant transport.Valid() && Extends(far, start, transport.log)
      invariant forall j :: 0 <= j < k ==> Denied(transport.log, did, resources[j])
      invariant decision == Ok(None)
      invariant k > 0 ==> transport.failed.None? && old(transport.failed).None?
      invariant k == 0 ==> transport.log == start && transport.failed == old(transport.failed)
    {
      ghost var before := transport.log;
      var answer, _ := transport.Exchange("query", SignerIdentity(did), resources[k], far);
      if old(transport.failed).None? {
        OneMoreQuery(far, start, before, Asked(SignerIdentity(did), resources[k], answer));
        OneAnswer(before, resources, did, resources[k], answer);
        StillDenied(before, transport.log, did, resources, k);
      }
      match answer {
        case Heard(Decided(true)) =>
          decision := Ok(Some(resources[k]));
          return;
        case Heard(Decided(false)) =>
        case Heard(Rejected(true, why)) =>
          decision := Err(why);
          return;
        case Heard(Rejected(false, _)) =>
        case Lost(fault) =>
          decision := Err(fault.why);
          return;
      }
    }
  }

  /** One decision per distinct signer, in the order they were asked about. `first` is the place in it of the
      signer under whose query the far side first broke, if it did: its decision and all later ones are errors. */
  method QueryRegistry(transport: ChannelTransport, far: Far, dids: set<string>, resources: seq<string>)
    returns (decisions: map<string, Decision>, order: seq<string>, ghost first: nat)
    requires transport.Valid() && transport.failed.None? && |resources| > 0
    modifies transport
    ensures transport.Valid()
    ensures decisions.Keys == dids && (set did | did in order) == dids
    ensures forall did :: did in dids ==> Backed(transport.log, resources, did, decisions[did])
    ensures Extends(far, old(transport.log), transport.log)
    ensures Latched(far, |old(transport.log)|, transport.log, order, first) && SilentFrom(order, decisions, first)
  {
    hide Extends, Latched, Backed, SignerIdentity;
    decisions, order := map[], [];
    var rest := dids;
    first := 0;
    ghost var start := transport.log;
    ExtendsNowhere(far, start);
    NobodyAsked(far, start);
    while rest != {}
      invariant transport.Valid() && Extends(far, start, transport.log)
      invariant rest <= dids && decisions.Keys == dids - rest && (set did | did in order) == dids - rest
      invariant forall did :: did in decisions ==> Backed(transport.log, resources, did, decisions[did])
      invariant Latched(far, |start|, transport.log, order, first) && SilentFrom(order, decisions, first)
      invariant if transport.failed.Some? then first < |order| else first == |order|
    {
      var did :| did in rest;
      ghost var before, asked, failed := transport.log, decisions, transport.failed.Some?;
      var decision := QuerySigner(transport, far, did, resources);
      StillBacked(far, before, transport.log, resources, asked);
      assert forall j :: 0 <= j < |order| ==> order[j] in set d | d in order;
      OneMoreAsked(far, start, before, transport.log, order, first, did, failed, transport.failed.Some?);
      ExtendsThrough(far, start, before, transport.log);
      decisions, order, rest := decisions[did := decision], order + [did], rest - {did};
      if transport.failed.None? {
        first := |order|;
      }
    }
  }

  lemma StillBacked(far: Far, log: seq<Asked>, later: seq<Asked>, resources: seq<string>,
                    decisions: map<string, Decision>)
    requires Extends(far, log, later)
    requires forall did :: did in decisions ==> Backed(log, resources, did, decisions[did])
    ensures forall did :: did in decisions ==> Backed(later, resources, did, decisions[did])
  {
    forall did | did in decisions ensures Backed(later, resources, did, decisions[did]) {
      BackedLater(log, later, resources, did, decisions[did]);
    }
  }

  lemma NobodyAsked(far: Far, log: seq<Asked>)
    ensures Latched(far, |log|, log, [], 0)
  {
  }

  /** One more signer was asked about, or none was since the channel had failed. */
  lemma OneMoreAsked(far: Far, start: seq<Asked>, before: seq<Asked>, log: seq<Asked>, order: seq<string>, first: nat,
                     did: string, failed: bool, fails: bool)
    requires Extends(far, start, before) && Extends(far, before, log)
    requires Latched(far, |start|, before, order, first) && forall j :: 0 <= j < |order| ==> order[j] != did
    requires failed <==> |before| > 0 && Latching(before[|before| - 1].answer)
    requires fails <==> |log| > 0 && Latching(log[|log| - 1].answer)
    requires forall k :: 0 <= k < |log| - 1 ==> !Latching(log[k].answer)
    requires |start| > 0 ==> !Latching(start[|start| - 1].answer)
    requires failed ==> log == before && first < |order|
    requires !failed ==> first == |order| && (fails ==> log[|log| - 1].did == SignerIdentity(did))
    ensures Latched(far, |start|, log, order + [did], if fails then first else |order| + 1)
  {
    hide Breaks, Latching, SignerIdentity;
    ExtendsThrough(far, start, before, log);
    assert |log| == |start| ==> log == start;
    var more := order + [did];
    assert forall j :: 0 <= j < |order| ==> more[j] == order[j];
    if failed {
      assert |before| > |start|;
    }
  }

  /** `first` is the place in `order` of the signer whose query the far side first broke under, by timeout or
      transport: the last query made from `from` on; the end of `order`, if it broke under none. Nobody is asked about
      twice. */
  ghost predicate Latched(far: Far, from: nat, log: seq<Asked>, order: seq<string>, first: nat) {
    && (forall j, k :: 0 <= j < k < |order| ==> order[j] != order[k])
    && (forall k :: from <= k < |log| - 1 ==> !Breaks(far, k, log[k].did, log[k].resource))
    && (if |log| > from && Breaks(far, |log| - 1, log[|log| - 1].did, log[|log| - 1].resource) then
          first < |order| && SignerIdentity(order[first]) == log[|log| - 1].did
        else first == |order|)
  }

  ghost predicate SilentFrom(order: seq<string>, decisions: map<string, Decision>, first: nat) {
    forall j :: first <= j < |order| ==> order[j] in decisions && decisions[order[j]].Err?
  }

  function StatusOf(check: SignatureCheck, decisions: map<string, Decision>): Status {
    match check
    case NotSigned => Status.Unsigned
    case MalformedSignature(problem) => Status.Malformed(problem)
    case NoDid(committer) => Status.NoSignerDid(committer)
    case ConflictingDids(trailer, committer) => Status.ConflictingSignerDids(trailer, committer)
    case Unresolved(did, error) => Status.UnresolvedSigner(did, error)
    case KeyNotPublished(did, key) => Status.UnknownKey(did, key)
    case DoesNotVerify(did) => Status.BadSignature(did)
    case PgpRefused(problem) => Status.PgpRejected(problem)
    case PlatformKey(fingerprint) => Status.Exempt(fingerprint)
    case Valid(did) =>
      if did !in decisions then Status.RegistryUnavailable(did, "no registry decision recorded")
      else match decisions[did]
        case Ok(Some(resource)) => Status.Trusted(did, resource)
        case Ok(None) => Status.Unauthorized(did)
        case Err(error) => Status.RegistryUnavailable(did, error)
  }

  // ---- The whole check ----

  function CommitsOf(objects: seq<Object>): (r: seq<Commit>)
    ensures |r| == |objects|
    ensures forall i :: 0 <= i < |objects| ==> r[i] == objects[i].commit
  {
    seq(|objects|, i requires 0 <= i < |objects| => objects[i].commit)
  }

  datatype Check = Check(objects: seq<Object>, signers: Signers, keyring: bool, primary: string,
                         fallback: Option<string>, source: MergeSource)
  {
    /** What signers are asked about: the primary resource, then the fallback if it is another. */
    function Resources(): (r: seq<string>)
      ensures r != [] && r[0] == primary && forall i, j :: 0 <= i < j < |r| ==> r[i] != r[j]
      ensures forall x :: x in r <==> x == primary || fallback == Some(x)
    {
      if fallback.Some? && fallback.value != primary then [primary, fallback.value] else [primary]
    }
  }

  /** Commit `i` was signed by the DID it claims, and the registry authorised that DID. */
  ghost predicate Authorised(check: Check, log: seq<Asked>, i: nat)
    requires i < |check.objects|
  {
    exists did, resource ::
      && VouchedBy(check.objects[i].signature, check.signers, did)
      && resource in check.Resources()
      && Asked(SignerIdentity(did), resource, Heard(Decided(true))) in log
  }

  /** The signature is an SSH one in the name of `did` alone. */
  ghost predicate Names(s: Signature, did: string) {
    s.Ssh? && s.conflicting.None? && s.claimed == Some(did)
  }

  /** When a commit has which status, by its signature and the decision on its signer. */
  ghost predicate Fits(s: Signature, signers: Signers, keyring: bool, decisions: map<string, Decision>, st: Status) {
    && SignatureFits(s, keyring, st)
    && (forall did :: (st.UnresolvedSigner? && st.did == did) <==> Names(s, did) && did !in signers.keys)
    && (forall did, key :: st == Status.UnknownKey(did, key) <==>
          Names(s, did) && did in signers.keys && s.key == key && key !in signers.keys[did])
    && (forall did :: st == Status.BadSignature(did) <==>
          Names(s, did) && did in signers.keys && s.key in signers.keys[did] && !s.verifies)
    && DecisionFits(s, signers, decisions, st)
  }

  ghost predicate SignatureFits(s: Signature, keyring: bool, st: Status) {
    && (st == Status.Unsigned <==> s.Absent?)
    && (forall why :: st == Status.Malformed(why) <==>
          s == Garbled(why) || s == UnparsableSsh(why) || s == UnusableKey(why))
    && (st.PgpRejected? <==> s.Pgp? && (!keyring || s.keyringAnswer.Err?))
    && (forall f :: st == Status.Exempt(f) <==> keyring && s == Pgp(Ok(f)))
    && (forall t, c :: st == Status.ConflictingSignerDids(t, c) <==> s.Ssh? && s.conflicting == Some((t, c)))
    && (forall c :: st == Status.NoSignerDid(c) <==>
          s.Ssh? && s.conflicting.None? && s.claimed.None? && s.committer == c)
  }

  /** A commit whose signer vouches for it is what the registry decided on that signer, and no other is. */
  ghost predicate DecisionFits(s: Signature, signers: Signers, decisions: map<string, Decision>, st: Status) {
    && (forall did, resource :: st == Status.Trusted(did, resource) <==>
          VouchedBy(s, signers, did) && did in decisions && decisions[did] == Ok(Some(resource)))
    && (forall did :: st == Status.Unauthorized(did) <==>
          VouchedBy(s, signers, did) && did in decisions && decisions[did] == Ok(None))
    && (forall did, why :: st == Status.RegistryUnavailable(did, why) <==>
          VouchedBy(s, signers, did) && did in decisions && decisions[did] == Err(why))
  }

  lemma SignedStatusFits(s: Signature, signers: Signers, keyring: bool, decisions: map<string, Decision>)
    requires forall did :: VouchedBy(s, signers, did) ==> did in decisions
    ensures SignatureFits(s, keyring, StatusOf(CheckSignature(s, signers, keyring), decisions))
  {
  }

  lemma DecidedStatusFits(s: Signature, signers: Signers, keyring: bool, decisions: map<string, Decision>)
    requires forall did :: VouchedBy(s, signers, did) ==> did in decisions
    ensures DecisionFits(s, signers, decisions, StatusOf(CheckSignature(s, signers, keyring), decisions))
  {
    var check := CheckSignature(s, signers, keyring);
    hide CheckSignature;
    if check.Valid? {
      assert VouchedBy(s, signers, check.did);
    }
  }

  lemma StatusFits(s: Signature, signers: Signers, keyring: bool, decisions: map<string, Decision>)
    requires forall did :: VouchedBy(s, signers, did) ==> did in decisions
    ensures Fits(s, signers, keyring, decisions, StatusOf(CheckSignature(s, signers, keyring), decisions))
  {
    SignedStatusFits(s, signers, keyring, decisions);
    DecidedStatusFits(s, signers, keyring, decisions);
    hide SignatureFits, DecisionFits;
  }

  /** What passes 1 and 2 establish about every status before the policy runs. */
  ghost predicate Grounded(check: Check, log: seq<Asked>, decisions: map<string, Decision>, st: seq<Status>) {
    && |st| == |check.objects|
    && (forall did :: did in decisions ==> Backed(log, check.Resources(), did, decisions[did]))
    && forall i :: 0 <= i < |st| ==> Fits(check.objects[i].signature, check.signers, check.keyring, decisions, st[i])
  }

  /** So a trusted commit is authorised, and the signer of an unauthorised one was refused under every resource. */
  lemma StatusIsGrounded(check: Check, log: seq<Asked>, decisions: map<string, Decision>, st: seq<Status>, i: nat)
    requires Grounded(check, log, decisions, st) && i < |st|
    ensures st[i].Trusted? ==> Authorised(check, log, i)
    ensures st[i].Unauthorized? ==> forall r :: r in check.Resources() ==> Denied(log, st[i].did, r)
    ensures forall f :: st[i] == Exempt(f) <==> check.keyring && check.objects[i].signature == Pgp(Ok(f))
  {
    hide Denied;
    assert Fits(check.objects[i].signature, check.signers, check.keyring, decisions, st[i]);
    if st[i].Trusted? {
      var did := st[i].did;
      assert st[i] == Status.Trusted(did, st[i].resource);
      assert Backed(log, check.Resources(), did, decisions[did]);
    }
    if st[i].Unauthorized? {
      assert st[i] == Status.Unauthorized(st[i].did);
      assert Backed(log, check.Resources(), st[i].did, decisions[st[i].did]);
    }
  }

  /** `st` gives every commit whose valid claimed DID comes at or after `first` in `order` no decision. */
  ghost predicate UnavailableFrom(check: Check, st: seq<Status>, order: seq<string>, first: nat) {
    |st| == |check.objects|
    && forall i, j :: 0 <= i < |st| && first <= j < |order| && VouchedBy(check.objects[i].signature, check.signers, order[j]) ==>
         st[i].RegistryUnavailable?
  }

  /** The statuses are what the signature checks and the registry's decisions make them. */
  ghost predicate FromDecisions(check: Check, st: seq<Status>, decisions: map<string, Decision>) {
    |st| == |check.objects|
    && forall i :: 0 <= i < |st| ==>
         st[i] == StatusOf(CheckSignature(check.objects[i].signature, check.signers, check.keyring), decisions)
  }

  lemma StatusesAreGrounded(check: Check, log: seq<Asked>, decisions: map<string, Decision>, st: seq<Status>)
    requires FromDecisions(check, st, decisions)
    requires forall did :: did in decisions ==> Backed(log, check.Resources(), did, decisions[did])
    requires forall i, did :: 0 <= i < |check.objects| && VouchedBy(check.objects[i].signature, check.signers, did) ==>
      did in decisions
    ensures Grounded(check, log, decisions, st)
  {
    hide Fits, VouchedBy;
    forall i: nat | i < |st|
      ensures Fits(check.objects[i].signature, check.signers, check.keyring, decisions, st[i])
    {
      StatusFits(check.objects[i].signature, check.signers, check.keyring, decisions);
    }
  }

  lemma SilenceIsUnavailable(check: Check, decisions: map<string, Decision>, st: seq<Status>, order: seq<string>,
                             first: nat)
    requires FromDecisions(check, st, decisions) && SilentFrom(order, decisions, first)
    ensures UnavailableFrom(check, st, order, first)
  {
    forall i, j | 0 <= i < |st| && first <= j < |order| && VouchedBy(check.objects[i].signature, check.signers, order[j])
      ensures st[i].RegistryUnavailable?
    {
      assert CheckSignature(check.objects[i].signature, check.signers, check.keyring) == Valid(order[j]);
    }
  }

  lemma AsDecided(check: Check, st: seq<Status>, decisions: map<string, Decision>)
    requires |st| == |check.objects|
    requires forall i :: 0 <= i < |st| ==>
      st[i] == StatusOf(CheckSignature(check.objects[i].signature, check.signers, check.keyring), decisions)
    ensures FromDecisions(check, st, decisions)
  {
  }

  /** Passes 1 and 2. `order` lists the signers as they were asked about, `first` the place where the channel
      failed, if it did. */
  method InitialVerdicts(check: Check, transport: ChannelTransport, far: Far)
    returns (verdicts: array<Status>, decisions: map<string, Decision>, order: seq<string>, ghost first: nat)
    requires transport.Valid() && transport.failed.None?
    modifies transport
    ensures transport.Valid() && fresh(verdicts)
    ensures Grounded(check, transport.log, decisions, verdicts[..])
    ensures Extends(far, old(transport.log), transport.log)
    ensures Latched(far, |old(transport.log)|, transport.log, order, first)
    ensures UnavailableFrom(check, verdicts[..], order, first)
    ensures forall i, did :: 0 <= i < |check.objects| && VouchedBy(check.objects[i].signature, check.signers, did) ==>
      did in order
  {
    hide Authorised, Denied, Latched, Extends, VouchedBy, StatusOf, FromDecisions, UnavailableFrom, Grounded;
    var n := |check.objects|;
    var checks := seq(n, i requires 0 <= i < n => CheckSignature(check.objects[i].signature, check.signers, check.keyring));
    var dids := set i | 0 <= i < n && checks[i].Valid? :: checks[i].did;
    decisions, order, first := QueryRegistry(transport, far, dids, check.Resources());
    ghost var asked := order;
    verdicts := new Status[n](i requires 0 <= i < n => StatusOf(checks[i], decisions));
    assert FromDecisions(check, verdicts[..], decisions) by {
      AsDecided(check, verdicts[..], decisions);
    }
    forall i, did | 0 <= i < n && VouchedBy(check.objects[i].signature, check.signers, did) ensures did in decisions {
      assert checks[i] == Valid(did) && checks[i].did in dids;
    }
    StatusesAreGrounded(check, transport.log, decisions, verdicts[..]);
    SilenceIsUnavailable(check, decisions, verdicts[..], order, first);
    forall i, did | 0 <= i < n && VouchedBy(check.objects[i].signature, check.signers, did) ensures did in order {
      assert checks[i] == Valid(did) && checks[i].did in dids;
      assert did in set d | d in asked;
    }
  }

  // ---- Soundness of an ok report ----

  /** Commit `j` of the list is a parent of commit `i`. */
  ghost predicate IsParent(commits: seq<Commit>, i: nat, j: nat)
    requires i < |commits|
  {
    exists p :: p in commits[i].parents && Position(commits, p) == Some(j)
  }

  /** `walk` goes from listed commit to listed commit through the parents of exempt merges. */
  ghost predicate MergeWalk(commits: seq<Commit>, st: seq<Status>, walk: seq<nat>) {
    && |commits| == |st|
    && (forall k :: 0 <= k < |walk| ==> walk[k] < |st|)
    && forall k :: 0 <= k < |walk| - 1 ==> st[walk[k]].Exempt? && IsParent(commits, walk[k], walk[k + 1])
  }

  lemma StepDescends(commits: seq<Commit>, ans: Answers, st0: seq<Status>, i: nat, j: nat, depth: nat)
    requires |commits| == |st0| && i < |st0| && j < |st0|
    requires depth > 0 && i in DerivedBy(commits, ans, st0, depth) && !st0[i].Trusted?
    requires IsParent(commits, i, j)
    ensures j in DerivedBy(commits, ans, st0, depth - 1)
  {
    var p :| p in commits[i].parents && Position(commits, p) == Some(j);
    assert Rule(commits, ans, st0, DerivedBy(commits, ans, st0, depth - 1), i);
    assert |commits[i].parents| == 2;
    assert p == commits[i].parents[0] || p == commits[i].parents[1];
  }

  lemma WalkGoesOn(commits: seq<Commit>, st: seq<Status>, walk: seq<nat>)
    requires MergeWalk(commits, st, walk) && |walk| > 1
    ensures walk[0] < |st| && walk[1] < |st| && st[walk[0]].Exempt? && MergeWalk(commits, st, walk[1..])
    ensures IsParent(commits, walk[0], walk[1])
  {
    hide IsParent;
    var rest := walk[1..];
    assert forall k :: 0 <= k < |rest| ==> rest[k] == walk[k + 1];
    forall k | 0 <= k < |rest| - 1 ensures st[rest[k]].Exempt? && IsParent(commits, rest[k], rest[k + 1]) {
      assert IsParent(commits, walk[k + 1], walk[k + 2]);
    }
  }

  lemma {:induction false} WalkIsShort(commits: seq<Commit>, ans: Answers, st0: seq<Status>, walk: seq<nat>, depth: nat)
    requires |commits| == |st0| && |walk| > 0 && MergeWalk(commits, st0, walk)
    requires walk[0] in DerivedBy(commits, ans, st0, depth)
    ensures |walk| <= depth
  {
    assert depth > 0;
    hide *;
    if |walk| > 1 {
      WalkGoesOn(commits, st0, walk);
      StepDescends(commits, ans, st0, walk[0], walk[1], depth);
      WalkIsShort(commits, ans, st0, walk[1..], depth - 1);
    }
  }

  /** A platform-signed two-parent merge whose tree is the one git (or the facts) gives for merging its parents, each
      of which is listed or lies on the boundary. */
  ghost predicate CleanPlatformMerge(check: Check, i: nat)
    requires i < |check.objects|
  {
    var commits := CommitsOf(check.objects);
    && check.keyring && check.objects[i].signature.Pgp? && check.objects[i].signature.keyringAnswer.Ok?
    && MergedIn(check.source, commits[i])
    && (forall p :: p in commits[i].parents ==> Position(commits, p).Some? || OnBoundary(check.source, p))
  }

  lemma GroundedLength(check: Check, log: seq<Asked>, decisions: map<string, Decision>, st: seq<Status>)
    requires Grounded(check, log, decisions, st)
    ensures |st| == |check.objects|
  {
  }

  lemma RuleIsSound(check: Check, log: seq<Asked>, decisions: map<string, Decision>, initial: seq<Status>,
                    passing: set<nat>, i: nat)
    requires Grounded(check, log, decisions, initial) && i < |initial|
    requires Rule(CommitsOf(check.objects), AnswersOf(check.source), initial, passing, i)
    ensures Authorised(check, log, i) || CleanPlatformMerge(check, i)
  {
    hide Authorised, Grounded;
    var commits := CommitsOf(check.objects);
    GroundedLength(check, log, decisions, initial);
    StatusIsGrounded(check, log, decisions, initial, i);
    if initial[i].Exempt? {
      assert initial[i] == Exempt(initial[i].fingerprint);
      assert forall p :: p in commits[i].parents ==> p == commits[i].parents[0] || p == commits[i].parents[1];
      forall p ensures p in AnswersOf(check.source).boundary <==> OnBoundary(check.source, p) {
        AnswersMean(check.source, commits[i], p);
      }
    }
  }

  /** MAIN RESULT. In a passing report every commit is either signed by a DID that publishes its key and
      that the registry authorised, or a clean platform merge of parents that are listed (and so pass
      too) or lie on the boundary. */
  lemma OkReportIsSound(check: Check, log: seq<Asked>, decisions: map<string, Decision>, initial: seq<Status>, i: nat)
    requires Grounded(check, log, decisions, initial) && i < |initial|
    requires i in PassingIn(Policy(CommitsOf(check.objects), AnswersOf(check.source), initial))
    ensures Authorised(check, log, i) || CleanPlatformMerge(check, i)
  {
    var commits, ans := CommitsOf(check.objects), AnswersOf(check.source);
    PolicyIsLeastFixpoint(commits, ans, initial);
    var passing := PassingIn(Policy(commits, ans, initial));
    assert i in RuleSet(commits, ans, initial, passing);
    RuleIsSound(check, log, decisions, initial, passing, i);
  }

  /** MAIN RESULT. Walking back from a passing commit through exempt merges always ends: `bound` limits
      every walk from it, so no ring of merges vouches for itself. */
  lemma MergeWalksEnd(commits: seq<Commit>, ans: Answers, initial: seq<Status>, i: nat) returns (bound: nat)
    requires |commits| == |initial| && i in PassingIn(Policy(commits, ans, initial))
    ensures forall walk :: |walk| > 0 && walk[0] == i && MergeWalk(commits, initial, walk) ==> |walk| <= bound
  {
    PassingIsDerivable(commits, ans, initial, i);
    bound :| i in DerivedBy(commits, ans, initial, bound);
    forall walk | |walk| > 0 && walk[0] == i && MergeWalk(commits, initial, walk) ensures |walk| <= bound {
      WalkIsShort(commits, ans, initial, walk, bound);
    }
  }

  /** No walk back from commit `i` through exempt merges is longer than `bound`. */
  ghost predicate WalksEnd(commits: seq<Commit>, st: seq<Status>, i: nat, bound: nat) {
    forall walk :: |walk| > 0 && walk[0] == i && MergeWalk(commits, st, walk) ==> |walk| <= bound
  }

  /** Every commit is authorised, or a clean platform merge of commits of the report (or of the boundary), and
      walking back through the merges ends. */
  ghost predicate SoundReport(check: Check, log: seq<Asked>, initial: seq<Status>) {
    |initial| == |check.objects|
    && forall i :: 0 <= i < |check.objects| ==>
         && (Authorised(check, log, i) || CleanPlatformMerge(check, i))
         && exists bound :: WalksEnd(CommitsOf(check.objects), initial, i, bound)
  }

  lemma OkMeansSound(check: Check, log: seq<Asked>, decisions: map<string, Decision>, initial: seq<Status>)
    requires Grounded(check, log, decisions, initial)
    requires forall i :: 0 <= i < |initial| ==>
      Policy(CommitsOf(check.objects), AnswersOf(check.source), initial)[i].Passes()
    ensures SoundReport(check, log, initial)
  {
    forall i | 0 <= i < |check.objects|
      ensures Authorised(check, log, i) || CleanPlatformMerge(check, i)
      ensures exists bound :: WalksEnd(CommitsOf(check.objects), initial, i, bound)
    {
      OkReportIsSound(check, log, decisions, initial, i);
      var bound := MergeWalksEnd(CommitsOf(check.objects), AnswersOf(check.source), initial, i);
      assert WalksEnd(CommitsOf(check.objects), initial, i, bound);
    }
  }

  /** MAIN RESULT. The three passes. A report that is ok is sound, commit by commit. And if a registry query fails
      by timeout or transport, the report has no decision on the signer it was about or on any asked about after:
      neither authorised nor unauthorised, but unavailable. */
  method VerifyPrepared(check: Check, transport: ChannelTransport, far: Far)
    returns (res: Result<(bool, seq<Status>), string>, ghost initial: seq<Status>,
             ghost decisions: map<string, Decision>, ghost order: seq<string>, ghost first: nat)
    requires transport.Valid() && transport.failed.None?
    modifies transport
    ensures transport.Valid()
    ensures Grounded(check, transport.log, decisions, initial)
    ensures res.Ok? ==> res.value.1 == Policy(CommitsOf(check.objects), AnswersOf(check.source), initial)
    ensures res.Ok? ==> KeptAsMeant(CommitsOf(check.objects), check.source, initial, res.value.1)
    ensures res.Ok? ==> forall i :: 0 <= i < |initial| && !initial[i].Exempt? ==> res.value.1[i] == initial[i]
    ensures res.Ok? ==>
      (res.value.0 <==> forall i :: 0 <= i < |res.value.1| ==> res.value.1[i].Trusted? || res.value.1[i].Exempt?)
    ensures res.Ok? && res.value.0 ==> SoundReport(check, transport.log, initial)
    ensures Extends(far, old(transport.log), transport.log)
    ensures Latched(far, |old(transport.log)|, transport.log, order, first)
    ensures forall i, did :: 0 <= i < |check.objects| && VouchedBy(check.objects[i].signature, check.signers, did) ==>
      did in order
    ensures UnavailableFrom(check, initial, order, first)
    ensures res.Ok? ==> UnavailableFrom(check, res.value.1, order, first)
    ensures res.Err? ==> SomeUnanswered(CommitsOf(check.objects), check.source, initial)
  {
    hide Authorised, Latched, Extends, Grounded, SoundReport, VouchedBy, KeptAsMeant, NothingGuessed, SomeUnanswered;
    var verdicts, decided, asked, at := InitialVerdicts(check, transport, far);
    initial, decisions, order, first := verdicts[..], decided, asked, at;
    assert |initial| == |check.objects| by {
      GroundedLength(check, transport.log, decisions, initial);
    }
    var policy := ApplyPlatformMergePolicy(check.source, CommitsOf(check.objects), verdicts);
    if policy.Err? {
      return Err(policy.error), initial, decisions, order, first;
    }
    var final := verdicts[..];
    PolicyIsLeastFixpoint(CommitsOf(check.objects), AnswersOf(check.source), initial);
    var ok := forall i :: 0 <= i < |final| ==> final[i].Passes();
    if ok {
      OkMeansSound(check, transport.log, decisions, initial);
    }
    res := Ok((ok, final));
  }
}
