/** The writer lease between several hosts (crates/vgi-bridge/src/appstate.rs): every interleaving of
    acquiring, renewing, writing and releasing, over one conditional record, with real clocks.

    Times are seconds of the remote's clock. `skew` bounds how far any host's wall clock is from it; the
    hosts' monotonic clocks are taken to run at its rate. A request is applied within `REQUEST_TIMEOUT`
    of being sent or not at all, and a host acts on an answer within that time of sending its request. */
module LeaseProtocol {
  import opened Wrappers
  import opened Keys
  import opened AppState
  import opened Mirroring

  const TTL: real := LEASE_TTL_SECS as real
  const REQUEST_TIMEOUT: real := 20.0

  /** The live lease record: its version, whose it is, until when it says, and when it was written. */
  datatype Claim = Claim(version: nat, holder: string, until: int, at: int)

  /** Where one holder is. `base` is the monotonic time from which a held lease's deadline is counted. */
  datatype Phase =
    | Idle
    | Reading(now: int, began: real)
    | Decided(now: int, began: real, expected: nat)
    | Claiming(now: int, began: real, expected: nat, sent: real)
    | Holding(version: nat, base: real)
    | Renewing(version: nat, base: real, until: int, sent: real)
    | Writing(version: nat, base: real, checked: real)
  {
    predicate Holds() {
      Holding? || Renewing? || Writing?
    }
  }

  datatype State = State(time: real, counter: nat, lease: Option<Claim>, phases: map<string, Phase>)

  function PhaseOf(s: State, h: string): Phase {
    if h in s.phases then s.phases[h] else Idle
  }

  function Enter(s: State, h: string, p: Phase): State {
    s.(phases := s.phases[h := p])
  }

  function LeaseVersion(s: State): Option<nat> {
    if s.lease.Some? then Some(s.lease.value.version) else None
  }

  /** The record as an acquiring writer reads it. */
  function AsRead(s: State): Option<(Entry, Option<int>)> {
    match s.lease
    case None => None
    case Some(c) => Some((Entry(c.version, Some(LeaseClaim(c.holder, c.until))), Some(c.at)))
  }

  function Expiry(c: Claim): int {
    LeaseExpiry(LeaseClaim(c.holder, c.until), Some(c.at)).value
  }

  /** A wall clock within `skew` of the remote's reads `now` (whole seconds) at `time`. */
  predicate Reads(skew: real, now: int, time: real) {
    time - skew - 1.0 < now as real <= time + skew
  }

  /** Put the lease record for `h` if it is at `expected`, counting its deadline from `sent`. */
  function Conditional(s: State, h: string, expected: nat, until: int, sent: real, answered: bool): State {
    if !Precondition(LeaseVersion(s), Some(expected)) then
      Enter(s, h, Idle)
    else
      Enter(s, h, if answered then Holding(s.counter + 1, sent) else Idle)
        .(counter := s.counter + 1, lease := Some(Claim(s.counter + 1, h, until, s.time.Floor)))
  }

  datatype Step =
    | Elapse(seconds: real)
    | OtherWrites(n: nat)
    | BeginAcquire(h: string, now: int)
    | Get(h: string)
    | SendClaim(h: string)
    | ClaimApplied(h: string, answered: bool)
    | CheckLease(h: string)
    | SendRenewal(h: string, until: int)
    | RenewalApplied(h: string, answered: bool)
    | WriteApplied(h: string)
    | Release(h: string)
    | Abandon(h: string)

  /** `t` is what `step` makes of `s`. Only with `clocked` do the clocks and timeouts restrain anything.
      The answer to a claim or a renewal that was applied may be lost; a write that is given up on
      (`Abandon`) is not applied later. */
  predicate Next(clocked: bool, skew: real, s: State, step: Step, t: State) {
    match step
    case Elapse(d) => d >= 0.0 && t == s.(time := s.time + d)
    case OtherWrites(n) => t == s.(counter := s.counter + n)
    case BeginAcquire(h, now) =>
      PhaseOf(s, h).Idle? && (clocked ==> Reads(skew, now, s.time)) && t == Enter(s, h, Reading(now, s.time))
    case Get(h) =>
      && PhaseOf(s, h).Reading?
      && var p := PhaseOf(s, h);
         var expected := AcquireExpecting(AsRead(s), h, p.now);
         t == Enter(s, h, if expected.None? then Idle else Decided(p.now, p.began, expected.value))
    case SendClaim(h) =>
      && PhaseOf(s, h).Decided?
      && var p := PhaseOf(s, h);
         && (clocked ==> s.time <= p.began + REQUEST_TIMEOUT)
         && t == Enter(s, h, Claiming(p.now, p.began, p.expected, s.time))
    case ClaimApplied(h, answered) =>
      && PhaseOf(s, h).Claiming?
      && var p := PhaseOf(s, h);
         && (clocked ==> s.time <= p.sent + REQUEST_TIMEOUT)
         && t == Conditional(s, h, p.expected, p.now + LEASE_TTL_SECS, p.sent, answered)
    case CheckLease(h) =>
      && PhaseOf(s, h).Holding?
      && var p := PhaseOf(s, h);
         && (clocked ==> p.base + TTL - s.time > TTL / 2.0)
         && t == Enter(s, h, Writing(p.version, p.base, s.time))
    case SendRenewal(h, until) =>
      && PhaseOf(s, h).Holding?
      && var p := PhaseOf(s, h);
         && (clocked ==> 0.0 < p.base + TTL - s.time <= TTL / 2.0 && Reads(skew, until - LEASE_TTL_SECS, s.time))
         && t == Enter(s, h, Renewing(p.version, p.base, until, s.time))
    case RenewalApplied(h, answered) =>
      && PhaseOf(s, h).Renewing?
      && var p := PhaseOf(s, h);
         && (clocked ==> s.time <= p.sent + REQUEST_TIMEOUT)
         && t == Conditional(s, h, p.version, p.until, p.sent, answered)
    case WriteApplied(h) =>
      && PhaseOf(s, h).Writing?
      && var p := PhaseOf(s, h);
         && (clocked ==> s.time <= p.checked + REQUEST_TIMEOUT)
         && t == Enter(s, h, Holding(p.version, p.base)).(counter := s.counter + 1)
    case Release(h) =>
      && PhaseOf(s, h).Holding?
      && var s' := Enter(s, h, Idle);
         t == if LeaseVersion(s) == Some(PhaseOf(s, h).version)
              then s'.(lease := None, counter := s.counter + 1)
              else s'
    case Abandon(h) => t == Enter(s, h, Idle)
  }

  predicate Start(s: State) {
    s.lease.None? && s.phases == map[]
  }

  /** A run: each step leads from one state to the next. */
  ghost predicate Run(clocked: bool, skew: real, states: seq<State>, steps: seq<Step>) {
    && |states| == |steps| + 1
    && Start(states[0])
    && forall i :: 0 <= i < |steps| ==> Next(clocked, skew, states[i], steps[i], states[i + 1])
  }

  ghost predicate Reachable(clocked: bool, skew: real, s: State) {
    exists states, steps :: Run(clocked, skew, states, steps) && states[|steps|] == s
  }

  /** Who takes the step, if a holder does. */
  function Actor(step: Step): Option<string> {
    if step.Elapse? || step.OtherWrites? then None else Some(step.h)
  }

  lemma OthersStay(clocked: bool, skew: real, s: State, step: Step, t: State, h: string)
    requires Next(clocked, skew, s, step, t) && Actor(step) != Some(h)
    ensures PhaseOf(t, h) == PhaseOf(s, h)
  {
  }

  // ---- Without clocks: a version is held by one holder at most ----

  /** `h` holds no version newer than the counter, and the live record only if it is its own. */
  predicate OwnsWhatItHolds(s: State, h: string) {
    PhaseOf(s, h).Holds() ==>
      && 0 < PhaseOf(s, h).version <= s.counter
      && (LeaseVersion(s) == Some(PhaseOf(s, h).version) ==> s.lease.value.holder == h)
  }

  predicate Apart(s: State, g: string, h: string) {
    g != h && PhaseOf(s, g).Holds() && PhaseOf(s, h).Holds() ==> PhaseOf(s, g).version != PhaseOf(s, h).version
  }

  ghost predicate OneHolder(s: State) {
    && (s.lease.Some? ==> 0 < s.lease.value.version <= s.counter)
    && (forall h :: OwnsWhatItHolds(s, h))
    && (forall g, h :: Apart(s, g, h))
  }

  lemma OwnershipKept(clocked: bool, skew: real, s: State, step: Step, t: State, h: string)
    requires OneHolder(s) && Next(clocked, skew, s, step, t)
    ensures OwnsWhatItHolds(t, h)
  {
    assert OwnsWhatItHolds(s, h);
    if Actor(step) != Some(h) {
      OthersStay(clocked, skew, s, step, t, h);
    }
  }

  lemma ApartKept(clocked: bool, skew: real, s: State, step: Step, t: State, g: string, h: string)
    requires OneHolder(s) && Next(clocked, skew, s, step, t)
    ensures Apart(t, g, h)
  {
    assert OwnsWhatItHolds(s, h) && OwnsWhatItHolds(s, g) && Apart(s, g, h) && Apart(s, h, g);
    if g != h {
      if Actor(step) != Some(h) {
        OthersStay(clocked, skew, s, step, t, h);
      }
      if Actor(step) != Some(g) {
        OthersStay(clocked, skew, s, step, t, g);
      }
    }
  }

  lemma StepKeepsOneHolder(clocked: bool, skew: real, s: State, step: Step, t: State)
    requires OneHolder(s) && Next(clocked, skew, s, step, t)
    ensures OneHolder(t)
  {
    forall h ensures OwnsWhatItHolds(t, h) {
      OwnershipKept(clocked, skew, s, step, t, h);
    }
    forall g, h ensures Apart(t, g, h) {
      ApartKept(clocked, skew, s, step, t, g, h);
    }
  }

  /** MAIN RESULT. In every run, whatever the clocks do, at most one holder carries the live version of the
      lease, and the record names that holder: nobody renews or releases another's lease. */
  lemma {:induction false} LiveLeaseHasOneHolder(clocked: bool, skew: real, states: seq<State>, steps: seq<Step>,
                                                 i: nat)
    requires Run(clocked, skew, states, steps) && i < |states|
    ensures OneHolder(states[i])
  {
    if i > 0 {
      LiveLeaseHasOneHolder(clocked, skew, states, steps, i - 1);
      StepKeepsOneHolder(clocked, skew, states[i - 1], steps[i - 1], states[i]);
    }
  }

  // ---- With clocks: a write is applied while its lease is live ----

  /** What a claim recorded about the lease it read still bounds the live record of that version. */
  predicate ClaimGrounded(skew: real, s: State, h: string, now: int, began: real, expected: nat) {
    && now as real <= began + skew
    && began - skew - 1.0 < now as real
    && began <= s.time
    && expected <= s.counter
    && (expected > 0 && LeaseVersion(s) == Some(expected) ==> s.lease.value.holder == h || Expiry(s.lease.value) < now)
  }

  /** The earliest another writer can have taken a lease whose deadline is counted from `base`. */
  function TakeableAt(skew: real, base: real): real {
    base + TTL - REQUEST_TIMEOUT - 2.0 * skew
  }

  /** A held lease is still the live record, running until late enough, or it is late enough for it to have gone. */
  predicate Live(skew: real, s: State, version: nat, base: real) {
    || (LeaseVersion(s) == Some(version) && TakeableAt(skew, base) < Expiry(s.lease.value) as real + 1.0 - skew)
    || TakeableAt(skew, base) < s.time
  }

  /** What holds of `h` at all times in a clocked run. */
  predicate Timely(skew: real, s: State, h: string) {
    match PhaseOf(s, h)
    case Idle => true
    case Reading(now, began) => now as real <= began + skew && began - skew - 1.0 < now as real && began <= s.time
    case Decided(now, began, expected) => ClaimGrounded(skew, s, h, now, began, expected)
    case Claiming(now, began, expected, sent) =>
      ClaimGrounded(skew, s, h, now, began, expected) && sent <= began + REQUEST_TIMEOUT && sent <= s.time
    case Holding(version, base) => Live(skew, s, version, base)
    case Renewing(version, base, until, sent) =>
      Live(skew, s, version, base) && sent - skew - 1.0 < (until - LEASE_TTL_SECS) as real && sent <= s.time
    case Writing(version, base, checked) => Live(skew, s, version, base) && checked < base + TTL / 2.0
  }

  ghost predicate AllTimely(skew: real, s: State) {
    forall h :: Timely(skew, s, h)
  }

  lemma AcquiringIsTimely(skew: real, s: State, step: Step, t: State, h: string)
    requires skew >= 0.0 && OneHolder(s) && Timely(skew, s, h) && Next(true, skew, s, step, t) && Actor(step) == Some(h)
    requires step.BeginAcquire? || step.Get? || step.SendClaim? || step.Abandon?
    ensures Timely(skew, t, h)
  {
  }

  lemma ClaimingIsTimely(skew: real, s: State, answered: bool, t: State, h: string)
    requires skew >= 0.0 && OneHolder(s) && Timely(skew, s, h) && Next(true, skew, s, ClaimApplied(h, answered), t)
    ensures Timely(skew, t, h)
  {
  }

  lemma RenewingIsTimely(skew: real, s: State, step: Step, t: State, h: string)
    requires skew >= 0.0 && OneHolder(s) && Timely(skew, s, h) && Next(true, skew, s, step, t) && Actor(step) == Some(h)
    requires step.SendRenewal? || step.RenewalApplied?
    ensures Timely(skew, t, h)
  {
    assert OwnsWhatItHolds(s, h);
  }

  lemma HoldingIsTimely(skew: real, s: State, step: Step, t: State, h: string)
    requires skew >= 0.0 && OneHolder(s) && Timely(skew, s, h) && Next(true, skew, s, step, t) && Actor(step) == Some(h)
    requires step.CheckLease? || step.WriteApplied? || step.Release?
    ensures Timely(skew, t, h)
  {
  }

  /** The holder's own step. */
  lemma OwnStepIsTimely(skew: real, s: State, step: Step, t: State, h: string)
    requires skew >= 0.0 && OneHolder(s) && Timely(skew, s, h) && Next(true, skew, s, step, t) && Actor(step) == Some(h)
    ensures Timely(skew, t, h)
  {
    hide OneHolder, Timely, Next;
    match step
    case ClaimApplied(_, answered) => ClaimingIsTimely(skew, s, answered, t, h);
    case SendRenewal(_, _) => RenewingIsTimely(skew, s, step, t, h);
    case RenewalApplied(_, _) => RenewingIsTimely(skew, s, step, t, h);
    case CheckLease(_) => HoldingIsTimely(skew, s, step, t, h);
    case WriteApplied(_) => HoldingIsTimely(skew, s, step, t, h);
    case Release(_) => HoldingIsTimely(skew, s, step, t, h);
    case _ => AcquiringIsTimely(skew, s, step, t, h);
  }

  /** A claim by `g` that is applied took the lease of `h` only once it could have run out. */
  lemma TakenOnlyWhenRunOut(skew: real, s: State, answered: bool, t: State, g: string, h: string)
    requires skew >= 0.0 && OneHolder(s) && Timely(skew, s, h) && Timely(skew, s, g) && g != h
    requires Next(true, skew, s, ClaimApplied(g, answered), t)
    ensures Timely(skew, t, h)
  {
    OthersStay(true, skew, s, ClaimApplied(g, answered), t, h);
    assert OwnsWhatItHolds(s, h);
  }

  /** No step of another holder but a claim ends a lease that `h` holds. */
  lemma OnlyClaimsTake(skew: real, s: State, step: Step, t: State, h: string)
    requires OneHolder(s) && Next(true, skew, s, step, t) && Actor(step) != Some(h) && !step.ClaimApplied?
    requires PhaseOf(s, h).Holds() && LeaseVersion(s) == Some(PhaseOf(s, h).version)
    ensures t.lease == s.lease
  {
    if Actor(step).Some? {
      assert Apart(s, step.h, h);
    }
  }

  /** The lease record of a version never changes. */
  lemma VersionsAreRecordedOnce(skew: real, s: State, step: Step, t: State)
    requires OneHolder(s) && Next(true, skew, s, step, t)
    ensures s.counter <= t.counter && s.time <= t.time
    ensures t.lease.Some? && t.lease.value.version <= s.counter ==> t.lease == s.lease
  {
  }

  lemma OthersStepIsTimely(skew: real, s: State, step: Step, t: State, h: string)
    requires skew >= 0.0 && OneHolder(s) && AllTimely(skew, s) && Next(true, skew, s, step, t) && Actor(step) != Some(h)
    ensures Timely(skew, t, h)
  {
    assert OwnsWhatItHolds(s, h) && Timely(skew, s, h);
    if step.ClaimApplied? {
      assert Timely(skew, s, step.h);
      TakenOnlyWhenRunOut(skew, s, step.answered, t, step.h, h);
    } else {
      OthersStay(true, skew, s, step, t, h);
      VersionsAreRecordedOnce(skew, s, step, t);
      if PhaseOf(s, h).Holds() && LeaseVersion(s) == Some(PhaseOf(s, h).version) {
        OnlyClaimsTake(skew, s, step, t, h);
      }
      hide Next;
    }
  }

  lemma {:induction false} ClockedRunIsTimely(skew: real, states: seq<State>, steps: seq<Step>, i: nat)
    requires skew >= 0.0 && Run(true, skew, states, steps) && i < |states|
    ensures OneHolder(states[i]) && AllTimely(skew, states[i])
  {
    LiveLeaseHasOneHolder(true, skew, states, steps, i);
    if i > 0 {
      var s, step, t := states[i - 1], steps[i - 1], states[i];
      ClockedRunIsTimely(skew, states, steps, i - 1);
      forall h ensures Timely(skew, t, h) {
        if Actor(step) == Some(h) {
          OwnStepIsTimely(skew, s, step, t, h);
        } else {
          OthersStepIsTimely(skew, s, step, t, h);
        }
      }
    }
  }

  /** A write that can still be applied is one whose lease is the live record, and its sender's. */
  ghost predicate WritesAreCovered(s: State) {
    forall h :: PhaseOf(s, h).Writing? && s.time <= PhaseOf(s, h).checked + REQUEST_TIMEOUT ==>
      LeaseVersion(s) == Some(PhaseOf(s, h).version) && s.lease.value.holder == h
  }

  /** In every clocked run no other holder's claim is applied between a write being sent and being applied. */
  ghost predicate Excludes(skew: real) {
    forall s :: Reachable(true, skew, s) ==> WritesAreCovered(s)
  }

  lemma SmallSkewExcludes(skew: real)
    requires skew >= 0.0 && 2.0 * skew + 2.0 * REQUEST_TIMEOUT <= TTL / 2.0
    ensures Excludes(skew)
  {
    forall s | Reachable(true, skew, s) ensures WritesAreCovered(s) {
      var states, steps :| Run(true, skew, states, steps) && states[|steps|] == s;
      ClockedRunIsTimely(skew, states, steps, |steps|);
      forall h | PhaseOf(s, h).Writing? && s.time <= PhaseOf(s, h).checked + REQUEST_TIMEOUT
        ensures LeaseVersion(s) == Some(PhaseOf(s, h).version) && s.lease.value.holder == h
      {
        assert Timely(skew, s, h) && OwnsWhatItHolds(s, h);
      }
    }
  }

  lemma StepIsReachable(skew: real, s: State, step: Step, t: State)
    requires Reachable(true, skew, s) && Next(true, skew, s, step, t)
    ensures Reachable(true, skew, t)
  {
    var states, steps :| Run(true, skew, states, steps) && states[|steps|] == s;
    assert Run(true, skew, states + [t], steps + [step]);
    assert (states + [t])[|steps + [step]|] == t;
  }

  /** `a` at `time` holds version 1, taken by a clock that is slow by all but `d` of the most it may be. */
  function SlowHolder(time: real, d: real, skew: real, p: Phase): State {
    State(time, 1, Some(Claim(1, "a", 120, (skew + 21.0 - d).Floor)), map["a" := p])
  }

  lemma SlowClockClaims(skew: real, d: real)
    requires skew > 10.0 && 0.0 < d <= 0.5
    ensures Reachable(true, skew, SlowHolder(skew + 21.0 - d, d, skew, Holding(1, skew + 21.0 - d)))
  {
    var began := skew + 1.0 - d;
    var s0 := State(began, 0, None, map[]);
    var none: seq<Step> := [];
    assert Run(true, skew, [s0], none);
    assert [s0][|none|] == s0;
    var s1 := Enter(s0, "a", Reading(0, began));
    StepIsReachable(skew, s0, BeginAcquire("a", 0), s1);
    var s2 := Enter(s1, "a", Decided(0, began, 0));
    StepIsReachable(skew, s1, Get("a"), s2);
    var s3 := s2.(time := s2.time + 20.0);
    StepIsReachable(skew, s2, Elapse(20.0), s3);
    var s4 := Enter(s3, "a", Claiming(0, began, 0, s3.time));
    StepIsReachable(skew, s3, SendClaim("a"), s4);
    var s5 := SlowHolder(skew + 21.0 - d, d, skew, Holding(1, skew + 21.0 - d));
    assert s5.phases == s4.phases["a" := Holding(1, skew + 21.0 - d)];
    StepIsReachable(skew, s4, ClaimApplied("a", true), s5);
  }

  lemma FastClockTakes(skew: real, d: real, p: Phase, time: real)
    requires skew >= 0.0 && time + skew >= 121.0 && p.Writing? && p.version == 1 && time <= p.checked + REQUEST_TIMEOUT
    requires skew + 21.0 - d >= 0.0 && Reachable(true, skew, SlowHolder(time, d, skew, p))
    ensures !Excludes(skew)
  {
    var s0 := SlowHolder(time, d, skew, p);
    var now := (time + skew).Floor;
    var s1 := Enter(s0, "b", Reading(now, time));
    StepIsReachable(skew, s0, BeginAcquire("b", now), s1);
    assert Expiry(s1.lease.value) == 120 < now;
    var s2 := Enter(s1, "b", Decided(now, time, 1));
    StepIsReachable(skew, s1, Get("b"), s2);
    var s3 := Enter(s2, "b", Claiming(now, time, 1, time));
    StepIsReachable(skew, s2, SendClaim("b"), s3);
    var s4 := Conditional(s3, "b", 1, now + LEASE_TTL_SECS, time, true);
    StepIsReachable(skew, s3, ClaimApplied("b", true), s4);
    assert PhaseOf(s4, "a") == p;
    assert !WritesAreCovered(s4);
  }

  /** Past the bound a slow holder's write can be in flight while a fast claimant takes the lease. */
  lemma LargeSkewDoesNotExclude(skew: real)
    requires 2.0 * skew + 2.0 * REQUEST_TIMEOUT > TTL / 2.0
    ensures !Excludes(skew)
  {
    var d := if skew - 10.0 > 0.5 then 0.5 else skew - 10.0;
    SlowClockClaims(skew, d);
    var base := skew + 21.0 - d;
    var s0 := SlowHolder(base, d, skew, Holding(1, base));
    var s1 := s0.(time := s0.time + 60.0 - d);
    StepIsReachable(skew, s0, Elapse(60.0 - d), s1);
    var p := Writing(1, base, s1.time);
    var s2 := Enter(s1, "a", p);
    StepIsReachable(skew, s1, CheckLease("a"), s2);
    var s3 := s2.(time := s2.time + 20.0);
    StepIsReachable(skew, s2, Elapse(20.0), s3);
    assert s3 == SlowHolder(s3.time, d, skew, p);
    FastClockTakes(skew, d, p, s3.time);
  }

  /** MAIN RESULT. Exactly how far the clocks may differ for the lease to exclude: with a request limit of 20
      seconds and a lease of 120, up to 10 seconds each from the remote's. */
  lemma ExclusionBound(skew: real)
    requires skew >= 0.0
    ensures Excludes(skew) <==> skew <= 10.0
  {
    if 2.0 * skew + 2.0 * REQUEST_TIMEOUT <= TTL / 2.0 {
      SmallSkewExcludes(skew);
    } else {
      LargeSkewDoesNotExclude(skew);
    }
  }

  // ---- The lease as it is held in place takes these steps ----

  /** The lease record a request found. A record without the store's time is outside the protocol: it has run out. */
  function LeaseFound(op: Op): Option<Claim>
    requires op.was.Some? ==> op.was.value.0.value.Some? && op.was.value.1.Some?
  {
    match op.was
    case None => None
    case Some((e, at)) => Some(Claim(e.version, HolderOf(e.value.value), UntilOf(e.value.value), at.value))
  }

  /** A request about the lease that the store applied. */
  predicate Applied(op: Op, h: string) {
    && op.who == h && op.key == LeaseKey && op.took.Some? && op.took.value > 0
    && (op.was.Some? ==> op.was.value.0.value.Some? && op.was.value.1.Some?)
  }

  /** The state at the moment it was applied, by the store's clock, with its sender in phase `p`. */
  function AtRequest(op: Op, clock: int, p: Phase): State
    requires Applied(op, op.who)
  {
    State(clock as real, op.took.value - 1, LeaseFound(op), map[op.who := p])
  }

  /** A claim made in place (`MirrorTask.Lease.TryAcquire`) is `Get`, `SendClaim` and `ClaimApplied`, from
      the record it replaced. */
  lemma ClaimsAreSteps(a: seq<Op>, b: seq<Op>, h: string, now: int, began: real, clock: int)
    requires Claims(a, b, h, now) && b != a && Applied(Last(b), h)
    ensures var op := Last(b); var expected, time := op.expected.value, clock as real;
      var reading := AtRequest(op, clock, Reading(now, began));
      var decided := AtRequest(op, clock, Decided(now, began, expected));
      var claiming := AtRequest(op, clock, Claiming(now, began, expected, time));
      var held := Enter(claiming, h, Holding(op.took.value, time))
                    .(counter := op.took.value, lease := Some(Claim(op.took.value, h, now + LEASE_TTL_SECS, clock)));
      && Next(false, 0.0, reading, Get(h), decided)
      && Next(false, 0.0, decided, SendClaim(h), claiming)
      && Next(false, 0.0, claiming, ClaimApplied(h, true), held)
  {
    var op := Last(b);
    var reading := AtRequest(op, clock, Reading(now, began));
    assert AcquireExpecting(AsRead(reading), h, now) == AcquireExpecting(op.was, h, now);
    assert forall p: Phase, q: Phase :: map[h := p][h := q] == map[h := q];
    assert (clock as real).Floor == clock;
  }

  /** A renewal made in place (`MirrorTask.Lease.RenewIfDue`) is `RenewalApplied`, from the version held. */
  lemma RenewalsAreSteps(a: seq<Op>, b: seq<Op>, h: string, version: nat, base: real, until: int, sent: real,
                         clock: int)
    requires Asked(a, b, LeaseKey, Some(version), false) && b != a && Applied(Last(b), h) && version > 0
    ensures var op := Last(b); var renewing := AtRequest(op, clock, Renewing(version, base, until, sent));
      Next(false, 0.0, renewing, RenewalApplied(h, true),
           Enter(renewing, h, Holding(op.took.value, sent))
             .(counter := op.took.value, lease := Some(Claim(op.took.value, h, until, clock))))
  {
    assert (clock as real).Floor == clock;
  }

  /** A release made in place (`MirrorTask.Lease.Release`) is `Release`, of the version held. */
  lemma ReleasesAreSteps(a: seq<Op>, b: seq<Op>, h: string, version: nat, base: real, clock: int)
    requires Asked(a, b, LeaseKey, Some(version), true) && b != a && Applied(Last(b), h) && version > 0
    requires Last(b).was.Some?
    ensures var op := Last(b); var holding := AtRequest(op, clock, Holding(version, base));
      Next(false, 0.0, holding, Release(h), Enter(holding, h, Idle).(counter := op.took.value, lease := None))
  {
  }

  /** The time a deadline is counted from, both by the monotonic clock, in milliseconds and in seconds. */
  function BaseOf(deadline: int): real {
    (deadline - 1000 * LEASE_TTL_SECS) as real / 1000.0
  }

  /** The comparison of the deadline in place is the guard of `CheckLease`, its alternative that of `SendRenewal`. */
  lemma ChecksAreSteps(s: State, h: string, version: nat, deadline: int, mono: int)
    requires PhaseOf(s, h) == Holding(version, BaseOf(deadline)) && s.time == mono as real / 1000.0
    ensures deadline - mono > 1000 * LEASE_TTL_SECS / 2 <==>
            Next(true, 0.0, s, CheckLease(h), Enter(s, h, Writing(version, BaseOf(deadline), s.time)))
    ensures forall until :: Reads(0.0, until - LEASE_TTL_SECS, s.time) ==>
      (0 < deadline - mono <= 1000 * LEASE_TTL_SECS / 2 <==>
         Next(true, 0.0, s, SendRenewal(h, until), Enter(s, h, Renewing(version, BaseOf(deadline), until, s.time))))
  {
  }
}
