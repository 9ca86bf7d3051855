/** The platform-merge policy of the verifier (crates/verify-trust/src/lib.rs).

    A commit signed by an exempt platform key arrives here provisionally `Exempt`. The policy keeps
    that verdict only for clean two-parent merges of passing parents, settling verdicts in rounds
    until nothing changes. `ApplyPlatformMergePolicy` is the in-place algorithm; `Policy` is the
    function it computes; the lemmas say what that function means. */
module MergePolicy {
  import opened Wrappers

  /** What keeps a merge from being clean. */
  datatype Mismatch =
    | WrongParentCount(count: nat)
    | NoTree
    | Differs(tree: string, merged: string)
    | ResolvedByHand
    | NotRecomputed(why: string)

  datatype Status =
    | Unsigned
    | Malformed(problem: string)
    | NoSignerDid(committer: string)
    | ConflictingSignerDids(trailer: string, committer: string)
    | UnresolvedSigner(did: string, error: string)
    | UnknownKey(did: string, key: string)
    | BadSignature(did: string)
    | Unauthorized(did: string)
    | RegistryUnavailable(did: string, error: string)
    | PgpRejected(problem: string)
    | PlatformSignedEdit(fingerprint: string)
    | PlatformMergeUnverifiedParent(fingerprint: string, parent: string)
    | PlatformMergeAltered(fingerprint: string, mismatch: Mismatch)
    | Exempt(fingerprint: string)
    | Trusted(did: string, resource: string)
  {
    predicate Passes() {
      Trusted? || Exempt?
    }
  }

  /** What the policy reads of a commit object: its id, its tree header (if any) and its parents. */
  datatype Commit = Commit(sha: string, tree: Option<string>, parents: seq<string>)

  datatype MergeOutcome = Clean(tree: string) | Conflict | Unavailable(why: string)

  /** Where the answers about the repository come from: git in a checkout, whose two preliminary
      calls can fail, or facts the caller supplies. */
  datatype MergeSource =
    | Git(boundary: Result<set<string>, string>, modern: bool, recompute: (string, string) -> MergeOutcome)
    | Facts(supplied: set<string>, merges: map<string, MergeOutcome>)

  /** The answers themselves: the range's boundary, and each merge (by id and parents) recomputed. */
  datatype Answers = Answers(boundary: set<string>, recompute: (string, string, string) -> MergeOutcome)

  const NOT_RECOMPUTED := "the merge was not recomputed for this check"
  const CYCLIC := "(cyclic parent chain)"

  function AnswersOf(source: MergeSource): Answers {
    match source
    case Git(boundary, _, recompute) =>
      Answers(if boundary.Ok? then boundary.value else {}, (sha, ours, theirs) => recompute(ours, theirs))
    case Facts(supplied, merges) =>
      Answers(supplied, (sha, ours, theirs) =>
        if sha in merges then merges[sha] else Unavailable(NOT_RECOMPUTED))
  }

  /** `None` for a merge that is clean. */
  function CleanMergeMismatch(c: Commit, recompute: (string, string, string) -> MergeOutcome): Option<Mismatch> {
    if |c.parents| != 2 then Some(WrongParentCount(|c.parents|))
    else if c.tree.None? then Some(NoTree)
    else match recompute(c.sha, c.parents[0], c.parents[1])
      case Clean(merged) => if merged == c.tree.value then None else Some(Differs(c.tree.value, merged))
      case Conflict => Some(ResolvedByHand)
      case Unavailable(why) => Some(NotRecomputed(why))
  }

  // ---- The function the algorithm computes ----

  /** Where `sha` is listed; the last place, if it is listed twice. */
  function Position(commits: seq<Commit>, sha: string): (at: Option<nat>)
    ensures at.Some? ==> at.value < |commits| && commits[at.value].sha == sha
    ensures at.Some? ==> forall j :: at.value < j < |commits| ==> commits[j].sha != sha
    ensures at.None? ==> forall j :: 0 <= j < |commits| ==> commits[j].sha != sha
  {
    if |commits| == 0 then None
    else if commits[|commits| - 1].sha == sha then Some(|commits| - 1)
    else Position(commits[..|commits| - 1], sha)
  }

  ghost predicate Wellformed(commits: seq<Commit>, st: seq<Status>, undecided: set<nat>) {
    && |commits| == |st|
    && forall i :: i in undecided ==> i < |st| && st[i].Exempt?
  }

  predicate Waits(commits: seq<Commit>, undecided: set<nat>, parent: string) {
    var at := Position(commits, parent);
    at.Some? && at.value in undecided
  }

  predicate Fails(commits: seq<Commit>, ans: Answers, st: seq<Status>, undecided: set<nat>, parent: string)
    requires |commits| == |st|
  {
    var at := Position(commits, parent);
    if at.Some? then at.value !in undecided && !st[at.value].Passes() else parent !in ans.boundary
  }

  function FirstFailing(commits: seq<Commit>, ans: Answers, st: seq<Status>, undecided: set<nat>,
                        parents: seq<string>): (first: Option<string>)
    requires |commits| == |st|
    ensures first.Some? ==> first.value in parents && Fails(commits, ans, st, undecided, first.value)
    ensures first.None? ==> forall p :: p in parents ==> !Fails(commits, ans, st, undecided, p)
    ensures first.Some? ==> exists k :: 0 <= k < |parents| && parents[k] == first.value
                                        && forall j :: 0 <= j < k ==> !Fails(commits, ans, st, undecided, parents[j])
  {
    if |parents| == 0 then None
    else if Fails(commits, ans, st, undecided, parents[0]) then Some(parents[0])
    else
      var rest := FirstFailing(commits, ans, st, undecided, parents[1..]);
      assert forall j :: 0 < j < |parents| ==> parents[j] == parents[1..][j - 1];
      rest
  }

  /** What one round makes of undecided commit `i`: nothing while a parent is undecided. */
  function Decide(commits: seq<Commit>, ans: Answers, st: seq<Status>, undecided: set<nat>, i: nat): Option<Status>
    requires |commits| == |st| && i < |st| && st[i].Exempt?
  {
    var c, fingerprint := commits[i], st[i].fingerprint;
    if |c.parents| < 2 then Some(PlatformSignedEdit(fingerprint))
    else
      var failing := FirstFailing(commits, ans, st, undecided, c.parents);
      if failing.Some? then Some(PlatformMergeUnverifiedParent(fingerprint, failing.value))
      else if exists p :: p in c.parents && Waits(commits, undecided, p) then None
      else
        var mismatch := CleanMergeMismatch(c, ans.recompute);
        if mismatch.None? then Some(Exempt(fingerprint)) else Some(PlatformMergeAltered(fingerprint, mismatch.value))
  }

  function SettledIn(commits: seq<Commit>, ans: Answers, st: seq<Status>, undecided: set<nat>): map<nat, Status>
    requires Wellformed(commits, st, undecided)
  {
    map i | i in undecided && Decide(commits, ans, st, undecided, i).Some? ::
      Decide(commits, ans, st, undecided, i).value
  }

  function Apply(st: seq<Status>, settled: map<nat, Status>): (r: seq<Status>)
    ensures |r| == |st|
    ensures forall i :: 0 <= i < |st| ==> r[i] == if i in settled then settled[i] else st[i]
  {
    seq(|st|, i requires 0 <= i < |st| => if i in settled then settled[i] else st[i])
  }

  function CyclicIn(st: seq<Status>, undecided: set<nat>): map<nat, Status>
    requires forall i :: i in undecided ==> i < |st| && st[i].Exempt?
  {
    map i | i in undecided :: PlatformMergeUnverifiedParent(st[i].fingerprint, CYCLIC)
  }

  /** Rounds until nothing is undecided; what can never be settled fails as a cycle. */
  function Settle(commits: seq<Commit>, ans: Answers, st: seq<Status>, undecided: set<nat>): (r: seq<Status>)
    requires Wellformed(commits, st, undecided)
    ensures |r| == |st|
    decreases undecided
  {
    if undecided == {} then st
    else
      var settled := SettledIn(commits, ans, st, undecided);
      if settled == map[] then Apply(st, CyclicIn(st, undecided))
      else
        assert undecided - settled.Keys < undecided by {
          var i :| i in settled;
          assert i in undecided;
        }
        Settle(commits, ans, Apply(st, settled), undecided - settled.Keys)
  }

  function Provisional(st: seq<Status>): set<nat> {
    set i: nat | i < |st| && st[i].Exempt?
  }

  function Policy(commits: seq<Commit>, ans: Answers, st: seq<Status>): (r: seq<Status>)
    requires |commits| == |st|
    ensures |r| == |st|
  {
    Settle(commits, ans, st, Provisional(st))
  }

  // ---- What it means: the least fixpoint of a local rule ----

  /** `c` merges two parents, and its tree is the one their merge gives. */
  ghost predicate MergedCleanly(c: Commit, ans: Answers) {
    |c.parents| == 2 && c.tree.Some? && ans.recompute(c.sha, c.parents[0], c.parents[1]) == Clean(c.tree.value)
  }

  /** The same, as git finds it or the facts have it. */
  ghost predicate MergedIn(source: MergeSource, c: Commit) {
    && |c.parents| == 2 && c.tree.Some?
    && match source
       case Git(_, _, recompute) => recompute(c.parents[0], c.parents[1]) == Clean(c.tree.value)
       case Facts(_, merges) => c.sha in merges && merges[c.sha] == Clean(c.tree.value)
  }

  /** `p` is on the range's boundary, as git finds it or the facts have it. */
  ghost predicate OnBoundary(source: MergeSource, p: string) {
    match source
    case Git(boundary, _, _) => boundary.Ok? && p in boundary.value
    case Facts(supplied, _) => p in supplied
  }

  lemma AnswersMean(source: MergeSource, c: Commit, p: string)
    ensures MergedCleanly(c, AnswersOf(source)) <==> MergedIn(source, c)
    ensures p in AnswersOf(source).boundary <==> OnBoundary(source, p)
  {
  }

  /** `p` is vouched for by the commits in `passing`, or lies on the boundary. */
  ghost predicate Vouched(commits: seq<Commit>, ans: Answers, passing: set<nat>, p: string) {
    var at := Position(commits, p);
    if at.Some? then at.value in passing else p in ans.boundary
  }

  /** The rule, for one commit: signed and authorised itself, or a platform-signed clean merge of two
      vouched parents. */
  ghost predicate Rule(commits: seq<Commit>, ans: Answers, st: seq<Status>, passing: set<nat>, i: nat)
    requires |commits| == |st| && i < |st|
  {
    || st[i].Trusted?
    || (&& st[i].Exempt?
        && |commits[i].parents| == 2
        && Vouched(commits, ans, passing, commits[i].parents[0])
        && Vouched(commits, ans, passing, commits[i].parents[1])
        && MergedCleanly(commits[i], ans))
  }

  ghost function RuleSet(commits: seq<Commit>, ans: Answers, st: seq<Status>, passing: set<nat>): set<nat>
    requires |commits| == |st|
  {
    set i: nat | i < |st| && Rule(commits, ans, st, passing, i)
  }

  function PassingIn(st: seq<Status>): set<nat> {
    set i: nat | i < |st| && st[i].Passes()
  }

  lemma RuleMonotone(commits: seq<Commit>, ans: Answers, st: seq<Status>, a: set<nat>, b: set<nat>)
    requires |commits| == |st| && a <= b
    ensures RuleSet(commits, ans, st, a) <= RuleSet(commits, ans, st, b)
  {
  }

  /** What every round keeps, `st0` being the verdicts the policy started from: every kept pass is
      forced by the rule, and no failure can be derived even if everything undecided were to pass. */
  ghost predicate RoundInv(commits: seq<Commit>, ans: Answers, st0: seq<Status>, st: seq<Status>, undecided: set<nat>) {
    && Wellformed(commits, st, undecided)
    && |st0| == |st|
    && (forall i :: 0 <= i < |st| && (i in undecided || !st0[i].Exempt?) ==> st[i] == st0[i])
    && (forall s :: RuleSet(commits, ans, st0, s) <= s ==> PassingIn(st) - undecided <= s)
    && PassingIn(st) - undecided <= RuleSet(commits, ans, st0, PassingIn(st) - undecided)
    && RuleSet(commits, ans, st0, PassingIn(st)) <= PassingIn(st)
  }

  lemma ParentMeansVouched(commits: seq<Commit>, ans: Answers, st: seq<Status>, undecided: set<nat>, p: string)
    requires Wellformed(commits, st, undecided)
    ensures Fails(commits, ans, st, undecided, p) ==> !Vouched(commits, ans, PassingIn(st), p)
    ensures Waits(commits, undecided, p) ==> !Vouched(commits, ans, PassingIn(st) - undecided, p)
    ensures !Fails(commits, ans, st, undecided, p) && !Waits(commits, undecided, p)
            ==> Vouched(commits, ans, PassingIn(st) - undecided, p)
  {
  }

  lemma DecideMeansRule(commits: seq<Commit>, ans: Answers, st0: seq<Status>, st: seq<Status>, undecided: set<nat>,
                        i: nat)
    requires RoundInv(commits, ans, st0, st, undecided) && i in undecided
    ensures match Decide(commits, ans, st, undecided, i)
            case None => !Rule(commits, ans, st0, PassingIn(st) - undecided, i)
            case Some(d) =>
              && d.Passes() == Rule(commits, ans, st0, PassingIn(st) - undecided, i)
              && d.Passes() == Rule(commits, ans, st0, PassingIn(st), i)
  {
    var c := commits[i];
    forall p | p in c.parents {
      ParentMeansVouched(commits, ans, st, undecided, p);
    }
    if |c.parents| == 2 {
      assert forall p :: p in c.parents <==> p == c.parents[0] || p == c.parents[1];
      RuleMonotone(commits, ans, st0, PassingIn(st) - undecided, PassingIn(st));
    }
  }

  lemma RoundKeepsInv(commits: seq<Commit>, ans: Answers, st0: seq<Status>, st: seq<Status>, undecided: set<nat>)
    requires RoundInv(commits, ans, st0, st, undecided)
    ensures var settled := SettledIn(commits, ans, st, undecided);
            RoundInv(commits, ans, st0, Apply(st, settled), undecided - settled.Keys)
  {
    var settled := SettledIn(commits, ans, st, undecided);
    var st1, left := Apply(st, settled), undecided - settled.Keys;
    var kept, kept1 := PassingIn(st) - undecided, PassingIn(st1) - left;
    forall i | i in settled {
      DecideMeansRule(commits, ans, st0, st, undecided, i);
    }
    assert kept <= kept1;
    RuleMonotone(commits, ans, st0, kept, kept1);
    forall s | RuleSet(commits, ans, st0, s) <= s ensures kept1 <= s {
      RuleMonotone(commits, ans, st0, kept, s);
    }
    assert PassingIn(st1) <= PassingIn(st);
    RuleMonotone(commits, ans, st0, PassingIn(st1), PassingIn(st));
  }

  /** Cutting a cycle keeps it too: what waits only on undecided commits has no derivation. */
  lemma CycleKeepsInv(commits: seq<Commit>, ans: Answers, st0: seq<Status>, st: seq<Status>, undecided: set<nat>)
    requires RoundInv(commits, ans, st0, st, undecided) && SettledIn(commits, ans, st, undecided) == map[]
    ensures RoundInv(commits, ans, st0, Apply(st, CyclicIn(st, undecided)), {})
  {
    var st1 := Apply(st, CyclicIn(st, undecided));
    assert PassingIn(st1) == PassingIn(st) - undecided;
    RuleMonotone(commits, ans, st0, PassingIn(st1), PassingIn(st));
    forall i | i in RuleSet(commits, ans, st0, PassingIn(st1)) ensures i in PassingIn(st1) {
      if i in undecided {
        assert i !in SettledIn(commits, ans, st, undecided);
        DecideMeansRule(commits, ans, st0, st, undecided, i);
      }
    }
  }

  lemma {:induction false} SettleKeepsInv(commits: seq<Commit>, ans: Answers, st0: seq<Status>, st: seq<Status>,
                                          undecided: set<nat>)
    requires RoundInv(commits, ans, st0, st, undecided)
    ensures RoundInv(commits, ans, st0, Settle(commits, ans, st, undecided), {})
    decreases undecided
  {
    if undecided != {} {
      var settled := SettledIn(commits, ans, st, undecided);
      if settled == map[] {
        CycleKeepsInv(commits, ans, st0, st, undecided);
      } else {
        RoundKeepsInv(commits, ans, st0, st, undecided);
        var i :| i in settled;
        assert i in undecided;
        SettleKeepsInv(commits, ans, st0, Apply(st, settled), undecided - settled.Keys);
      }
    }
  }

  /** MAIN RESULT. For every parent graph, cyclic or not, the passing commits are exactly the least set
      closed under the local rule. */
  lemma PolicyIsLeastFixpoint(commits: seq<Commit>, ans: Answers, st: seq<Status>)
    requires |commits| == |st|
    ensures var passing := PassingIn(Policy(commits, ans, st));
            && RuleSet(commits, ans, st, passing) == passing
            && forall s :: RuleSet(commits, ans, st, s) <= s ==> passing <= s
    ensures forall i :: 0 <= i < |st| && !st[i].Exempt? ==> Policy(commits, ans, st)[i] == st[i]
  {
    var undecided := Provisional(st);
    assert forall i | i in PassingIn(st) - undecided :: st[i].Trusted?;
    assert PassingIn(st) - undecided <= RuleSet(commits, ans, st, {});
    assert RoundInv(commits, ans, st, st, undecided) by {
      RuleMonotone(commits, ans, st, {}, PassingIn(st) - undecided);
      forall s | RuleSet(commits, ans, st, s) <= s ensures PassingIn(st) - undecided <= s {
        RuleMonotone(commits, ans, st, {}, s);
      }
    }
    SettleKeepsInv(commits, ans, st, st, undecided);
    var out := Policy(commits, ans, st);
    assert PassingIn(out) - {} == PassingIn(out);
  }

  // ---- What each verdict says ----

  /** Parent `p` passes by its verdict in `st`, or is not listed and lies on the boundary. */
  ghost predicate Stands(commits: seq<Commit>, ans: Answers, st: seq<Status>, p: string)
    requires |commits| == |st|
  {
    var at := Position(commits, p);
    if at.Some? then st[at.value].Trusted? || st[at.value].Exempt? else p in ans.boundary
  }

  /** That is so for good, while the verdicts of `undecided` may still change. */
  ghost predicate Firm(commits: seq<Commit>, undecided: set<nat>, p: string) {
    var at := Position(commits, p);
    at.Some? ==> at.value !in undecided
  }

  /** Why merge `c` is not a clean one. */
  ghost predicate NotClean(c: Commit, ans: Answers, why: Mismatch) {
    match why
    case WrongParentCount(count) => count == |c.parents| && count != 2
    case NoTree => |c.parents| == 2 && c.tree.None?
    case Differs(tree, merged) =>
      |c.parents| == 2 && c.tree == Some(tree) && merged != tree
      && ans.recompute(c.sha, c.parents[0], c.parents[1]) == Clean(merged)
    case ResolvedByHand => |c.parents| == 2 && ans.recompute(c.sha, c.parents[0], c.parents[1]) == Conflict
    case NotRecomputed(why) => |c.parents| == 2 && ans.recompute(c.sha, c.parents[0], c.parents[1]) == Unavailable(why)
  }

  /** Commit `i`, which key `f` would exempt, has a verdict that is so: an exempt merge is clean and its parents stand;
      an altered one is not clean, its parents standing; a parent named as unverified does not stand; and where a
      cycle is named, some listed parent does not. */
  ghost predicate Explained(commits: seq<Commit>, ans: Answers, st: seq<Status>, undecided: set<nat>, i: nat, f: string)
    requires |commits| == |st| && i < |st|
  {
    var c := commits[i];
    match st[i]
    case Exempt(g) => g == f && MergedCleanly(c, ans) && AllStand(commits, ans, st, undecided, c)
    case PlatformSignedEdit(g) => g == f && |c.parents| < 2
    case PlatformMergeAltered(g, why) =>
      g == f && |c.parents| >= 2 && NotClean(c, ans, why) && AllStand(commits, ans, st, undecided, c)
    case PlatformMergeUnverifiedParent(g, p) =>
      && g == f && |c.parents| >= 2
      && (|| Fallen(commits, ans, st, undecided, c, p)
          || (p == "(cyclic parent chain)"
              && exists q :: Position(commits, q).Some? && Fallen(commits, ans, st, undecided, c, q)))
    case _ => false
  }

  ghost predicate AllStand(commits: seq<Commit>, ans: Answers, st: seq<Status>, undecided: set<nat>, c: Commit)
    requires |commits| == |st|
  {
    forall p :: p in c.parents ==> Stands(commits, ans, st, p) && Firm(commits, undecided, p)
  }

  ghost predicate Fallen(commits: seq<Commit>, ans: Answers, st: seq<Status>, undecided: set<nat>, c: Commit, p: string)
    requires |commits| == |st|
  {
    p in c.parents && !Stands(commits, ans, st, p) && Firm(commits, undecided, p)
  }

  /** A round so far: what is decided is explained, and what was not to be decided is as it was. */
  ghost predicate Explains(commits: seq<Commit>, ans: Answers, st0: seq<Status>, st: seq<Status>, undecided: set<nat>) {
    && Wellformed(commits, st, undecided) && |st0| == |st|
    && forall i: nat :: i < |st| ==>
         if i in undecided || !st0[i].Exempt? then st[i] == st0[i]
         else Explained(commits, ans, st, undecided, i, st0[i].fingerprint)
  }

  /** What is explained stays so while others are decided. */
  lemma ExplainedStays(commits: seq<Commit>, ans: Answers, st: seq<Status>, undecided: set<nat>, i: nat, f: string,
                       st1: seq<Status>, left: set<nat>)
    requires |commits| == |st| == |st1| && i < |st| && left <= undecided && i !in undecided
    requires forall j :: 0 <= j < |st| && j !in undecided ==> st1[j] == st[j]
    requires Explained(commits, ans, st, undecided, i, f)
    ensures Explained(commits, ans, st1, left, i, f)
  {
    var c := commits[i];
    forall p | Firm(commits, undecided, p)
      ensures Firm(commits, left, p) && Stands(commits, ans, st1, p) == Stands(commits, ans, st, p)
    {
    }
    hide Stands, Firm;
    if st[i].PlatformMergeUnverifiedParent? && !Fallen(commits, ans, st, undecided, c, st[i].parent) {
      var q :| Position(commits, q).Some? && Fallen(commits, ans, st, undecided, c, q);
      assert Fallen(commits, ans, st1, left, c, q);
    }
  }

  /** A decision explains itself. */
  lemma DecisionIsExplained(commits: seq<Commit>, ans: Answers, st: seq<Status>, undecided: set<nat>, i: nat,
                            st1: seq<Status>, left: set<nat>)
    requires Wellformed(commits, st, undecided) && i in undecided && |st1| == |st| && left <= undecided
    requires forall j :: 0 <= j < |st| && j !in undecided ==> st1[j] == st[j]
    requires Decide(commits, ans, st, undecided, i) == Some(st1[i])
    ensures Explained(commits, ans, st1, left, i, st[i].fingerprint)
  {
    var c := commits[i];
    if |c.parents| >= 2 {
      var failing := FirstFailing(commits, ans, st, undecided, c.parents);
      forall p | p in c.parents && !Waits(commits, undecided, p)
        ensures Firm(commits, left, p) && Stands(commits, ans, st1, p) == !Fails(commits, ans, st, undecided, p)
      {
      }
      if failing.Some? {
        assert Fails(commits, ans, st, undecided, failing.value) && !Waits(commits, undecided, failing.value);
      }
      hide Stands, Firm, Fails, Waits;
      if failing.Some? {
        assert Fallen(commits, ans, st1, left, c, failing.value);
      } else if forall p :: p in c.parents ==> !Waits(commits, undecided, p) {
        assert AllStand(commits, ans, st1, left, c);
      }
    }
  }

  lemma RoundExplains(commits: seq<Commit>, ans: Answers, st0: seq<Status>, st: seq<Status>, undecided: set<nat>)
    requires Explains(commits, ans, st0, st, undecided)
    ensures var settled := SettledIn(commits, ans, st, undecided);
            Explains(commits, ans, st0, Apply(st, settled), undecided - settled.Keys)
  {
    var settled := SettledIn(commits, ans, st, undecided);
    var st1, left := Apply(st, settled), undecided - settled.Keys;
    hide Explained, Decide;
    forall i: nat | i < |st| && i !in left && st0[i].Exempt?
      ensures Explained(commits, ans, st1, left, i, st0[i].fingerprint)
    {
      if i in undecided {
        DecisionIsExplained(commits, ans, st, undecided, i, st1, left);
      } else {
        ExplainedStays(commits, ans, st, undecided, i, st0[i].fingerprint, st1, left);
      }
    }
  }

  lemma NothingIsDecided(commits: seq<Commit>, ans: Answers, st: seq<Status>, undecided: set<nat>, i: nat)
    returns (q: string)
    requires Wellformed(commits, st, undecided) && i in undecided && SettledIn(commits, ans, st, undecided) == map[]
    ensures |commits[i].parents| >= 2 && q in commits[i].parents && Waits(commits, undecided, q)
  {
    assert i !in SettledIn(commits, ans, st, undecided);
    assert Decide(commits, ans, st, undecided, i).None?;
    hide SettledIn;
    q :| q in commits[i].parents && Waits(commits, undecided, q);
  }

  lemma CutIsExplained(commits: seq<Commit>, ans: Answers, st: seq<Status>, undecided: set<nat>, i: nat)
    requires Wellformed(commits, st, undecided) && i in undecided && SettledIn(commits, ans, st, undecided) == map[]
    ensures Explained(commits, ans, Apply(st, CyclicIn(st, undecided)), {}, i, st[i].fingerprint)
  {
    hide SettledIn;
    var st1 := Apply(st, CyclicIn(st, undecided));
    var q := NothingIsDecided(commits, ans, st, undecided, i);
    assert Fallen(commits, ans, st1, {}, commits[i], q);
    hide Fallen;
  }

  lemma CycleExplains(commits: seq<Commit>, ans: Answers, st0: seq<Status>, st: seq<Status>, undecided: set<nat>)
    requires Explains(commits, ans, st0, st, undecided) && SettledIn(commits, ans, st, undecided) == map[]
    ensures Explains(commits, ans, st0, Apply(st, CyclicIn(st, undecided)), {})
  {
    var st1 := Apply(st, CyclicIn(st, undecided));
    hide Explained, SettledIn;
    forall i: nat | i < |st| && st0[i].Exempt? ensures Explained(commits, ans, st1, {}, i, st0[i].fingerprint) {
      if i in undecided {
        CutIsExplained(commits, ans, st, undecided, i);
      } else {
        ExplainedStays(commits, ans, st, undecided, i, st0[i].fingerprint, st1, {});
      }
    }
  }

  lemma {:induction false} SettleExplains(commits: seq<Commit>, ans: Answers, st0: seq<Status>, st: seq<Status>,
                                          undecided: set<nat>)
    requires Explains(commits, ans, st0, st, undecided)
    ensures Explains(commits, ans, st0, Settle(commits, ans, st, undecided), {})
    decreases undecided
  {
    hide Explained;
    if undecided != {} {
      var settled := SettledIn(commits, ans, st, undecided);
      if settled == map[] {
        CycleExplains(commits, ans, st0, st, undecided);
      } else {
        RoundExplains(commits, ans, st0, st, undecided);
        var i :| i in settled;
        assert i in undecided;
        SettleExplains(commits, ans, st0, Apply(st, settled), undecided - settled.Keys);
      }
    }
  }

  /** MAIN RESULT. What every verdict of the policy says is so, of the verdicts it is reported with: each provisional
      exemption that is kept, and each that is not, for the reason given. Other verdicts stay. */
  lemma PolicyExplains(commits: seq<Commit>, ans: Answers, st: seq<Status>, i: nat)
    requires |commits| == |st| && i < |st|
    ensures var out := Policy(commits, ans, st);
      if st[i].Exempt? then Explained(commits, ans, out, {}, i, st[i].fingerprint) else out[i] == st[i]
  {
    hide Explained;
    SettleExplains(commits, ans, st, st, Provisional(st));
  }

  /** MAIN RESULT. A provisional exemption is kept exactly for a merge of two parents that each pass in the end, or lie
      on the boundary, and whose tree is the clean merge of them that git (or the facts) gives. */
  lemma KeptExemptionsMean(commits: seq<Commit>, source: MergeSource, st: seq<Status>, i: nat)
    requires |commits| == |st| && i < |st| && st[i].Exempt?
    ensures KeptIfClean(commits, source, Policy(commits, AnswersOf(source), st), i)
  {
    hide Policy, Explained, RuleSet, KeptIfClean;
    var out := Policy(commits, AnswersOf(source), st);
    PolicyIsLeastFixpoint(commits, AnswersOf(source), st);
    PolicyExplains(commits, AnswersOf(source), st, i);
    FixpointKeeps(commits, source, st, out, i);
  }

  lemma FixpointKeeps(commits: seq<Commit>, source: MergeSource, st: seq<Status>, out: seq<Status>, i: nat)
    requires |commits| == |st| == |out| && i < |st| && st[i].Exempt?
    requires RuleSet(commits, AnswersOf(source), st, PassingIn(out)) == PassingIn(out)
    requires Explained(commits, AnswersOf(source), out, {}, i, st[i].fingerprint)
    ensures KeptIfClean(commits, source, out, i)
  {
    var ans, c := AnswersOf(source), commits[i];
    assert out[i].Exempt? <==> Rule(commits, ans, st, PassingIn(out), i) by {
      assert i in PassingIn(out) <==> i in RuleSet(commits, ans, st, PassingIn(out));
    }
    hide Explained, RuleSet, AnswersOf;
    AnswersMean(source, c, "");
    forall p ensures Vouched(commits, ans, PassingIn(out), p) <==> StandsIn(commits, source, out, p) {
      AnswersMean(source, c, p);
    }
    hide Vouched, StandsIn, PassingIn;
    if |c.parents| == 2 {
      assert forall p :: p in c.parents <==> p == c.parents[0] || p == c.parents[1];
    }
  }

  /** Every provisional exemption is kept if it is a clean merge of parents that stand, and no other. */
  ghost predicate KeptAsMeant(commits: seq<Commit>, source: MergeSource, was: seq<Status>, out: seq<Status>) {
    |commits| == |was| == |out|
    && forall i: nat :: i < |was| && was[i].Exempt? ==> KeptIfClean(commits, source, out, i)
  }

  lemma AllKeptAsMeant(commits: seq<Commit>, source: MergeSource, st: seq<Status>)
    requires |commits| == |st|
    ensures KeptAsMeant(commits, source, st, Policy(commits, AnswersOf(source), st))
  {
    hide Policy, KeptIfClean;
    forall i: nat | i < |st| && st[i].Exempt? {
      KeptExemptionsMean(commits, source, st, i);
    }
  }

  ghost predicate KeptIfClean(commits: seq<Commit>, source: MergeSource, out: seq<Status>, i: nat)
    requires |commits| == |out| && i < |out|
  {
    out[i].Exempt? <==>
      MergedIn(source, commits[i]) && forall p :: p in commits[i].parents ==> StandsIn(commits, source, out, p)
  }

  /** Parent `p` is trusted or exempt by its verdict in `out`, or is not listed and lies on the boundary. */
  ghost predicate StandsIn(commits: seq<Commit>, source: MergeSource, out: seq<Status>, p: string)
    requires |commits| == |out|
  {
    match Position(commits, p)
    case Some(j) => out[j].Trusted? || out[j].Exempt?
    case None => OnBoundary(source, p)
  }

  // ---- Acyclic histories: the plain recursive definition ----

  /** `rank` orders the listing so that every listed parent comes below its child, as in any real
      commit graph. */
  ghost predicate Ranked(commits: seq<Commit>, rank: seq<nat>) {
    && |rank| == |commits|
    && forall i, p :: 0 <= i < |commits| && p in commits[i].parents && Position(commits, p).Some?
                      ==> rank[Position(commits, p).value] < rank[i]
  }

  /** A commit passes if it is trusted, or a platform-signed clean merge of two parents that pass or
      lie on the boundary. */
  ghost predicate PassesPlainly(commits: seq<Commit>, ans: Answers, st: seq<Status>, rank: seq<nat>, i: nat)
    requires |commits| == |st| && i < |st| && Ranked(commits, rank)
    decreases rank[i]
  {
    || st[i].Trusted?
    || (&& st[i].Exempt?
        && MergedCleanly(commits[i], ans)
        && forall k :: 0 <= k < 2 ==>
             var p := commits[i].parents[k];
             var at := Position(commits, p);
             if at.Some? then
               p in commits[i].parents && PassesPlainly(commits, ans, st, rank, at.value)
             else p in ans.boundary)
  }

  lemma {:induction false} FixpointIsPlain(commits: seq<Commit>, ans: Answers, st: seq<Status>, rank: seq<nat>,
                                            passing: set<nat>, i: nat)
    requires |commits| == |st| && i < |st| && Ranked(commits, rank)
    requires RuleSet(commits, ans, st, passing) == passing
    ensures i in passing <==> PassesPlainly(commits, ans, st, rank, i)
    decreases rank[i]
  {
    assert i in passing <==> i in RuleSet(commits, ans, st, passing);
    forall k | 0 <= k < |commits[i].parents| && Position(commits, commits[i].parents[k]).Some?
      ensures Position(commits, commits[i].parents[k]).value in passing
              <==> PassesPlainly(commits, ans, st, rank, Position(commits, commits[i].parents[k]).value)
    {
      assert commits[i].parents[k] in commits[i].parents;
      FixpointIsPlain(commits, ans, st, rank, passing, Position(commits, commits[i].parents[k]).value);
    }
  }

  /** MAIN RESULT. On an acyclic history the policy is the plain recursive definition. */
  lemma PolicyIsThePlainDefinition(commits: seq<Commit>, ans: Answers, st: seq<Status>, rank: seq<nat>, i: nat)
    requires |commits| == |st| && i < |st| && Ranked(commits, rank)
    ensures i in PassingIn(Policy(commits, ans, st)) <==> PassesPlainly(commits, ans, st, rank, i)
  {
    PolicyIsLeastFixpoint(commits, ans, st);
    FixpointIsPlain(commits, ans, st, rank, PassingIn(Policy(commits, ans, st)), i);
  }

  // ---- Monotonicity ----

  /** `weaker` vouches for no parent `ans` does not, and finds no merge clean that `ans` does not. */
  ghost predicate Weaker(commits: seq<Commit>, weaker: Answers, ans: Answers) {
    && weaker.boundary <= ans.boundary
    && forall c :: c in commits && MergedCleanly(c, weaker) ==> MergedCleanly(c, ans)
  }

  lemma RuleWeaker(commits: seq<Commit>, weaker: Answers, ans: Answers, st: seq<Status>, passing: set<nat>)
    requires |commits| == |st| && Weaker(commits, weaker, ans)
    ensures RuleSet(commits, weaker, st, passing) <= RuleSet(commits, ans, st, passing)
  {
    assert forall i :: 0 <= i < |commits| ==> commits[i] in commits;
  }

  /** MAIN RESULT. Weaker answers never turn a failing commit into a passing one. */
  lemma PolicyIsMonotone(commits: seq<Commit>, weaker: Answers, ans: Answers, st: seq<Status>)
    requires |commits| == |st| && Weaker(commits, weaker, ans)
    ensures PassingIn(Policy(commits, weaker, st)) <= PassingIn(Policy(commits, ans, st))
  {
    PolicyIsLeastFixpoint(commits, weaker, st);
    PolicyIsLeastFixpoint(commits, ans, st);
    RuleWeaker(commits, weaker, ans, st, PassingIn(Policy(commits, ans, st)));
  }

  // ---- Order independence ----

  ghost predicate Distinct(commits: seq<Commit>) {
    forall i, j :: 0 <= i < j < |commits| ==> commits[i].sha != commits[j].sha
  }

  /** `b` lists the entries of `a` in another order: entry `i` of `b` is entry `to[i]` of `a`. */
  ghost predicate Along<T>(a: seq<T>, b: seq<T>, to: seq<nat>) {
    && |a| == |b| == |to|
    && forall i :: 0 <= i < |b| ==> to[i] < |a| && b[i] == a[to[i]]
  }

  /** Every entry is listed again: `to` is onto, and so a permutation. */
  ghost predicate Onto(to: seq<nat>) {
    forall j: nat :: j < |to| ==> j in to
  }

  ghost predicate SamePlaces(a: seq<Commit>, b: seq<Commit>, to: seq<nat>) {
    && |a| == |b| == |to|
    && forall p: string ::
         && Position(b, p).Some? == Position(a, p).Some?
         && (Position(b, p).Some? ==> to[Position(b, p).value] == Position(a, p).value)
  }

  function Moved(undecided: set<nat>, to: seq<nat>): set<nat> {
    set i: nat | i < |to| && to[i] in undecided
  }

  lemma PositionsRearranged(a: seq<Commit>, b: seq<Commit>, to: seq<nat>)
    requires Along(a, b, to) && Onto(to) && Distinct(a)
    ensures SamePlaces(a, b, to)
  {
    forall p: string
      ensures Position(b, p).Some? == Position(a, p).Some?
      ensures Position(b, p).Some? ==> to[Position(b, p).value] == Position(a, p).value
    {
      var pa := Position(a, p);
      if pa.Some? {
        assert pa.value in to;
        var i :| 0 <= i < |to| && to[i] == pa.value;
        assert b[i].sha == p;
      }
    }
  }

  lemma {:induction false} FirstFailingRearranged(
    a: seq<Commit>, b: seq<Commit>, to: seq<nat>, ans: Answers,
    stA: seq<Status>, stB: seq<Status>, undecided: set<nat>, parents: seq<string>)
    requires SamePlaces(a, b, to) && |stA| == |a| && Along(stA, stB, to)
    ensures FirstFailing(b, ans, stB, Moved(undecided, to), parents) == FirstFailing(a, ans, stA, undecided, parents)
  {
    if |parents| > 0 {
      FirstFailingRearranged(a, b, to, ans, stA, stB, undecided, parents[1..]);
    }
  }

  lemma DecideRearranged(
    a: seq<Commit>, b: seq<Commit>, to: seq<nat>, ans: Answers,
    stA: seq<Status>, stB: seq<Status>, undecided: set<nat>, i: nat)
    requires SamePlaces(a, b, to) && Along(a, b, to) && |stA| == |a| && Along(stA, stB, to)
    requires i < |b| && stB[i].Exempt?
    ensures Decide(b, ans, stB, Moved(undecided, to), i) == Decide(a, ans, stA, undecided, to[i])
  {
    FirstFailingRearranged(a, b, to, ans, stA, stB, undecided, b[i].parents);
    forall p | p in b[i].parents
      ensures Waits(b, Moved(undecided, to), p) == Waits(a, undecided, p)
    {
    }
  }

  /** Two listings of the same range, part way through their rounds. */
  ghost predicate InStep(a: seq<Commit>, b: seq<Commit>, to: seq<nat>, stA: seq<Status>, stB: seq<Status>,
                         undecided: set<nat>) {
    && SamePlaces(a, b, to) && Along(a, b, to) && Along(stA, stB, to) && Onto(to)
    && Wellformed(a, stA, undecided) && Wellformed(b, stB, Moved(undecided, to))
  }

  lemma SettledInRearranged(
    a: seq<Commit>, b: seq<Commit>, to: seq<nat>, ans: Answers,
    stA: seq<Status>, stB: seq<Status>, undecided: set<nat>)
    requires SamePlaces(a, b, to) && Along(a, b, to) && Along(stA, stB, to)
    requires Wellformed(a, stA, undecided) && Wellformed(b, stB, Moved(undecided, to))
    ensures var sa, sb := SettledIn(a, ans, stA, undecided), SettledIn(b, ans, stB, Moved(undecided, to));
            && Along(Apply(stA, sa), Apply(stB, sb), to)
            && Moved(undecided - sa.Keys, to) == Moved(undecided, to) - sb.Keys
            && (sa == map[] ==> sb == map[])
            && (Onto(to) && sb == map[] ==> sa == map[])
  {
    var moved := Moved(undecided, to);
    var sa, sb := SettledIn(a, ans, stA, undecided), SettledIn(b, ans, stB, moved);
    forall i: nat | i < |b|
      ensures i in sb <==> to[i] in sa
      ensures i in sb ==> sb[i] == sa[to[i]]
    {
      if i in moved {
        DecideRearranged(a, b, to, ans, stA, stB, undecided, i);
      }
    }
    if Onto(to) && sa != map[] {
      var j :| j in sa;
      assert j in to;
      var i :| 0 <= i < |to| && to[i] == j;
      assert i in sb;
    }
  }

  lemma RoundWellformed(commits: seq<Commit>, ans: Answers, st: seq<Status>, undecided: set<nat>)
    requires Wellformed(commits, st, undecided)
    ensures var settled := SettledIn(commits, ans, st, undecided);
            Wellformed(commits, Apply(st, settled), undecided - settled.Keys)
  {
  }

  lemma RoundRearranged(
    a: seq<Commit>, b: seq<Commit>, to: seq<nat>, ans: Answers,
    stA: seq<Status>, stB: seq<Status>, undecided: set<nat>)
    requires InStep(a, b, to, stA, stB, undecided)
    ensures var sa, sb := SettledIn(a, ans, stA, undecided), SettledIn(b, ans, stB, Moved(undecided, to));
            && InStep(a, b, to, Apply(stA, sa), Apply(stB, sb), undecided - sa.Keys)
            && Moved(undecided - sa.Keys, to) == Moved(undecided, to) - sb.Keys
            && (sa == map[] <==> sb == map[])
  {
    SettledInRearranged(a, b, to, ans, stA, stB, undecided);
    RoundWellformed(a, ans, stA, undecided);
    RoundWellformed(b, ans, stB, Moved(undecided, to));
  }

  lemma CyclicRearranged(stA: seq<Status>, stB: seq<Status>, to: seq<nat>, undecided: set<nat>)
    requires Along(stA, stB, to)
    requires forall i :: i in undecided ==> i < |stA| && stA[i].Exempt?
    requires forall i :: i in Moved(undecided, to) ==> i < |stB| && stB[i].Exempt?
    ensures Along(Apply(stA, CyclicIn(stA, undecided)), Apply(stB, CyclicIn(stB, Moved(undecided, to))), to)
  {
  }

  lemma MovedEmpty(undecided: set<nat>, to: seq<nat>)
    requires Onto(to) && forall i :: i in undecided ==> i < |to|
    ensures Moved(undecided, to) == {} <==> undecided == {}
  {
    if undecided != {} {
      var j :| j in undecided;
      assert j in to;
      var i :| 0 <= i < |to| && to[i] == j;
      assert i in Moved(undecided, to);
    }
  }

  lemma SettleUnfolds(commits: seq<Commit>, ans: Answers, st: seq<Status>, undecided: set<nat>)
    requires Wellformed(commits, st, undecided) && undecided != {}
    ensures var settled := SettledIn(commits, ans, st, undecided);
            if settled == map[] then
              Settle(commits, ans, st, undecided) == Apply(st, CyclicIn(st, undecided))
            else
              && undecided - settled.Keys < undecided
              && Settle(commits, ans, st, undecided) == Settle(commits, ans, Apply(st, settled), undecided - settled.Keys)
  {
    var settled := SettledIn(commits, ans, st, undecided);
    if settled != map[] {
      var i :| i in settled;
      assert i in undecided;
    }
  }

  lemma {:induction false} SettleRearranged(
    a: seq<Commit>, b: seq<Commit>, to: seq<nat>, ans: Answers,
    stA: seq<Status>, stB: seq<Status>, undecided: set<nat>)
    requires InStep(a, b, to, stA, stB, undecided)
    ensures Along(Settle(a, ans, stA, undecided), Settle(b, ans, stB, Moved(undecided, to)), to)
    decreases undecided
  {
    CyclicRearranged(stA, stB, to, undecided);
    MovedEmpty(undecided, to);
    if undecided != {} {
      SettleUnfolds(a, ans, stA, undecided);
      SettleUnfolds(b, ans, stB, Moved(undecided, to));
      RoundRearranged(a, b, to, ans, stA, stB, undecided);
      var sa := SettledIn(a, ans, stA, undecided);
      if sa != map[] {
        SettleRearranged(a, b, to, ans, Apply(stA, sa), Apply(stB, SettledIn(b, ans, stB, Moved(undecided, to))),
                         undecided - sa.Keys);
      }
    }
  }

  /** MAIN RESULT. Listing the range in another order rearranges the verdicts and changes nothing
      else: not even which parent a failing merge is reported with. */
  lemma PolicyIsOrderIndependent(
    a: seq<Commit>, b: seq<Commit>, to: seq<nat>, ans: Answers, stA: seq<Status>, stB: seq<Status>)
    requires |a| == |stA| && |b| == |stB|
    requires Along(a, b, to) && Along(stA, stB, to) && Onto(to) && Distinct(a)
    ensures Along(Policy(a, ans, stA), Policy(b, ans, stB), to)
  {
    assert Moved(Provisional(stA), to) == Provisional(stB);
    PositionsRearranged(a, b, to);
    SettleRearranged(a, b, to, ans, stA, stB, Provisional(stA));
  }

  // ---- Walks through exempt merges are finite ----

  /** The commits with a derivation of at most `depth` rules. */
  ghost function DerivedBy(commits: seq<Commit>, ans: Answers, st: seq<Status>, depth: nat): set<nat>
    requires |commits| == |st|
  {
    if depth == 0 then {} else RuleSet(commits, ans, st, DerivedBy(commits, ans, st, depth - 1))
  }

  lemma {:induction false} DerivedByGrows(commits: seq<Commit>, ans: Answers, st: seq<Status>, m: nat, n: nat)
    requires |commits| == |st| && m <= n
    ensures DerivedBy(commits, ans, st, m) <= DerivedBy(commits, ans, st, n)
  {
    if m > 0 {
      DerivedByGrows(commits, ans, st, m - 1, n - 1);
      RuleMonotone(commits, ans, st, DerivedBy(commits, ans, st, m - 1), DerivedBy(commits, ans, st, n - 1));
    }
  }

  ghost predicate Derivable(commits: seq<Commit>, ans: Answers, st: seq<Status>, i: nat)
    requires |commits| == |st|
  {
    exists depth: nat :: i in DerivedBy(commits, ans, st, depth)
  }

  /** Everything that passes has a derivation of some finite depth. */
  lemma PassingIsDerivable(commits: seq<Commit>, ans: Answers, st: seq<Status>, i: nat)
    requires |commits| == |st| && i in PassingIn(Policy(commits, ans, st))
    ensures Derivable(commits, ans, st, i)
  {
    PolicyIsLeastFixpoint(commits, ans, st);
    var derived := set i: nat | i < |st| && Derivable(commits, ans, st, i);
    var bound := DepthBound(commits, ans, st, derived);
    RuleMonotone(commits, ans, st, derived, DerivedBy(commits, ans, st, bound));
    forall j | j in RuleSet(commits, ans, st, derived) ensures j in derived {
      assert j in DerivedBy(commits, ans, st, bound + 1);
    }
  }

  lemma {:induction false} DepthBound(commits: seq<Commit>, ans: Answers, st: seq<Status>,
                                      some: set<nat>) returns (bound: nat)
    requires |commits| == |st|
    requires forall i :: i in some ==> Derivable(commits, ans, st, i)
    ensures some <= DerivedBy(commits, ans, st, bound)
    decreases some
  {
    if some == {} {
      bound := 0;
    } else {
      var i :| i in some;
      var n: nat :| i in DerivedBy(commits, ans, st, n);
      var rest := DepthBound(commits, ans, st, some - {i});
      bound := if n > rest then n else rest;
      DerivedByGrows(commits, ans, st, n, bound);
      DerivedByGrows(commits, ans, st, rest, bound);
    }
  }
}
