/** `apply_platform_merge_policy` as the verifier runs it: in place, over the verdicts, asking git for
    the boundary only when a parent lies outside the range and for its version only before the first
    merge is recomputed. */
module MergePolicyLoop {
  import opened Wrappers
  import opened MergePolicy

  ghost predicate SomeWaits(commits: seq<Commit>, undecided: set<nat>, parents: seq<string>) {
    exists p :: p in parents && Waits(commits, undecided, p)
  }

  lemma WaitsMore(commits: seq<Commit>, undecided: set<nat>, parents: seq<string>, k: nat)
    requires k < |parents|
    ensures SomeWaits(commits, undecided, parents[..k + 1])
         == (SomeWaits(commits, undecided, parents[..k]) || Waits(commits, undecided, parents[k]))
  {
    assert parents[..k + 1] == parents[..k] + [parents[k]];
  }

  /** What git could not say is not guessed: without the boundary no verdict on `c` rests on a parent outside the
      list, and without a git to recompute merges no merge is found clean or altered. */
  ghost predicate Answered(commits: seq<Commit>, source: MergeSource, c: Commit, v: Status) {
    source.Git? ==>
      && (source.boundary.Err? ==>
            match v
            case PlatformMergeUnverifiedParent(_, p) => p == "(cyclic parent chain)" || Position(commits, p).Some?
            case PlatformMergeAltered(_, _) => AllListed(commits, c.parents)
            case Exempt(_) => AllListed(commits, c.parents)
            case _ => true)
      && (!source.modern ==> !v.Exempt? && !v.PlatformMergeAltered?)
  }

  /** So far, with `undecided` still open. */
  ghost predicate NothingGuessed(commits: seq<Commit>, source: MergeSource, was: seq<Status>, now: seq<Status>,
                                 undecided: set<nat>) {
    && |commits| == |was| == |now| && (forall i :: i in undecided ==> i < |was| && was[i].Exempt?)
    && forall i: nat :: i < |was| && was[i].Exempt? && i !in undecided ==> Answered(commits, source, commits[i], now[i])
  }

  lemma NothingGuessedYet(commits: seq<Commit>, source: MergeSource, st: seq<Status>)
    requires |commits| == |st|
    ensures NothingGuessed(commits, source, st, st, Provisional(st))
  {
  }

  lemma StillNothingGuessed(commits: seq<Commit>, source: MergeSource, was: seq<Status>, now: seq<Status>,
                            undecided: set<nat>, settled: map<nat, Status>)
    requires NothingGuessed(commits, source, was, now, undecided) && settled.Keys <= undecided
    requires forall i :: i in settled ==> Answered(commits, source, commits[i], settled[i])
    ensures NothingGuessed(commits, source, was, Apply(now, settled), undecided - settled.Keys)
  {
  }

  lemma CuttingGuessesNothing(commits: seq<Commit>, source: MergeSource, was: seq<Status>, now: seq<Status>,
                              undecided: set<nat>)
    requires NothingGuessed(commits, source, was, now, undecided) && Wellformed(commits, now, undecided)
    ensures NothingGuessed(commits, source, was, Apply(now, CyclicIn(now, undecided)), {})
  {
  }

  ghost predicate AllListed(commits: seq<Commit>, parents: seq<string>) {
    forall p :: p in parents ==> Position(commits, p).Some?
  }

  lemma ListedMore(commits: seq<Commit>, parents: seq<string>, k: nat)
    requires k < |parents|
    ensures AllListed(commits, parents[..0])
    ensures AllListed(commits, parents[..k + 1])
       <==> AllListed(commits, parents[..k]) && Position(commits, parents[k]).Some?
    ensures Position(commits, parents[k]).None? ==> !AllListed(commits, parents)
  {
    assert parents[..k + 1] == parents[..k] + [parents[k]];
    assert parents[k] in parents;
  }

  /** `boundary`, if it is there, is the source's. */
  ghost predicate Fetched(source: MergeSource, boundary: Option<set<string>>) {
    boundary.Some? ==> boundary.value == AnswersOf(source).boundary && (source.Git? ==> source.boundary.Ok?)
  }

  /** Git was asked, and could not say, about merge `c`. */
  ghost predicate Unanswered(commits: seq<Commit>, source: MergeSource, c: Commit) {
    source.Git? && |c.parents| >= 2 && (!source.modern || (source.boundary.Err? && !AllListed(commits, c.parents)))
  }

  ghost predicate SomeUnanswered(commits: seq<Commit>, source: MergeSource, was: seq<Status>)
    requires |commits| == |was|
  {
    exists i: nat :: i < |was| && was[i].Exempt? && Unanswered(commits, source, commits[i])
  }

  lemma OneUnanswered(commits: seq<Commit>, source: MergeSource, was: seq<Status>, now: seq<Status>, undecided: set<nat>)
    requires NothingGuessed(commits, source, was, now, undecided)
    requires exists i :: i in undecided && i < |commits| && Unanswered(commits, source, commits[i])
    ensures SomeUnanswered(commits, source, was)
  {
    hide Unanswered;
    var i :| i in undecided && i < |commits| && Unanswered(commits, source, commits[i]);
  }

  /** Whether one parent fails, or is still undecided. The boundary is asked for only if it is not listed. */
  method ScanParent(source: MergeSource, commits: seq<Commit>, verdicts: array<Status>, ghost st: seq<Status>,
                    undecided: set<nat>, parent: string, known: Option<set<string>>)
    returns (fails: Result<bool, string>, waits: bool, boundary: Option<set<string>>)
    requires |commits| == |st| && verdicts[..] == st
    requires Fetched(source, known)
    ensures Fetched(source, boundary)
    ensures fails.Ok? ==> fails.value == Fails(commits, AnswersOf(source), st, undecided, parent)
    ensures fails.Ok? ==> waits == Waits(commits, undecided, parent)
    ensures source.Git? && source.boundary.Err? ==> (fails.Ok? <==> Position(commits, parent).Some?)
    ensures fails.Err? ==> source.Git? && source.boundary.Err?
  {
    boundary, waits, fails := known, false, Ok(false);
    match Position(commits, parent) {
      case Some(at) =>
        if at in undecided {
          waits := true;
        } else {
          fails := Ok(!verdicts[at].Passes());
        }
      case None =>
        if boundary.None? {
          match source {
            case Git(Err(why), _, _) => return Err(why), waits, boundary;
            case Git(Ok(set_), _, _) => boundary := Some(set_);
            case Facts(supplied, _) => boundary := Some(supplied);
          }
        }
        fails := Ok(parent !in boundary.value);
    }
  }

  lemma FailingFrom(commits: seq<Commit>, ans: Answers, st: seq<Status>, undecided: set<nat>, parents: seq<string>,
                    k: nat)
    requires |commits| == |st| && k < |parents|
    ensures FirstFailing(commits, ans, st, undecided, parents[k..])
         == if Fails(commits, ans, st, undecided, parents[k]) then Some(parents[k])
            else FirstFailing(commits, ans, st, undecided, parents[k + 1..])
  {
    assert parents[k..][1..] == parents[k + 1..];
  }

  /** The parent scan for one commit: the first parent that fails, or whether one is still undecided.
      `boundary` is fetched on first use and kept. */
  method ScanParents(source: MergeSource, commits: seq<Commit>, verdicts: array<Status>, undecided: set<nat>,
                     parents: seq<string>, known: Option<set<string>>)
    returns (res: Result<Option<string>, string>, waiting: bool, boundary: Option<set<string>>)
    requires verdicts.Length == |commits|
    requires Fetched(source, known)
    ensures Fetched(source, boundary)
    ensures res.Ok? && source.Git? && source.boundary.Err? ==>
      if res.value.Some? then Position(commits, res.value.value).Some? else AllListed(commits, parents)
    ensures res.Ok? ==> res.value == FirstFailing(commits, AnswersOf(source), verdicts[..], undecided, parents)
    ensures res.Ok? && res.value.None? ==> (waiting <==> SomeWaits(commits, undecided, parents))
    ensures res.Err? ==> source.Git? && source.boundary.Err? && !AllListed(commits, parents)
  {
    hide *;
    ghost var ans, st, unbounded := AnswersOf(source), verdicts[..], source.Git? && source.boundary.Err?;
    boundary, waiting := known, false;
    var k := 0;
    ScanBegins(commits, ans, st, undecided, parents, unbounded);
    while k < |parents|
      invariant k <= |parents| && verdicts[..] == st && Fetched(source, boundary)
      invariant ScannedTo(commits, ans, st, undecided, parents, unbounded, k, waiting)
    {
      ScanGoesOn(commits, ans, st, undecided, parents, unbounded, k, waiting);
      var fails, waits;
      fails, waits, boundary := ScanParent(source, commits, verdicts, st, undecided, parents[k], boundary);
      if fails.Err? {
        return Err(fails.error), waiting, boundary;
      }
      if fails.value {
        return Ok(Some(parents[k])), waiting, boundary;
      }
      waiting := waiting || waits;
      k := k + 1;
    }
    ScanEnds(commits, ans, st, undecided, parents, unbounded, waiting);
    res := Ok(None);
  }

  /** No parent of the first `k` fails; `waiting` says whether one is undecided, and if the boundary is not to be had
      all are listed. */
  ghost predicate ScannedTo(commits: seq<Commit>, ans: Answers, st: seq<Status>, undecided: set<nat>,
                            parents: seq<string>, unbounded: bool, k: nat, waiting: bool)
    requires |commits| == |st|
  {
    && k <= |parents|
    && FirstFailing(commits, ans, st, undecided, parents) == FirstFailing(commits, ans, st, undecided, parents[k..])
    && (waiting <==> SomeWaits(commits, undecided, parents[..k]))
    && (unbounded ==> AllListed(commits, parents[..k]))
  }

  lemma ScanBegins(commits: seq<Commit>, ans: Answers, st: seq<Status>, undecided: set<nat>, parents: seq<string>,
                   unbounded: bool)
    requires |commits| == |st|
    ensures ScannedTo(commits, ans, st, undecided, parents, unbounded, 0, false)
  {
    assert parents[0..] == parents && !SomeWaits(commits, undecided, parents[..0]);
  }

  lemma ScanGoesOn(commits: seq<Commit>, ans: Answers, st: seq<Status>, undecided: set<nat>, parents: seq<string>,
                   unbounded: bool, k: nat, waiting: bool)
    requires |commits| == |st| && k < |parents|
    requires ScannedTo(commits, ans, st, undecided, parents, unbounded, k, waiting)
    ensures var fails, waits, listed := Fails(commits, ans, st, undecided, parents[k]),
                                        Waits(commits, undecided, parents[k]), Position(commits, parents[k]).Some?;
      && (fails ==> FirstFailing(commits, ans, st, undecided, parents) == Some(parents[k]))
      && (!fails && (unbounded ==> listed) ==>
            ScannedTo(commits, ans, st, undecided, parents, unbounded, k + 1, waiting || waits))
      && (!listed ==> !AllListed(commits, parents))
  {
    WaitsMore(commits, undecided, parents, k);
    ListedMore(commits, parents, k);
    FailingFrom(commits, ans, st, undecided, parents, k);
    hide Fails, Waits, Position, SomeWaits, AllListed, FirstFailing;
  }

  lemma ScanEnds(commits: seq<Commit>, ans: Answers, st: seq<Status>, undecided: set<nat>, parents: seq<string>,
                 unbounded: bool, waiting: bool)
    requires |commits| == |st| && ScannedTo(commits, ans, st, undecided, parents, unbounded, |parents|, waiting)
    ensures FirstFailing(commits, ans, st, undecided, parents) == None
    ensures waiting <==> SomeWaits(commits, undecided, parents)
    ensures unbounded ==> AllListed(commits, parents)
  {
    assert parents[..|parents|] == parents && parents[|parents|..] == [];
  }

  /** One undecided commit: its new verdict, or none while it waits for a parent. */
  method DecideOne(source: MergeSource, commits: seq<Commit>, verdicts: array<Status>, undecided: set<nat>, i: nat,
                   known: Option<set<string>>, checked: bool)
    returns (res: Result<Option<Status>, string>, boundary: Option<set<string>>, gitChecked: bool)
    requires verdicts.Length == |commits| && i < |commits| && verdicts[i].Exempt?
    requires Fetched(source, known) && (checked && source.Git? ==> source.modern)
    ensures Fetched(source, boundary) && (gitChecked && source.Git? ==> source.modern)
    ensures res.Ok? ==> res.value == Decide(commits, AnswersOf(source), verdicts[..], undecided, i)
    ensures res.Ok? && res.value.Some? ==> Answered(commits, source, commits[i], res.value.value)
    ensures res.Err? ==> Unanswered(commits, source, commits[i])
  {
    boundary, gitChecked := known, checked;
    var c, fingerprint := commits[i], verdicts[i].fingerprint;
    if |c.parents| < 2 {
      return Ok(Some(PlatformSignedEdit(fingerprint))), boundary, gitChecked;
    }
    var scan, waiting;
    scan, waiting, boundary := ScanParents(source, commits, verdicts, undecided, c.parents, boundary);
    if scan.Err? {
      return Err(scan.error), boundary, gitChecked;
    }
    if scan.value.Some? {
      return Ok(Some(PlatformMergeUnverifiedParent(fingerprint, scan.value.value))), boundary, gitChecked;
    }
    if waiting {
      return Ok(None), boundary, gitChecked;
    }
    if !gitChecked && source.Git? && !source.modern {
      return Err("a git that cannot pin its attributes"), boundary, gitChecked;
    }
    gitChecked := true;
    var mismatch := CleanMergeMismatch(c, AnswersOf(source).recompute);
    res := Ok(Some(if mismatch.None? then Exempt(fingerprint) else PlatformMergeAltered(fingerprint, mismatch.value)));
  }

  /** One round: what it settles, every verdict being read as the round found it. */
  method OneRound(source: MergeSource, commits: seq<Commit>, verdicts: array<Status>, undecided: set<nat>,
                  known: Option<set<string>>, checked: bool)
    returns (res: Result<map<nat, Status>, string>, boundary: Option<set<string>>, gitChecked: bool)
    requires Wellformed(commits, verdicts[..], undecided)
    requires Fetched(source, known) && (checked && source.Git? ==> source.modern)
    ensures Fetched(source, boundary) && (gitChecked && source.Git? ==> source.modern)
    ensures res.Ok? ==> res.value == SettledIn(commits, AnswersOf(source), verdicts[..], undecided)
    ensures res.Ok? ==> forall i :: i in res.value ==> Answered(commits, source, commits[i], res.value[i])
    ensures res.Err? ==> exists i :: i in undecided && Unanswered(commits, source, commits[i])
  {
    hide *;
    boundary, gitChecked := known, checked;
    ghost var ans, st := AnswersOf(source), verdicts[..];
    var settled: map<nat, Status> := map[];
    RoundBegins(commits, source, st, undecided);
    for i := 0 to verdicts.Length
      invariant verdicts[..] == st && RoundTo(commits, source, st, undecided, i, settled)
      invariant Fetched(source, boundary) && (gitChecked && source.Git? ==> source.modern)
    {
      ghost var before := settled;
      if i in undecided {
        UndecidedIsExempt(commits, st, undecided, i);
        var decided;
        decided, boundary, gitChecked := DecideOne(source, commits, verdicts, undecided, i, boundary, gitChecked);
        if decided.Err? {
          return Err(decided.error), boundary, gitChecked;
        }
        if decided.value.Some? {
          settled := settled[i := decided.value.value];
        }
      }
      RoundGoesOn(commits, source, st, undecided, i, before, settled);
    }
    RoundEnds(commits, source, st, undecided, settled);
    res := Ok(settled);
  }

  /** What a round settles among the first `i` commits. */
  ghost predicate RoundTo(commits: seq<Commit>, source: MergeSource, st: seq<Status>, undecided: set<nat>, i: nat,
                          settled: map<nat, Status>)
    requires Wellformed(commits, st, undecided)
  {
    var expected := SettledIn(commits, AnswersOf(source), st, undecided);
    && (forall j :: j in settled <==> j in expected && j < i)
    && (forall j :: j in settled ==> settled[j] == expected[j] && Answered(commits, source, commits[j], settled[j]))
  }

  lemma RoundBegins(commits: seq<Commit>, source: MergeSource, st: seq<Status>, undecided: set<nat>)
    requires Wellformed(commits, st, undecided)
    ensures |commits| == |st| && RoundTo(commits, source, st, undecided, 0, map[])
  {
  }

  lemma UndecidedIsExempt(commits: seq<Commit>, st: seq<Status>, undecided: set<nat>, i: nat)
    requires Wellformed(commits, st, undecided) && i in undecided
    ensures i < |st| && st[i].Exempt?
  {
  }

  lemma RoundGoesOn(commits: seq<Commit>, source: MergeSource, st: seq<Status>, undecided: set<nat>, i: nat,
                    before: map<nat, Status>, settled: map<nat, Status>)
    requires Wellformed(commits, st, undecided) && RoundTo(commits, source, st, undecided, i, before) && i < |st|
    requires if i !in undecided then settled == before
             else
               st[i].Exempt?
               && match Decide(commits, AnswersOf(source), st, undecided, i)
                  case None => settled == before
                  case Some(v) => settled == before[i := v] && Answered(commits, source, commits[i], v)
    ensures RoundTo(commits, source, st, undecided, i + 1, settled)
  {
    hide Answered, Decide;
  }

  lemma RoundEnds(commits: seq<Commit>, source: MergeSource, st: seq<Status>, undecided: set<nat>,
                  settled: map<nat, Status>)
    requires Wellformed(commits, st, undecided) && RoundTo(commits, source, st, undecided, |st|, settled)
    ensures settled == SettledIn(commits, AnswersOf(source), st, undecided)
    ensures forall i :: i in settled ==> i < |commits| && Answered(commits, source, commits[i], settled[i])
  {
    hide Answered, Decide;
    var expected := SettledIn(commits, AnswersOf(source), st, undecided);
    assert settled == expected;
  }

  /** Write `changes` over the verdicts. */
  method Write(verdicts: array<Status>, changes: map<nat, Status>)
    modifies verdicts
    ensures verdicts[..] == Apply(old(verdicts[..]), changes)
  {
    forall i | 0 <= i < verdicts.Length && i in changes {
      verdicts[i] := changes[i];
    }
  }

  method ApplyPlatformMergePolicy(source: MergeSource, commits: seq<Commit>, verdicts: array<Status>)
    returns (res: Result<(), string>)
    requires verdicts.Length == |commits|
    modifies verdicts
    ensures res.Ok? ==> verdicts[..] == Policy(commits, AnswersOf(source), old(verdicts[..]))
    ensures res.Ok? ==>
      && KeptAsMeant(commits, source, old(verdicts[..]), verdicts[..])
      && NothingGuessed(commits, source, old(verdicts[..]), verdicts[..], {})
    ensures res.Err? ==> SomeUnanswered(commits, source, old(verdicts[..]))
  {
    ghost var ans := AnswersOf(source);
    var undecided := set i: nat | i < verdicts.Length && verdicts[i].Exempt?;
    assert undecided == Provisional(verdicts[..]);
    ghost var was := verdicts[..];
    assert Fetched(source, None);
    NothingGuessedYet(commits, source, was);
    AllKeptAsMeant(commits, source, was);
    hide Answered, NothingGuessed, KeptAsMeant, Unanswered, Fetched, Decide;
    var boundary: Option<set<string>> := None;
    var gitChecked := false;
    while undecided != {}
      invariant Wellformed(commits, verdicts[..], undecided)
      invariant Settle(commits, ans, verdicts[..], undecided) == Policy(commits, ans, old(verdicts[..]))
      invariant Fetched(source, boundary) && (gitChecked && source.Git? ==> source.modern)
      invariant NothingGuessed(commits, source, was, verdicts[..], undecided)
      decreases undecided
    {
      SettleUnfolds(commits, ans, verdicts[..], undecided);
      RoundWellformed(commits, ans, verdicts[..], undecided);
      var round;
      round, boundary, gitChecked := OneRound(source, commits, verdicts, undecided, boundary, gitChecked);
      if round.Err? {
        OneUnanswered(commits, source, was, verdicts[..], undecided);
        return Err(round.error);
      }
      if round.value == map[] {
        CuttingGuessesNothing(commits, source, was, verdicts[..], undecided);
        Write(verdicts, CyclicIn(verdicts[..], undecided));
        break;
      }
      StillNothingGuessed(commits, source, was, verdicts[..], undecided, round.value);
      Write(verdicts, round.value);
      undecided := undecided - round.value.Keys;
    }
    res := Ok(());
  }
}
