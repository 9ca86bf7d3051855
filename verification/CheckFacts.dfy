/** What the bridge gives the verifier in place of a checkout (crates/vgi-bridge/src/checks.rs): the
    boundary read off a commit listing, and the platform merges recomputed one by one. */
module CheckFacts {
  import opened Wrappers
  import opened MergePolicy

  const MAX_PLATFORM_MERGES := 8

  // ---- Commit history ----

  /** A repository's history: each commit's parents, by id. */
  type History = map<string, seq<string>>

  /** `walk` starts at `tip` and follows parent links. */
  ghost predicate IsWalk(history: History, tip: string, walk: seq<string>) {
    && |walk| > 0 && walk[0] == tip
    && forall k :: 0 <= k < |walk| - 1 ==> walk[k] in history && walk[k + 1] in history[walk[k]]
  }

  ghost predicate Reaches(history: History, tip: string, sha: string) {
    exists walk :: IsWalk(history, tip, walk) && walk[|walk| - 1] == sha
  }

  lemma ReachesParents(history: History, tip: string, sha: string, parent: string)
    requires Reaches(history, tip, sha) && sha in history && parent in history[sha]
    ensures Reaches(history, tip, parent)
  {
    var walk :| IsWalk(history, tip, walk) && walk[|walk| - 1] == sha;
    assert IsWalk(history, tip, walk + [parent]);
  }

  /** `commits` lists `base..head`: the commits reachable from `head` and not from `base`, each with
      the parents the history gives it. */
  ghost predicate ListsRange(history: History, base: string, head: string, commits: seq<Commit>) {
    && (forall c :: c in commits ==> c.sha in history && c.parents == history[c.sha])
    && forall sha :: (exists c :: c in commits && c.sha == sha)
                     <==> Reaches(history, head, sha) && !Reaches(history, base, sha)
  }

  /** What `git rev-list --boundary base..head` marks: the excluded commits that are parents of
      included ones. */
  ghost predicate OnGitBoundary(history: History, base: string, commits: seq<Commit>, sha: string) {
    && Reaches(history, base, sha)
    && exists c :: c in commits && sha in c.parents
  }

  /** Every parent a commit of the list names outside the list. */
  function BoundaryOf(commits: seq<Commit>): set<string> {
    var listed := set c | c in commits :: c.sha;
    set c, p | c in commits && p in c.parents && p !in listed :: p
  }

  /** MAIN RESULT. The boundary read off a complete listing is the boundary git computes from the
      history, and all of it is already on the base. */
  lemma ListedBoundaryIsGitBoundary(history: History, base: string, head: string, commits: seq<Commit>, sha: string)
    requires ListsRange(history, base, head, commits)
    ensures sha in BoundaryOf(commits) <==> OnGitBoundary(history, base, commits, sha)
  {
    var listed := set c | c in commits :: c.sha;
    forall c | c in commits && sha in c.parents
      ensures sha !in listed <==> Reaches(history, base, sha)
    {
      assert Reaches(history, head, c.sha);
      ReachesParents(history, head, c.sha, sha);
      assert sha in listed <==> exists d :: d in commits && d.sha == sha;
    }
  }

  // ---- The recomputed merges ----

  datatype Candidate = Candidate(merge: string, ours: string, theirs: string)

  /** The platform-signed two-parent merges of `commits`, in order; `platformSigned` are the ids of the
      commits that carry a PGP signature. */
  function Candidates(commits: seq<Commit>, platformSigned: set<string>): (r: seq<Candidate>) {
    if |commits| == 0 then []
    else
      var c, rest := commits[|commits| - 1], Candidates(commits[..|commits| - 1], platformSigned);
      if c.sha in platformSigned && |c.parents| == 2 then rest + [Candidate(c.sha, c.parents[0], c.parents[1])]
      else rest
  }

  /** The forge and the throwaway repository: the merge base of two commits, and their merge over a
      pinned base. */
  datatype Forge = Forge(
    mergeBase: (string, string) -> Result<string, string>,
    recompute: (string, string, string) -> MergeOutcome)

  function OutcomeOf(forge: Forge, n: nat, m: Candidate): MergeOutcome {
    if n >= MAX_PLATFORM_MERGES then Unavailable("more platform-signed merges than one check recomputes")
    else match forge.mergeBase(m.ours, m.theirs)
      case Ok(base) => forge.recompute(m.ours, m.theirs, base)
      case Err(why) => Unavailable(why)
  }

  /** `c` has a PGP signature and two parents. */
  ghost predicate IsPlatformMerge(c: Commit, platformSigned: set<string>) {
    c.sha in platformSigned && |c.parents| == 2
  }

  /** How many of `commits` are platform merges. */
  ghost function MergesAmong(commits: seq<Commit>, platformSigned: set<string>): nat {
    if |commits| == 0 then 0
    else
      MergesAmong(commits[..|commits| - 1], platformSigned)
      + if IsPlatformMerge(commits[|commits| - 1], platformSigned) then 1 else 0
  }

  /** What was found for the platform merge at place `i` of `commits`: for the first eight, the forge's merge of its
      parents over their merge base; nothing without that base, nor past the eighth. */
  ghost predicate FoundFor(forge: Forge, commits: seq<Commit>, platformSigned: set<string>, i: nat, found: MergeOutcome)
    requires i < |commits| && |commits[i].parents| == 2
  {
    var ours, theirs := commits[i].parents[0], commits[i].parents[1];
    if MergesAmong(commits[..i], platformSigned) >= 8 then found.Unavailable?
    else match forge.mergeBase(ours, theirs)
      case Ok(base) => found == forge.recompute(ours, theirs, base)
      case Err(why) => found == Unavailable(why)
  }

  /** `merges` has what was found for some platform merge of `commits` under each of its ids, and an id for each. */
  ghost predicate AnsweredBy(forge: Forge, commits: seq<Commit>, platformSigned: set<string>,
                             merges: map<string, MergeOutcome>) {
    && (forall sha :: sha in merges ==> exists i ::
          && 0 <= i < |commits| && commits[i].sha == sha && IsPlatformMerge(commits[i], platformSigned)
          && FoundFor(forge, commits, platformSigned, i, merges[sha]))
    && (forall i :: 0 <= i < |commits| && IsPlatformMerge(commits[i], platformSigned) ==> commits[i].sha in merges)
  }

  /** Candidate `n` stands at place `i`. */
  ghost predicate CandidateAt(commits: seq<Commit>, platformSigned: set<string>, n: nat, i: nat) {
    var candidates := Candidates(commits, platformSigned);
    && n < |candidates| && i < |commits| && IsPlatformMerge(commits[i], platformSigned)
    && MergesAmong(commits[..i], platformSigned) == n
    && candidates[n] == Candidate(commits[i].sha, commits[i].parents[0], commits[i].parents[1])
  }

  lemma CandidateStays(commits: seq<Commit>, platformSigned: set<string>, n: nat, i: nat)
    requires |commits| > 0 && CandidateAt(commits[..|commits| - 1], platformSigned, n, i)
    ensures CandidateAt(commits, platformSigned, n, i)
  {
    var rest := commits[..|commits| - 1];
    assert rest[..i] == commits[..i] && rest[i] == commits[i];
  }

  lemma {:induction false} CandidatesCounted(commits: seq<Commit>, platformSigned: set<string>)
    ensures |Candidates(commits, platformSigned)| == MergesAmong(commits, platformSigned)
  {
    if |commits| > 0 {
      CandidatesCounted(commits[..|commits| - 1], platformSigned);
    }
  }

  /** The candidates are the platform merges, each in its place among them. */
  lemma {:induction false} CandidateIsMerge(commits: seq<Commit>, platformSigned: set<string>, n: nat) returns (i: nat)
    requires n < |Candidates(commits, platformSigned)|
    ensures CandidateAt(commits, platformSigned, n, i)
  {
    var last := |commits| - 1;
    if n < |Candidates(commits[..last], platformSigned)| {
      i := CandidateIsMerge(commits[..last], platformSigned, n);
      CandidateStays(commits, platformSigned, n, i);
    } else {
      CandidatesCounted(commits[..last], platformSigned);
      i := last;
    }
  }

  lemma {:induction false} MergeIsCandidate(commits: seq<Commit>, platformSigned: set<string>, i: nat)
    requires i < |commits| && IsPlatformMerge(commits[i], platformSigned)
    ensures CandidateAt(commits, platformSigned, MergesAmong(commits[..i], platformSigned), i)
  {
    var last := |commits| - 1;
    if i < last {
      assert commits[..last][..i] == commits[..i] && commits[..last][i] == commits[i];
      MergeIsCandidate(commits[..last], platformSigned, i);
      CandidateStays(commits, platformSigned, MergesAmong(commits[..i], platformSigned), i);
    } else {
      CandidatesCounted(commits[..last], platformSigned);
    }
  }

  /** `merges` has the outcome of a candidate of the first `n` under each of its ids, and an id for each. */
  ghost predicate AnsweredSoFar(forge: Forge, candidates: seq<Candidate>, n: nat, merges: map<string, MergeOutcome>) {
    && n <= |candidates|
    && (forall sha :: sha in merges ==>
          exists k: nat :: k < n && candidates[k].merge == sha && merges[sha] == OutcomeOf(forge, k, candidates[k]))
    && (forall k: nat :: k < n ==> candidates[k].merge in merges)
  }

  lemma OneMoreAnswered(forge: Forge, candidates: seq<Candidate>, n: nat, merges: map<string, MergeOutcome>)
    requires AnsweredSoFar(forge, candidates, n, merges) && n < |candidates|
    ensures AnsweredSoFar(forge, candidates, n + 1,
                          merges[candidates[n].merge := OutcomeOf(forge, n, candidates[n])])
  {
    hide OutcomeOf;
    var now := merges[candidates[n].merge := OutcomeOf(forge, n, candidates[n])];
    forall sha | sha in now
      ensures exists k: nat :: k < n + 1 && candidates[k].merge == sha && now[sha] == OutcomeOf(forge, k, candidates[k])
    {
      if sha != candidates[n].merge {
        var k: nat :| k < n && candidates[k].merge == sha && merges[sha] == OutcomeOf(forge, k, candidates[k]);
      }
    }
  }

  lemma AllAnswered(forge: Forge, commits: seq<Commit>, platformSigned: set<string>, merges: map<string, MergeOutcome>)
    requires var candidates := Candidates(commits, platformSigned);
      AnsweredSoFar(forge, candidates, |candidates|, merges)
    ensures AnsweredBy(forge, commits, platformSigned, merges)
  {
    var candidates := Candidates(commits, platformSigned);
    forall sha | sha in merges
      ensures exists i ::
        && 0 <= i < |commits| && commits[i].sha == sha && IsPlatformMerge(commits[i], platformSigned)
        && FoundFor(forge, commits, platformSigned, i, merges[sha])
    {
      var n: nat :| n < |candidates| && candidates[n].merge == sha && merges[sha] == OutcomeOf(forge, n, candidates[n]);
      var i := CandidateIsMerge(commits, platformSigned, n);
      FoundInPlace(forge, commits, platformSigned, n, i);
    }
    forall i | 0 <= i < |commits| && IsPlatformMerge(commits[i], platformSigned) ensures commits[i].sha in merges {
      MergeIsCandidate(commits, platformSigned, i);
    }
  }

  lemma FoundInPlace(forge: Forge, commits: seq<Commit>, platformSigned: set<string>, n: nat, i: nat)
    requires CandidateAt(commits, platformSigned, n, i)
    ensures FoundFor(forge, commits, platformSigned, i, OutcomeOf(forge, n, Candidates(commits, platformSigned)[n]))
  {
  }

  /** The facts for one check: the listing's boundary and, if merges are to be recomputed at all, an answer for each
      platform merge. Of distinct commits it is the answer for that one. */
  method MergeFacts(forge: Forge, commits: seq<Commit>, platformSigned: set<string>, recompute: bool)
    returns (facts: MergeSource)
    ensures facts.Facts? && facts.supplied == BoundaryOf(commits)
    ensures !recompute ==> facts.merges == map[]
    ensures recompute ==> AnsweredBy(forge, commits, platformSigned, facts.merges)
    ensures recompute && Distinct(commits) ==> forall i :: 0 <= i < |commits| ==>
      && (commits[i].sha in facts.merges <==> IsPlatformMerge(commits[i], platformSigned))
      && (commits[i].sha in facts.merges ==>
            FoundFor(forge, commits, platformSigned, i, facts.merges[commits[i].sha]))
  {
    hide FoundFor, OutcomeOf;
    var merges: map<string, MergeOutcome> := map[];
    if recompute {
      var candidates := Candidates(commits, platformSigned);
      for n := 0 to |candidates|
        invariant AnsweredSoFar(forge, candidates, n, merges)
      {
        hide AnsweredSoFar;
        OneMoreAnswered(forge, candidates, n, merges);
        merges := merges[candidates[n].merge := OutcomeOf(forge, n, candidates[n])];
      }
      AllAnswered(forge, commits, platformSigned, merges);
    }
    facts := Facts(BoundaryOf(commits), merges);
  }

  // ---- The facts path against the git path ----

  /** Every recorded merge is what git would have found for those parents, or unavailable. */
  ghost predicate RightOrUnavailable(commits: seq<Commit>, merges: map<string, MergeOutcome>,
                                     git: (string, string) -> MergeOutcome) {
    forall c :: c in commits && |c.parents| == 2 && c.sha in merges ==>
      merges[c.sha].Unavailable? || merges[c.sha] == git(c.parents[0], c.parents[1])
  }

  /** Over whatever base it is given, the forge finds the merge git finds, or none. */
  ghost predicate Honest(forge: Forge, git: (string, string) -> MergeOutcome) {
    forall ours, theirs, base ::
      forge.recompute(ours, theirs, base).Unavailable? || forge.recompute(ours, theirs, base) == git(ours, theirs)
  }

  lemma HonestForgeGivesRightFacts(forge: Forge, commits: seq<Commit>, platformSigned: set<string>,
                                   merges: map<string, MergeOutcome>, git: (string, string) -> MergeOutcome)
    requires Distinct(commits) && Honest(forge, git)
    requires AnsweredBy(forge, commits, platformSigned, merges)
    ensures RightOrUnavailable(commits, merges, git)
  {
    forall c | c in commits && |c.parents| == 2 && c.sha in merges
      ensures merges[c.sha].Unavailable? || merges[c.sha] == git(c.parents[0], c.parents[1])
    {
      var i :| 0 <= i < |commits| && commits[i].sha == c.sha && IsPlatformMerge(commits[i], platformSigned)
               && FoundFor(forge, commits, platformSigned, i, merges[c.sha]);
      var j :| 0 <= j < |commits| && commits[j] == c;
      assert i == j;
    }
  }

  /** MAIN RESULT. Whatever the bridge passes from a complete listing and honest recomputations, the
      verifier with a full clone passes too. */
  lemma FactsPassOnlyWhatGitPasses(
    history: History, base: string, head: string, commits: seq<Commit>, st: seq<Status>,
    merges: map<string, MergeOutcome>, gitBoundary: set<string>, git: (string, string) -> MergeOutcome)
    requires |commits| == |st| && ListsRange(history, base, head, commits)
    requires forall sha :: sha in gitBoundary <==> OnGitBoundary(history, base, commits, sha)
    requires RightOrUnavailable(commits, merges, git)
    ensures PassingIn(Policy(commits, AnswersOf(Facts(BoundaryOf(commits), merges)), st))
         <= PassingIn(Policy(commits, AnswersOf(Git(Ok(gitBoundary), true, git)), st))
  {
    var facts, full := AnswersOf(Facts(BoundaryOf(commits), merges)), AnswersOf(Git(Ok(gitBoundary), true, git));
    forall sha | sha in BoundaryOf(commits) ensures sha in gitBoundary {
      ListedBoundaryIsGitBoundary(history, base, head, commits, sha);
    }
    assert Weaker(commits, facts, full);
    PolicyIsMonotone(commits, facts, full, st);
  }
}
