/**
 * What one run of backportPullRequest does to the host, as a function of the
 * host's state before the run, the settled options and the fault oracle.
 */
module BackportRun {
  import opened Wrappers
  import opened GitHost
  import opened Defaults

  /** Which calls fail, and how: one entry per collaborator call of a run. */
  datatype Faults = Faults(
    fetchRefSha: Option<Error>,
    fetchCommits: Option<Error>,
    createRef: Option<Error>,
    intercept: Option<Error>,
    cherryPick: PickOutcome,
    createPull: Option<Error>,
    deleteRef: Option<Error>)

  function Quote(sha: Sha): string {
    "\"" + sha + "\""
  }

  /**
   * `JSON.stringify` of a list of SHAs (hexadecimal, so nothing needs escaping):
   * a bracketed list, empty only for no commits, in which every commit appears quoted.
   */
  function Serialize(commits: seq<Sha>): (r: string)
    ensures |r| >= 2 && r[0] == '[' && r[|r| - 1] == ']'
    ensures r == "[]" <==> commits == []
    ensures forall j | 0 <= j < |commits| :: Contains(r, Quote(commits[j]))
  {
    var q := Quoted(commits);
    QuotedContainsEach(commits);
    forall j | 0 <= j < |commits|
      ensures Contains("[" + q + "]", Quote(commits[j]))
    {
      ContainsWithin("[", q, "]", Quote(commits[j]));
    }
    "[" + q + "]"
  }

  function Quoted(commits: seq<Sha>): string {
    if commits == [] then ""
    else if |commits| == 1 then Quote(commits[0])
    else Quote(commits[0]) + "," + Quoted(commits[1..])
  }

  lemma {:induction false} QuotedContainsEach(commits: seq<Sha>)
    ensures commits != [] ==> Quoted(commits) != [] && Quoted(commits)[0] == '"'
    ensures forall j | 0 <= j < |commits| :: Contains(Quoted(commits), Quote(commits[j]))
  {
    if |commits| == 1 {
      ContainsInMiddle("", Quote(commits[0]), "");
      assert "" + Quote(commits[0]) + "" == Quoted(commits);
    } else if |commits| > 1 {
      var rest := Quoted(commits[1..]);
      QuotedContainsEach(commits[1..]);
      ContainsInMiddle("", Quote(commits[0]), "," + rest);
      assert "" + Quote(commits[0]) + ("," + rest) == Quoted(commits);
      forall j | 1 <= j < |commits|
        ensures Contains(Quoted(commits), Quote(commits[j]))
      {
        assert commits[1..][j - 1] == commits[j];
        ContainsWithin(Quote(commits[0]) + ",", rest, "", Quote(commits[j]));
        assert Quote(commits[0]) + "," + rest + "" == Quoted(commits);
      }
    }
  }

  lemma {:induction false} ContainsWithin(a: string, s: string, b: string, t: string)
    requires Contains(s, t)
    ensures Contains(a + s + b, t)
    decreases |a| + |s|
  {
    if a != [] {
      assert (a + s + b)[1..] == a[1..] + s + b;
      ContainsWithin(a[1..], s, b, t);
    } else if |t| <= |s| && s[..|t|] == t {
      assert a + s + b == s + b;
      assert (s + b)[..|t|] == t;
    } else {
      assert a + s + b == [s[0]] + (s[1..] + b);
      ContainsWithin([], s[1..], b, t);
      assert [] + s[1..] + b == s[1..] + b;
    }
  }

  /** `t` occurs somewhere in `s`. */
  predicate Contains(s: string, t: string)
    decreases |s|
  {
    (|t| <= |s| && s[..|t|] == t) || (s != [] && Contains(s[1..], t))
  }

  lemma {:induction false} ContainsInMiddle(a: string, t: string, b: string)
    ensures Contains(a + t + b, t)
  {
    if a == [] {
      assert a + t + b == t + b;
      assert (t + b)[..|t|] == t;
    } else {
      assert (a + t + b)[1..] == a[1..] + t + b;
      ContainsInMiddle(a[1..], t, b);
    }
  }

  /**
   * The message of the error a failed cherry-pick is replaced with: it starts with
   * the attempted commits, says they could not be cherry-picked, and ends with the base.
   */
  function PickFailureMessage(commits: seq<Sha>, base: Ref): (m: string)
    ensures Contains(m, "could not be cherry-picked")
    ensures |m| >= |base| && m[|m| - |base|..] == base
    ensures |m| >= 8 + |Serialize(commits)| && m[..8 + |Serialize(commits)|] == "Commits " + Serialize(commits)
  {
    var attempted := "Commits " + Serialize(commits);
    var onTop := " on top of " + base;
    var m := attempted + " " + "could not be cherry-picked" + onTop;
    ContainsInMiddle(attempted + " ", "could not be cherry-picked", onTop);
    assert m[..|attempted|] == attempted;
    assert m[|m| - |base|..] == base;
    m
  }

  function Propagate<T, U>(r: Reply<T>): Reply<U>
    requires r.result.Failure?
  {
    Reply(Failure(r.result.error), r.repo)
  }

  /**
   * The outer `try` block (src/index.ts:87-118): cherry-pick, rewrapping its
   * failure, then create the pull request.
   */
  function Attempt(s: Repo, a: Settings, commits: seq<Sha>, f: Faults): (r: Reply<nat>)
    ensures r.result.Success? <==> a.head in s.refs && f.cherryPick.Picked? && f.createPull.None?
    ensures r.result.Success? ==> r.result.value == s.nextNumber
    ensures a.head in s.refs && f.cherryPick.PickFailed? ==> r.result == Failure(Thrown(PickFailureMessage(commits, a.base)))
    ensures a.head in s.refs && f.cherryPick.Picked? && f.createPull.Some? ==> r.result == Failure(f.createPull.value)
    ensures r.result.Failure? ==> r.repo.pulls == s.pulls
    ensures r.repo.refs.Keys == s.refs.Keys
  {
    var picked := s.CherryPickCommits(a.head, commits, f.cherryPick);
    if picked.result.Failure? then Reply(Failure(Thrown(PickFailureMessage(commits, a.base))), picked.repo)
    else picked.repo.CreatePullRequest(a.base, a.head, a.title, a.body, f.createPull)
  }

  /**
   * The `catch` (src/index.ts:119-124): delete `head`, then re-throw; a failed
   * delete throws its own error instead.
   */
  function Rollback(s: Repo, head: Ref, error: Error, fault: Option<Error>): (r: Reply<nat>)
    ensures r.result.Failure?
    ensures fault.Some? ==> r.result == Failure(fault.value) && r.repo.refs == s.refs
    ensures fault.None? && head in s.refs ==> r.result == Failure(error) && r.repo.refs == s.refs - {head}
    ensures fault.None? && head !in s.refs ==> r.result == Failure(NotFound(head)) && r.repo.refs == s.refs
    ensures r.repo.pulls == s.pulls && r.repo.log == s.log + [DeleteRef(head)]
  {
    var deleted := s.DeleteReference(head, fault);
    if deleted.result.Failure? then Propagate(deleted) else Reply(Failure(error), deleted.repo)
  }

  /** One whole run of backportPullRequest on host state `s`, as the source orders its calls. */
  function Run(s: Repo, a: Settings, f: Faults): (r: Reply<nat>)
    ensures s.log <= r.repo.log
    ensures r.repo.commits == s.commits
    ensures r.result.Success? ==> r.result.value == s.nextNumber && a.head in r.repo.refs
  {
    var sha := s.FetchReferenceSha(a.base, f.fetchRefSha);
    if sha.result.Failure? then Propagate(sha) else
    var commits := sha.repo.FetchPullCommits(a.number, f.fetchCommits);
    if commits.result.Failure? then Propagate(commits) else
    var created := commits.repo.CreateReference(a.head, sha.result.value, f.createRef);
    if created.result.Failure? then Propagate(created) else
    var hooked := created.repo.InterceptCommits(commits.result.value, f.intercept);
    if hooked.result.Failure? then Propagate(hooked) else
    var tried := Attempt(hooked.repo, a, commits.result.value, f);
    if tried.result.Success? then tried else Rollback(tried.repo, a.head, tried.result.error, f.deleteRef)
  }
}
