/**
 * The repository host that backportPullRequest talks to: its git references,
 * its pull requests (with the commits of each) and a log of every collaborator
 * call of a backport, including the `_intercept` test hook, in order. The REST
 * client, the `shared-github-internals` helpers and the `github-cherry-pick`
 * library are not modelled; each call either succeeds, as the host would, or
 * fails with the error a fault oracle hands it.
 */
module GitHost {
  import opened Wrappers

  type Ref = string
  type Sha = string

  datatype PullRequest = PullRequest(number: nat, base: Ref, head: Ref, title: string, body: string)

  datatype Error =
    | NotFound(name: string)       // the reference or pull request does not exist
    | AlreadyExists(name: string)  // a reference of that name already exists
    | Failed(reason: string)       // any other failure a collaborator reports
    | Thrown(message: string)      // an `Error` raised by backportPullRequest itself

  /** One collaborator call made during a backport (a host call, the cherry-pick or the test hook), with its arguments. */
  datatype Call =
    | FetchRefSha(ref: Ref)
    | FetchCommits(number: nat)
    | CreateRef(ref: Ref, sha: Sha)
    | Intercept(commits: seq<Sha>)
    | CherryPick(head: Ref, commits: seq<Sha>)
    | CreatePull(base: Ref, head: Ref, title: string, body: string)
    | DeleteRef(ref: Ref)

  /** What the cherry-pick library does: move `head` to a new tip, or fail (possibly after moving it). */
  datatype PickOutcome = Picked(tip: Sha) | PickFailed(error: Error, movedTo: Option<Sha>)

  datatype Reply<T> = Reply(result: Result<T, Error>, repo: Repo)

  /**
   * A snapshot of the host. `commits` maps a pull-request number to its commits,
   * oldest first; `nextNumber` is the number the host gives the next pull request.
   */
  datatype Repo = Repo(
    refs: map<Ref, Sha>,
    pulls: seq<PullRequest>,
    commits: map<nat, seq<Sha>>,
    nextNumber: nat,
    log: seq<Call>)
  {
    /** Every existing pull request has a number below the next one handed out. */
    ghost predicate Valid() {
      forall i | 0 <= i < |pulls| :: pulls[i].number < nextNumber
    }

    function Record(c: Call): Repo {
      this.(log := log + [c])
    }

    /** `fetchReferenceSha`: the SHA a reference points at. */
    function FetchReferenceSha(ref: Ref, fault: Option<Error>): (r: Reply<Sha>)
      ensures r.repo == Record(FetchRefSha(ref))
      ensures r.result.Success? <==> fault.None? && ref in refs
      ensures r.result.Success? ==> r.result.value == refs[ref]
      ensures fault.Some? ==> r.result == Failure(fault.value)
    {
      var s := Record(FetchRefSha(ref));
      if fault.Some? then Reply(Failure(fault.value), s)
      else if ref !in refs then Reply(Failure(NotFound(ref)), s)
      else Reply(Success(refs[ref]), s)
    }

    /** `fetchCommits`: the commits of a pull request, oldest first. */
    function FetchPullCommits(number: nat, fault: Option<Error>): (r: Reply<seq<Sha>>)
      ensures r.repo == Record(FetchCommits(number))
      ensures r.result.Success? <==> fault.None? && number in commits
      ensures r.result.Success? ==> r.result.value == commits[number]
      ensures fault.Some? ==> r.result == Failure(fault.value)
    {
      var s := Record(FetchCommits(number));
      if fault.Some? then Reply(Failure(fault.value), s)
      else if number !in commits then Reply(Failure(NotFound("pull request")), s)
      else Reply(Success(commits[number]), s)
    }

    /** `createReference`: a new reference; refused when the name is taken. */
    function CreateReference(ref: Ref, sha: Sha, fault: Option<Error>): (r: Reply<()>)
      ensures r.repo == Record(CreateRef(ref, sha)).(refs := r.repo.refs)
      ensures r.result.Success? <==> fault.None? && ref !in refs
      ensures r.repo.refs == if r.result.Success? then refs[ref := sha] else refs
      ensures fault.None? && ref in refs ==> r.result == Failure(AlreadyExists(ref))
    {
      var s := Record(CreateRef(ref, sha));
      if fault.Some? then Reply(Failure(fault.value), s)
      else if ref in refs then Reply(Failure(AlreadyExists(ref)), s)
      else Reply(Success(()), s.(refs := refs[ref := sha]))
    }

    /** The `_intercept` test hook: it may observe the host, or fail. */
    function InterceptCommits(commits: seq<Sha>, fault: Option<Error>): (r: Reply<()>)
      ensures r.repo == Record(Intercept(commits))
      ensures r.result.Failure? <==> fault.Some?
    {
      var s := Record(Intercept(commits));
      if fault.Some? then Reply(Failure(fault.value), s) else Reply(Success(()), s)
    }

    /** `cherryPick`: replays the commits on top of `head` and moves `head` to the result. */
    function CherryPickCommits(head: Ref, commits: seq<Sha>, outcome: PickOutcome): (r: Reply<Sha>)
      ensures r.repo == Record(CherryPick(head, commits)).(refs := r.repo.refs)
      ensures r.repo.refs - {head} == refs - {head} && r.repo.refs.Keys == refs.Keys
      ensures r.result.Success? <==> head in refs && outcome.Picked?
      ensures r.result.Success? ==> r.result.value == outcome.tip && r.repo.refs[head] == outcome.tip
    {
      var s := Record(CherryPick(head, commits));
      if head !in refs then Reply(Failure(NotFound(head)), s)
      else match outcome
        case Picked(tip) => Reply(Success(tip), s.(refs := refs[head := tip]))
        case PickFailed(e, None) => Reply(Failure(e), s)
        case PickFailed(e, Some(tip)) => Reply(Failure(e), s.(refs := refs[head := tip]))
    }

    /** `octokit.pullRequests.create`: a new pull request under the next number. */
    function CreatePullRequest(base: Ref, head: Ref, title: string, body: string, fault: Option<Error>): (r: Reply<nat>)
      ensures r.repo.refs == refs && r.repo.commits == commits && r.repo.log == log + [CreatePull(base, head, title, body)]
      ensures r.result.Success? <==> fault.None?
      ensures r.result.Success? ==>
        && r.result.value == nextNumber
        && r.repo.pulls == pulls + [PullRequest(nextNumber, base, head, title, body)]
        && r.repo.nextNumber == nextNumber + 1
      ensures r.result.Failure? ==> r.result.error == fault.value && r.repo == Record(CreatePull(base, head, title, body))
    {
      var s := Record(CreatePull(base, head, title, body));
      if fault.Some? then Reply(Failure(fault.value), s)
      else Reply(Success(nextNumber), s.(pulls := pulls + [PullRequest(nextNumber, base, head, title, body)],
                                         nextNumber := nextNumber + 1))
    }

    /** `deleteReference`: removes a reference; refused when it does not exist. */
    function DeleteReference(ref: Ref, fault: Option<Error>): (r: Reply<()>)
      ensures r.repo == Record(DeleteRef(ref)).(refs := r.repo.refs)
      ensures r.result.Success? <==> fault.None? && ref in refs
      ensures r.repo.refs == if r.result.Success? then refs - {ref} else refs
      ensures fault.None? && ref !in refs ==> r.result == Failure(NotFound(ref))
    {
      var s := Record(DeleteRef(ref));
      if fault.Some? then Reply(Failure(fault.value), s)
      else if ref !in refs then Reply(Failure(NotFound(ref)), s)
      else Reply(Success(()), s.(refs := refs - {ref}))
    }
  }

  /**
   * The host as the backport mutates it, one awaited call at a time. Each method
   * is proved against the `Repo` function of the same name, which is its
   * specification and the form in which `Run` and its lemmas use it.
   */
  class Host {
    var refs: map<Ref, Sha>
    var pulls: seq<PullRequest>
    var commits: map<nat, seq<Sha>>
    var nextNumber: nat
    var log: seq<Call>

    function State(): Repo
      reads this
    {
      Repo(refs, pulls, commits, nextNumber, log)
    }

    method FetchReferenceSha(ref: Ref, fault: Option<Error>) returns (r: Result<Sha, Error>)
      modifies this
      ensures Reply(r, State()) == old(State()).FetchReferenceSha(ref, fault)
    {
      log := log + [FetchRefSha(ref)];
      if fault.Some? {
        r := Failure(fault.value);
      } else if ref !in refs {
        r := Failure(NotFound(ref));
      } else {
        r := Success(refs[ref]);
      }
    }

    method FetchPullCommits(number: nat, fault: Option<Error>) returns (r: Result<seq<Sha>, Error>)
      modifies this
      ensures Reply(r, State()) == old(State()).FetchPullCommits(number, fault)
    {
      log := log + [FetchCommits(number)];
      if fault.Some? {
        r := Failure(fault.value);
      } else if number !in commits {
        r := Failure(NotFound("pull request"));
      } else {
        r := Success(commits[number]);
      }
    }

    method CreateReference(ref: Ref, sha: Sha, fault: Option<Error>) returns (r: Result<(), Error>)
      modifies this
      ensures Reply(r, State()) == old(State()).CreateReference(ref, sha, fault)
    {
      log := log + [CreateRef(ref, sha)];
      if fault.Some? {
        r := Failure(fault.value);
      } else if ref in refs {
        r := Failure(AlreadyExists(ref));
      } else {
        refs := refs[ref := sha];
        r := Success(());
      }
    }

    method InterceptCommits(commits: seq<Sha>, fault: Option<Error>) returns (r: Result<(), Error>)
      modifies this
      ensures Reply(r, State()) == old(State()).InterceptCommits(commits, fault)
    {
      log := log + [Intercept(commits)];
      r := if fault.Some? then Failure(fault.value) else Success(());
    }

    method CherryPickCommits(head: Ref, commits: seq<Sha>, outcome: PickOutcome) returns (r: Result<Sha, Error>)
      modifies this
      ensures Reply(r, State()) == old(State()).CherryPickCommits(head, commits, outcome)
    {
      log := log + [CherryPick(head, commits)];
      if head !in refs {
        r := Failure(NotFound(head));
      } else {
        match outcome
        case Picked(tip) =>
          refs := refs[head := tip];
          r := Success(tip);
        case PickFailed(e, moved) =>
          if moved.Some? {
            refs := refs[head := moved.value];
          }
          r := Failure(e);
      }
    }

    method CreatePullRequest(base: Ref, head: Ref, title: string, body: string, fault: Option<Error>)
      returns (r: Result<nat, Error>)
      modifies this
      ensures Reply(r, State()) == old(State()).CreatePullRequest(base, head, title, body, fault)
    {
      log := log + [CreatePull(base, head, title, body)];
      if fault.Some? {
        r := Failure(fault.value);
      } else {
        pulls := pulls + [PullRequest(nextNumber, base, head, title, body)];
        r := Success(nextNumber);
        nextNumber := nextNumber + 1;
      }
    }

    method DeleteReference(ref: Ref, fault: Option<Error>) returns (r: Result<(), Error>)
      modifies this
      ensures Reply(r, State()) == old(State()).DeleteReference(ref, fault)
    {
      log := log + [DeleteRef(ref)];
      if fault.Some? {
        r := Failure(fault.value);
      } else if ref !in refs {
        r := Failure(NotFound(ref));
      } else {
        refs := refs - {ref};
        r := Success(());
      }
    }
  }
}
