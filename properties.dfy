/**
 * What a run of backportPullRequest does, scenario by scenario: which calls it
 * makes, in which order and with which arguments, what it returns and what it
 * leaves behind on the host.
 */
module BackportProperties {
  import opened Wrappers
  import opened GitHost
  import opened Defaults
  import opened BackportRun

  /** Both lookups (the base's SHA, the source pull request's commits) succeed. */
  predicate LookupSucceeds(s: Repo, a: Settings, f: Faults) {
    f.fetchRefSha.None? && a.base in s.refs && f.fetchCommits.None? && a.number in s.commits
  }

  /** The `head` reference gets created. */
  predicate HeadCreated(s: Repo, a: Settings, f: Faults) {
    LookupSucceeds(s, a, f) && f.createRef.None? && a.head !in s.refs
  }

  /** The run gets past the `_intercept` hook into the `try`. */
  predicate ReachesTry(s: Repo, a: Settings, f: Faults) {
    HeadCreated(s, a, f) && f.intercept.None?
  }

  /** Cherry-pick and pull-request creation both succeed. */
  predicate Publishes(s: Repo, a: Settings, f: Faults) {
    ReachesTry(s, a, f) && f.cherryPick.Picked? && f.createPull.None?
  }

  /** The calls of a run that goes all the way, in the order the source makes them. */
  function Protocol(s: Repo, a: Settings): seq<Call>
    requires a.base in s.refs && a.number in s.commits
  {
    [ FetchRefSha(a.base),
      FetchCommits(a.number),
      CreateRef(a.head, s.refs[a.base]),
      Intercept(s.commits[a.number]),
      CherryPick(a.head, s.commits[a.number]),
      CreatePull(a.base, a.head, a.title, a.body) ]
  }

  /** The numbers of the pull requests on the host. */
  function PullNumbers(pulls: seq<PullRequest>): set<nat> {
    set i | 0 <= i < |pulls| :: pulls[i].number
  }

  lemma LookupFailureChangesNothing(s: Repo, a: Settings, f: Faults)
    requires !LookupSucceeds(s, a, f)
    ensures var out := Run(s, a, f);
      && out.repo.refs == s.refs && out.repo.pulls == s.pulls && out.repo.nextNumber == s.nextNumber
      && (f.fetchRefSha.Some? ==> out.result == Failure(f.fetchRefSha.value))
      && (f.fetchRefSha.None? && a.base !in s.refs ==> out.result == Failure(NotFound(a.base)))
      && (f.fetchRefSha.Some? || a.base !in s.refs ==> out.repo.log == s.log + [FetchRefSha(a.base)])
      && (f.fetchRefSha.None? && a.base in s.refs ==>
            && out.repo.log == s.log + [FetchRefSha(a.base), FetchCommits(a.number)]
            && out.result == Failure(if f.fetchCommits.Some? then f.fetchCommits.value else NotFound("pull request")))
  {
  }

  lemma CreateRefFailureChangesNothing(s: Repo, a: Settings, f: Faults)
    requires LookupSucceeds(s, a, f) && !HeadCreated(s, a, f)
    ensures var out := Run(s, a, f);
      && out.result == Failure(if f.createRef.Some? then f.createRef.value else AlreadyExists(a.head))
      && out.repo.refs == s.refs && out.repo.pulls == s.pulls && out.repo.nextNumber == s.nextNumber
      && out.repo.log == s.log + Protocol(s, a)[..3]
  {
  }

  /** The head is created at the base's SHA, and only once both lookups went through. */
  lemma HeadCreatedAtBaseSha(s: Repo, a: Settings, f: Faults)
    ensures var calls := Run(s, a, f).repo.log[|s.log|..];
      && (LookupSucceeds(s, a, f) ==>
            && |calls| >= 3
            && calls[..3] == [FetchRefSha(a.base), FetchCommits(a.number), CreateRef(a.head, s.refs[a.base])]
            && forall j | 3 <= j < |calls| :: !calls[j].CreateRef?)
      && (!LookupSucceeds(s, a, f) ==> forall j | 0 <= j < |calls| :: !calls[j].CreateRef?)
  {
    if LookupSucceeds(s, a, f) {
      CallsAfterLookup(s, a, f);
    } else {
      LookupFailureChangesNothing(s, a, f);
    }
  }

  /** After both lookups, the calls of a run are a prefix of the protocol, perhaps followed by the delete. */
  lemma CallsAfterLookup(s: Repo, a: Settings, f: Faults)
    requires LookupSucceeds(s, a, f)
    ensures var calls := Run(s, a, f).repo.log[|s.log|..];
      exists k | 3 <= k <= 6 :: calls == Protocol(s, a)[..k] || calls == Protocol(s, a)[..k] + [DeleteRef(a.head)]
  {
    var calls := Run(s, a, f).repo.log[|s.log|..];
    var p := Protocol(s, a);
    if !HeadCreated(s, a, f) {
      CreateRefFailureChangesNothing(s, a, f);
      assert calls == p[..3];
    } else if !ReachesTry(s, a, f) {
      InterceptFailureLeavesHead(s, a, f);
      assert calls == p[..4];
    } else if Publishes(s, a, f) {
      SuccessOpensOnePull(s, a, f);
      assert calls == p[..6];
    } else if f.cherryPick.PickFailed? {
      RollbackTrace(s, a, f);
      assert calls == p[..5] + [DeleteRef(a.head)];
    } else {
      RollbackTrace(s, a, f);
      assert calls == p[..6] + [DeleteRef(a.head)];
    }
  }

  /** `_intercept` and `cherryPick` both receive the fetched commits, as fetched. */
  lemma CommitsPassedAsFetched(s: Repo, a: Settings, f: Faults)
    requires HeadCreated(s, a, f)
    ensures var out := Run(s, a, f);
      && |out.repo.log| >= |s.log| + 4
      && out.repo.log[|s.log| + 3] == Intercept(s.commits[a.number])
      && (ReachesTry(s, a, f) ==>
            |out.repo.log| >= |s.log| + 5 && out.repo.log[|s.log| + 4] == CherryPick(a.head, s.commits[a.number]))
  {
    if !ReachesTry(s, a, f) {
      InterceptFailureLeavesHead(s, a, f);
    } else if Publishes(s, a, f) {
      SuccessOpensOnePull(s, a, f);
    } else {
      RollbackTrace(s, a, f);
    }
  }

  /**
   * As written, `_intercept` runs before the `try`: when it fails, its error is
   * thrown and the freshly created head is left on the host.
   */
  lemma InterceptFailureLeavesHead(s: Repo, a: Settings, f: Faults)
    requires HeadCreated(s, a, f) && f.intercept.Some?
    ensures var out := Run(s, a, f);
      && out.result == Failure(f.intercept.value)
      && out.repo.refs == s.refs[a.head := s.refs[a.base]]
      && a.head in out.repo.refs
      && out.repo.pulls == s.pulls
      && out.repo.log == s.log + Protocol(s, a)[..4]
  {
  }

  /** Once in the `try`, a failure leads to exactly one delete of `head`, as the last call. */
  lemma RollbackTrace(s: Repo, a: Settings, f: Faults)
    requires ReachesTry(s, a, f) && !Publishes(s, a, f)
    ensures var out := Run(s, a, f);
      && out.result.Failure?
      && out.repo.pulls == s.pulls && out.repo.nextNumber == s.nextNumber
      && (f.cherryPick.PickFailed? ==> out.repo.log == s.log + Protocol(s, a)[..5] + [DeleteRef(a.head)])
      && (f.cherryPick.Picked? ==> out.repo.log == s.log + Protocol(s, a) + [DeleteRef(a.head)])
  {
  }

  /**
   * A failed cherry-pick is replaced by an error naming the commits and the base;
   * once `head` is deleted the host's references are as they were before the run.
   */
  lemma CherryPickFailureRollsBack(s: Repo, a: Settings, f: Faults)
    requires ReachesTry(s, a, f) && f.cherryPick.PickFailed? && f.deleteRef.None?
    ensures var out := Run(s, a, f);
      && out.result == Failure(Thrown(PickFailureMessage(s.commits[a.number], a.base)))
      && out.repo.refs == s.refs
      && out.repo.pulls == s.pulls
  {
    RefsAfterRollback(s, a, f);
  }

  /** A failed pull-request creation is re-thrown unchanged once `head` is deleted. */
  lemma PullFailureRollsBack(s: Repo, a: Settings, f: Faults)
    requires ReachesTry(s, a, f) && f.cherryPick.Picked? && f.createPull.Some? && f.deleteRef.None?
    ensures var out := Run(s, a, f);
      && out.result == Failure(f.createPull.value)
      && out.repo.refs == s.refs
      && out.repo.pulls == s.pulls
  {
    RefsAfterRollback(s, a, f);
  }

  lemma RefsAfterRollback(s: Repo, a: Settings, f: Faults)
    requires ReachesTry(s, a, f) && !Publishes(s, a, f) && f.deleteRef.None?
    ensures Run(s, a, f).repo.refs == s.refs
  {
  }

  /**
   * As written, the delete in the `catch` is awaited without a guard: when it
   * fails, its own error is what the caller gets, not the original one.
   */
  lemma FailedDeleteMasksError(s: Repo, a: Settings, f: Faults)
    requires ReachesTry(s, a, f) && !Publishes(s, a, f) && f.deleteRef.Some?
    ensures var out := Run(s, a, f);
      && out.result == Failure(f.deleteRef.value)
      && a.head in out.repo.refs
  {
  }

  lemma SucceedsIffPublishes(s: Repo, a: Settings, f: Faults)
    ensures Run(s, a, f).result.Success? <==> Publishes(s, a, f)
  {
    if !LookupSucceeds(s, a, f) {
      LookupFailureChangesNothing(s, a, f);
    } else if !HeadCreated(s, a, f) {
      CreateRefFailureChangesNothing(s, a, f);
    } else if !ReachesTry(s, a, f) {
      InterceptFailureLeavesHead(s, a, f);
    } else if !Publishes(s, a, f) {
      RollbackTrace(s, a, f);
    }
  }

  /**
   * On success exactly one pull request, with the settled fields, is added under
   * a number no existing pull request has; that number is returned, `head` is kept
   * at the cherry-picked tip, and no delete is made.
   */
  lemma SuccessOpensOnePull(s: Repo, a: Settings, f: Faults)
    requires Publishes(s, a, f)
    ensures var out := Run(s, a, f);
      && out.result == Success(s.nextNumber)
      && out.repo.pulls == s.pulls + [PullRequest(s.nextNumber, a.base, a.head, a.title, a.body)]
      && (s.Valid() ==> forall i | 0 <= i < |s.pulls| :: s.pulls[i].number != out.result.value)
      && out.repo.refs == s.refs[a.head := f.cherryPick.tip]
      && out.repo.log == s.log + Protocol(s, a)
  {
  }

  /** No reference other than `head` is created, moved or deleted on any path; `base` in particular. */
  lemma OnlyHeadRefChanges(s: Repo, a: Settings, f: Faults)
    ensures var out := Run(s, a, f);
      && out.repo.refs - {a.head} == s.refs - {a.head}
      && (a.base in s.refs ==> a.base in out.repo.refs && out.repo.refs[a.base] == s.refs[a.base])
  {
    var out := Run(s, a, f);
    if !LookupSucceeds(s, a, f) {
      LookupFailureChangesNothing(s, a, f);
    } else if !HeadCreated(s, a, f) {
      CreateRefFailureChangesNothing(s, a, f);
    } else if !ReachesTry(s, a, f) {
      InterceptFailureLeavesHead(s, a, f);
    } else if Publishes(s, a, f) {
      SuccessOpensOnePull(s, a, f);
    } else if f.deleteRef.None? {
      RefsAfterRollback(s, a, f);
    } else {
      FailedDeleteMasksError(s, a, f);
    }
    assert a.base != a.head || a.base !in s.refs || out.repo.refs == s.refs;
  }

  /**
   * Atomicity: when `head` did not exist before the run and the cherry-pick or the
   * pull-request creation fails, a successful delete leaves the host's references
   * and pull requests as they were.
   */
  lemma Atomicity(s: Repo, a: Settings, f: Faults)
    requires a.head !in s.refs
    requires ReachesTry(s, a, f) && Run(s, a, f).result.Failure? && f.deleteRef.None?
    ensures a.head !in Run(s, a, f).repo.refs
    ensures Run(s, a, f).repo.refs == s.refs && Run(s, a, f).repo.pulls == s.pulls
  {
    SucceedsIffPublishes(s, a, f);
    RefsAfterRollback(s, a, f);
    RollbackTrace(s, a, f);
  }

  /**
   * As written, a failed run leaves a `head` behind exactly when the hook failed
   * after the head was created, or the compensating delete failed.
   */
  lemma DanglingHeadCauses(s: Repo, a: Settings, f: Faults)
    requires a.head !in s.refs && Run(s, a, f).result.Failure?
    ensures a.head in Run(s, a, f).repo.refs <==>
      (HeadCreated(s, a, f) && f.intercept.Some?) || (ReachesTry(s, a, f) && f.deleteRef.Some?)
  {
    SucceedsIffPublishes(s, a, f);
    if !LookupSucceeds(s, a, f) {
      LookupFailureChangesNothing(s, a, f);
    } else if !HeadCreated(s, a, f) {
      CreateRefFailureChangesNothing(s, a, f);
    } else if !ReachesTry(s, a, f) {
      InterceptFailureLeavesHead(s, a, f);
    } else if f.deleteRef.None? {
      RefsAfterRollback(s, a, f);
    } else {
      FailedDeleteMasksError(s, a, f);
    }
  }

  /**
   * Not idempotent: after a successful run, the same run again fails at the
   * reference creation (the head is taken) and leaves the first result alone.
   */
  lemma RepeatedRunConflicts(s: Repo, a: Settings, f: Faults, g: Faults)
    requires Publishes(s, a, f)
    requires g.fetchRefSha.None? && g.fetchCommits.None? && g.createRef.None?
    ensures var first := Run(s, a, f).repo;
      var second := Run(first, a, g);
      && second.result == Failure(AlreadyExists(a.head))
      && second.repo.refs == first.refs
      && second.repo.pulls == first.pulls
  {
    var first := Run(s, a, f).repo;
    SuccessOpensOnePull(s, a, f);
    OnlyHeadRefChanges(s, a, f);
    assert LookupSucceeds(first, a, g) && !HeadCreated(first, a, g);
    CreateRefFailureChangesNothing(first, a, g);
  }

  /** Every run keeps pull-request numbers below the host's next number, and never drops a pull request. */
  lemma RunPreservesValid(s: Repo, a: Settings, f: Faults)
    requires s.Valid()
    ensures Run(s, a, f).repo.Valid()
    ensures s.pulls <= Run(s, a, f).repo.pulls && s.nextNumber <= Run(s, a, f).repo.nextNumber
  {
    if Publishes(s, a, f) {
      SuccessOpensOnePull(s, a, f);
    } else if !LookupSucceeds(s, a, f) {
      LookupFailureChangesNothing(s, a, f);
    } else if !HeadCreated(s, a, f) {
      CreateRefFailureChangesNothing(s, a, f);
    } else if !ReachesTry(s, a, f) {
      InterceptFailureLeavesHead(s, a, f);
    } else {
      RollbackTrace(s, a, f);
    }
  }

  /** The guarantees a caller of backportPullRequest relies on, gathered for one run. */
  lemma RunGuarantees(s: Repo, a: Settings, f: Faults)
    ensures var out := Run(s, a, f);
      && (out.result.Success? ==>
            && (s.Valid() ==> out.result.value !in PullNumbers(s.pulls))
            && out.repo.pulls == s.pulls + [PullRequest(out.result.value, a.base, a.head, a.title, a.body)]
            && a.head in out.repo.refs
            && out.repo.log == s.log + Protocol(s, a))
      && (!LookupSucceeds(s, a, f) ==>
            out.repo.refs == s.refs && out.repo.pulls == s.pulls && DeleteRef(a.head) !in out.repo.log[|s.log|..])
      && (a.head !in s.refs && ReachesTry(s, a, f) && out.result.Failure? && f.deleteRef.None? ==>
            out.repo.refs == s.refs && out.repo.pulls == s.pulls)
  {
    SucceedsIffPublishes(s, a, f);
    if Publishes(s, a, f) {
      SuccessOpensOnePull(s, a, f);
    } else if !LookupSucceeds(s, a, f) {
      LookupFailureChangesNothing(s, a, f);
    } else if a.head !in s.refs && ReachesTry(s, a, f) && f.deleteRef.None? {
      Atomicity(s, a, f);
    }
  }
}
