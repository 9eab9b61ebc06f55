/**
 * backportPullRequest (src/index.ts): copy the commits of a pull request onto a
 * new branch cut from `base` and open a pull request for that branch, deleting
 * the branch again when the cherry-pick or the pull-request creation fails.
 */
module Backport {
  import opened Wrappers
  import opened GitHost
  import opened Defaults
  import opened BackportRun
  import opened BackportProperties

  method BackportPullRequest(host: Host, o: Options, f: Faults) returns (r: Result<nat, Error>)
    modifies host
    ensures Reply(r, host.State()) == Run(old(host.State()), Resolve(o), f)
    ensures r.Success? ==>
      && (old(host.State().Valid()) ==> r.value !in old(PullNumbers(host.pulls)))
      && host.pulls == old(host.pulls) + [PullRequest(r.value, o.base, Resolve(o).head, Resolve(o).title, Resolve(o).body)]
      && Resolve(o).head in host.refs
      && host.log == old(host.log) + Protocol(old(host.State()), Resolve(o))
    ensures !LookupSucceeds(old(host.State()), Resolve(o), f) ==>
      host.refs == old(host.refs) && host.pulls == old(host.pulls) && DeleteRef(Resolve(o).head) !in host.log[|old(host.log)|..]
    ensures (old(Resolve(o).head !in host.refs) && ReachesTry(old(host.State()), Resolve(o), f)
             && r.Failure? && f.deleteRef.None?) ==> host.refs == old(host.refs) && host.pulls == old(host.pulls)
  {
    var a := Resolve(o);
    RunGuarantees(host.State(), a, f);
    var baseSha := host.FetchReferenceSha(a.base, f.fetchRefSha);
    if baseSha.Failure? {
      return Failure(baseSha.error);
    }
    var commits := host.FetchPullCommits(a.number, f.fetchCommits);
    if commits.Failure? {
      return Failure(commits.error);
    }
    var created := host.CreateReference(a.head, baseSha.value, f.createRef);
    if created.Failure? {
      return Failure(created.error);
    }
    var hooked := host.InterceptCommits(commits.value, f.intercept);
    if hooked.Failure? {
      return Failure(hooked.error);
    }
    var error: Error;
    var headSha := host.CherryPickCommits(a.head, commits.value, f.cherryPick);
    if headSha.Success? {
      var pulled := host.CreatePullRequest(a.base, a.head, a.title, a.body, f.createPull);
      if pulled.Success? {
        return Success(pulled.value);
      }
      error := pulled.error;
    } else {
      error := Thrown(PickFailureMessage(commits.value, a.base));
    }
    var deleted := host.DeleteReference(a.head, f.deleteRef);
    if deleted.Failure? {
      return Failure(deleted.error);
    }
    return Failure(error);
  }
}
