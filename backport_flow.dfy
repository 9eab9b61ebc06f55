/**
 * The Flow-typed variant of backportPullRequest (src/index.js). Its option is
 * called `number` instead of `pullRequestNumber`; its defaults and its sequence
 * of calls, with the same nested `try`/`catch`, are those of src/index.ts.
 */
module BackportFlow {
  import opened Wrappers
  import opened Decimal
  import opened GitHost
  import opened Defaults
  import opened BackportRun
  import opened BackportProperties
  import Backport

  datatype FlowOptions = FlowOptions(base: Ref, number: nat, body: Option<string>, head: Option<Ref>, title: Option<string>)

  /** The defaults of src/index.js, keyed by `number`. */
  function ResolveFlow(o: FlowOptions): (a: Settings)
    ensures a.base == o.base && a.number == o.number
    ensures o.body.Some? ==> a.body == o.body.value
    ensures o.head.Some? ==> a.head == o.head.value
    ensures o.title.Some? ==> a.title == o.title.value
    ensures o.body.None? ==> ReadTemplate(a.body, "Backport #", ".") == Some(Filled(o.number, ""))
    ensures o.head.None? ==> ReadTemplate(a.head, "backport-", "-on-") == Some(Filled(o.number, o.base))
    ensures o.title.None? ==> ReadTemplate(a.title, "Backport #", " on ") == Some(Filled(o.number, o.base))
  {
    TemplateRoundTrip("Backport #", o.number, ".", "");
    assert "Backport #" + NatToString(o.number) + "." == "Backport #" + NatToString(o.number) + "." + "";
    TemplateRoundTrip("backport-", o.number, "-on-", o.base);
    TemplateRoundTrip("Backport #", o.number, " on ", o.base);
    Settings(
      o.base,
      o.number,
      match o.body case Some(b) => b case None => "Backport #" + NatToString(o.number) + ".",
      match o.head case Some(h) => h case None => "backport-" + NatToString(o.number) + "-on-" + o.base,
      match o.title case Some(t) => t case None => "Backport #" + NatToString(o.number) + " on " + o.base)
  }

  function AsOptions(o: FlowOptions): Options {
    Options(o.base, o.number, o.body, o.head, o.title)
  }

  /** The two variants settle on the same body, head and title. */
  lemma FlowDefaultsAgree(o: FlowOptions)
    ensures ResolveFlow(o) == Resolve(AsOptions(o))
    ensures o.head.Some? ==> ResolveFlow(o).head == o.head.value
    ensures o.head.None? ==> ResolveFlow(o).head == DefaultHead(o.number, o.base)
  {
  }

  method BackportPullRequest(host: Host, o: FlowOptions, f: Faults) returns (r: Result<nat, Error>)
    modifies host
    ensures Reply(r, host.State()) == Run(old(host.State()), ResolveFlow(o), f)
    ensures r.Success? ==>
      && host.pulls == old(host.pulls) + [PullRequest(r.value, o.base, ResolveFlow(o).head, ResolveFlow(o).title, ResolveFlow(o).body)]
      && ResolveFlow(o).head in host.refs
      && host.log == old(host.log) + Protocol(old(host.State()), ResolveFlow(o))
    ensures !LookupSucceeds(old(host.State()), ResolveFlow(o), f) ==>
      host.refs == old(host.refs) && host.pulls == old(host.pulls) && DeleteRef(ResolveFlow(o).head) !in host.log[|old(host.log)|..]
    ensures (old(ResolveFlow(o).head !in host.refs) && ReachesTry(old(host.State()), ResolveFlow(o), f)
             && r.Failure? && f.deleteRef.None?) ==> host.refs == old(host.refs) && host.pulls == old(host.pulls)
  {
    FlowDefaultsAgree(o);
    r := Backport.BackportPullRequest(host, AsOptions(o), f);
  }
}
