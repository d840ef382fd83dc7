/** What a ToolRoute at rest has in the cluster, spelled out: names, owners, targets, paths
    and what its rule admits. */
module RouteAtRest {
  import opened Wrappers
  import opened Objects
  import opened Glob
  import Cel
  import Headers
  import ToolFilter
  import RuleMeaning
  import opened RouteMachine
  import opened RouteCompletion
  import opened RouteOneWorker

  // --------------------------------------------------------------------- rules

  /** No allow pattern and no deny pattern is given. */
  predicate Unfiltered(filter: Option<ToolFilter.Filter>) {
    filter.None? || (filter.value.allow == [] && filter.value.deny == [])
  }

  predicate Printable(patterns: seq<string>) {
    forall i | 0 <= i < |patterns| :: NoLineBreak(patterns[i])
  }

  ghost predicate SomeMatches(patterns: seq<string>, tool: string) {
    exists i :: 0 <= i < |patterns| && Matches(patterns[i], tool)
  }

  /** What the rules of a filter come to: none without patterns, otherwise exactly one,
      which on tool names without a line feed says what the filter says. */
  lemma RulesSay(filter: Option<ToolFilter.Filter>, rules: seq<string>)
    requires rules == ToolFilter.RuleTexts(filter)
    ensures rules == [] <==> Unfiltered(filter)
    ensures !Unfiltered(filter) ==> |rules| == 1
    ensures !Unfiltered(filter) && Printable(filter.value.allow) && Printable(filter.value.deny) ==>
              forall tool: string | NoLineFeed(tool) ::
                Cel.Verdict(rules[0], tool) ==
                Some((filter.value.allow == [] || SomeMatches(filter.value.allow, tool))
                     && !SomeMatches(filter.value.deny, tool))
  {
    if !Unfiltered(filter) && Printable(filter.value.allow) && Printable(filter.value.deny) {
      forall tool: string | NoLineFeed(tool)
        ensures Cel.Verdict(rules[0], tool) ==
                Some((filter.value.allow == [] || SomeMatches(filter.value.allow, tool))
                     && !SomeMatches(filter.value.deny, tool))
      {
        RuleMeaning.RuleVerdict(filter.value, tool);
      }
    }
  }

  // --------------------------------------------------------------------- paths

  predicate SlashFree(s: string) {
    !Headers.Has(s, '/')
  }

  /** A path of four parts, split at its slashes. */
  lemma SplitPath(a: string, b: string)
    requires SlashFree(a) && SlashFree(b)
    ensures Headers.Split("/" + a + "/" + b + "/mcp", '/') == ["", a, b, "mcp"]
  {
    var segs := ["", a, b, "mcp"];
    assert segs[1..] == [a, b, "mcp"] && [a, b, "mcp"][1..] == [b, "mcp"] && [b, "mcp"][1..] == ["mcp"];
    assert Headers.Join([b, "mcp"], '/') == b + ['/'] + "mcp";
    assert Headers.Join([a, b, "mcp"], '/') == a + ['/'] + (b + ['/'] + "mcp");
    assert Headers.Join(segs, '/') == "" + ['/'] + (a + ['/'] + (b + ['/'] + "mcp"));
    assert "/" + a + "/" + b + "/mcp" == Headers.Join(segs, '/');
    Headers.SplitJoin(segs, '/');
  }

  // ------------------------------------------------------------------- objects

  predicate OwnedBy(s: State, id: Id, k: Key)
    requires k in s.routes
  {
    && id in s.objects && s.objects[id].owner.Some?
    && s.objects[id].owner.value.route == k && s.objects[id].owner.value.uid == s.routes[k].uid
  }

  /** The backend of the route sends to what was found. */
  predicate BackendRight(s: State, k: Key, base: Key, f: Found)
    requires k in s.routes
  {
    var id := Id(BackendKind, base);
    && OwnedBy(s, id, k) && s.objects[id].content.Target?
    && var target := s.objects[id].content.target;
       target.host == f.target.host && target.port == f.target.port && target.path == f.target.path
  }

  /** The HTTPRoute hangs on the gateway that was found, sends to the route's backend, and
      matches the path /namespace/name/mcp. */
  predicate HttpRouteRight(s: State, k: Key, base: Key, f: Found)
    requires k in s.routes
  {
    var id := Id(HttpRouteKind, base);
    && OwnedBy(s, id, k) && s.objects[id].content.Path?
    && var c := s.objects[id].content;
       && c.gateway.name == f.gateway.name && c.gateway.ns == f.gateway.ns && c.backend == base
       && (SlashFree(k.ns) && SlashFree(k.name) ==> Headers.Split(c.path, '/') == ["", k.ns, k.name, "mcp"])
  }

  /** There is a policy exactly for a filter with patterns; it is for the route's HTTPRoute,
      and its one rule admits exactly the tools that the filter admits. */
  ghost predicate PolicyRight(s: State, k: Key, base: Key, f: Found)
    requires k in s.routes
  {
    var id := Id(PolicyKind, Key(base.ns, base.name + "-toolfilter"));
    && (id !in s.objects <==> Unfiltered(f.filter))
    && (!Unfiltered(f.filter) ==>
          && OwnedBy(s, id, k) && s.objects[id].content.Rules?
          && s.objects[id].content.httpRoute == base.name && |s.objects[id].content.rules| == 1
          && (Printable(f.filter.value.allow) && Printable(f.filter.value.deny) ==>
                forall tool: string | NoLineFeed(tool) ::
                  Cel.Verdict(s.objects[id].content.rules[0], tool) ==
                  Some((f.filter.value.allow == [] || SomeMatches(f.filter.value.allow, tool))
                       && !SomeMatches(f.filter.value.deny, tool))))
  }

  lemma WantedIsRight(s: State, k: Key, f: Found)
    requires k in s.routes && AsWanted(s, k, s.routes[k].uid, f)
    ensures var base := Key(k.ns, f.gateway.name + "-" + k.name);
            BackendRight(s, k, base, f) && HttpRouteRight(s, k, base, f) && PolicyRight(s, k, base, f)
  {
    var base := Key(k.ns, f.gateway.name + "-" + k.name);
    assert BackendRight(s, k, base, f);
    if SlashFree(k.ns) && SlashFree(k.name) { SplitPath(k.ns, k.name); }
    RulesSay(f.filter, RulesOf(f));
    assert PolicyId(base) == Id(PolicyKind, Key(base.ns, base.name + "-toolfilter"));
  }

  // -------------------------------------------------------------- main results

  /** In every run with one reconcile in flight at a time, a ToolRoute that exists, is idle
      and not queued, and has a gateway here, has exactly these three objects, named after
      the gateway and itself: a backend that sends to the upstream, an HTTPRoute that hangs
      on the gateway and matches the route's path, and, exactly if the filter has patterns, a
      policy whose rule says what the filter says. */
  lemma RouteAtRest(ss: seq<State>, es: seq<Event>, k: Key, n: nat)
    requires Run(ss, es) && OneAtATime(ss, es) && n < |ss|
    requires k in ss[n].routes && k !in ss[n].queued && !InFlight(ss[n], k)
    ensures var inputs := ss[n].routes[k].inputs;
            && !inputs.NoUpstream?
            && (inputs.Resolved? ==>
                  var base := Key(k.ns, inputs.found.gateway.name + "-" + k.name);
                  && BackendRight(ss[n], k, base, inputs.found)
                  && HttpRouteRight(ss[n], k, base, inputs.found)
                  && PolicyRight(ss[n], k, base, inputs.found))
  {
    OneWorkerMissesNothing(ss, es, k, n);
    if ss[n].routes[k].inputs.Resolved? { WantedIsRight(ss[n], k, ss[n].routes[k].inputs.found); }
  }
}
