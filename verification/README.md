# Tool Gateway agentgateway Operator: a verified model

A Dafny model of the operator that turns `ToolGateway`, `ToolRoute` and `Guard` resources into
agentgateway resources, and proofs of what it promises. `dafny verify dfyconfig.toml` checks all of it.

Three parts of the operator are modelled.

**The tool-filter compiler.** Allow and deny globs become anchored RE2 text, then CEL string literals, then
one CEL expression. The output is modelled as text. It is lexed, parsed and evaluated by an independent CEL
fragment (CEL Language Definition, sections "Syntax" and "String and Bytes Values"), whose `matches` parses
and searches an independent RE2 fragment. The result is compared with a recursive glob matcher.

**The three reconcilers.** Each is a step machine with one step per API call; other steps may come between
any two calls, and any call may be refused or may take effect and still return an error. Beside each machine
stands the reconciler in the form of its source, a class whose methods change the cluster objects and the
conditions in order with early exits; each method is proved to be a run of the machine. What a reconcile
reads, and which watch events wake it, is modelled once for all controllers (`Watch`) and instantiated for
the Guard, ToolRoute and ToolGateway controllers.

**The OTEL translation.** Extraction from the environment list, the headers parser, the tracing
configuration, and the in-place update of the `AgentgatewayParameters` object.

| module | models |
|---|---|
| `Glob`, `Regex`, `GlobRegex` | glob meaning, the RE2 fragment, the glob-to-regex translation |
| `Cel`, `CelLiteral`, `CelPieces` | the CEL fragment, literal escaping, lexing of assembled text |
| `ToolFilter`, `RuleSyntax`, `RuleParsing`, `RuleMeaning`, `RuleSize` | the filter compiler and its correctness |
| `Objects`, `Api`, `Watch`, `Replay` | keys, references and lists; API calls and merge patches; queue and watches; machines run through calls |
| `GuardConfig`, `GuardWatch`, `GuardLoop`, `GuardOrdering`, `GuardOutcomes`, `GuardAtRest`, `GuardReconciler` | the Guard controller |
| `ClassOwnership`, `RouteWatch`, `RouteMachine`, `RouteOwnership`, `RouteCompletion`, `RouteOneWorker`, `RouteAtRest`, `RouteSettling`, `RouteHazards`, `RouteReconciler` | the ToolRoute controller |
| `GatewayWatch`, `GatewayMessages`, `GatewayConditions`, `GatewayLoop`, `GatewayFailures`, `GatewaySettling`, `GatewayWiring`, `GatewayReconciler` | the ToolGateway controller |
| `Cascade` | the Guard and ToolGateway controllers in one run |
| `Headers`, `Otel`, `Parameters`, `ParametersContent` | the OTEL translation |
| `Wrappers`, `Strings` | an option type, facts about strings |

## What the proofs rest on

- Strings are sequences of Unicode scalar values, which is what Go's rune loop sees of valid UTF-8.
- `SetControllerReference` writes the owner's UID but compares owners by group, kind and name. It fails if a
  controller of another name is set, and replaces one of the same name, whatever its UID.
- `CreateOrPatch` is a read followed by a create (which fails if the object exists by then) or by a merge
  patch without a resource version (which fails if the object is gone, and sends only the fields that differ
  from what was read; RFC 7396).
- Reads are fresh and list calls of the watch handlers succeed. A key in flight is not started a second time
  and runs again if it was queued meanwhile. Handlers see an event at any later time and map it on the
  objects as they are then.
- One ToolRoute reconcile is in flight at a time: `SetupWithManager` sets no number of workers
  (internal/controller/toolroute_reconciler.go:451-465) and so gets one, and the manager runs as one replica with
  leader election (config/manager/manager.yaml:24, :64). `RouteOneWorker` is about runs of this kind;
  `RouteOwnership`, `RouteCompletion` and `RouteHazards` are about any number of reconciles in flight.
- ToolRoute objects: only this controller and the garbage collector write them, except that others may edit the
  spec of an HTTPRoute. ToolRoutes are deleted and created again at any time. The collector removes an object, at
  any later time, when the UID of its controller is not that of an existing ToolRoute.
- In the step machines a change sets the queued flag at once. The watches are proved to do so, with events
  delivered at any later time, in `GuardWatch`, `RouteWatch` and `GatewayWatch`.
- The status of a Guard and of a ToolGateway has one writer, as a merge patch replaces the condition array whole.
- YAML encoding, SHA-256 and JSON decoding are parameters. Of the JSON decoder only this is used: it rejects
  the empty text, and it accepts a text with an `=` sign only if its first character after white space is a brace.

## What turned out not to hold as documented

- "`*` matches any run of characters" (docs/modules/ROOT/pages/reference.adoc:148): not one with a line feed.
  The rule is exact on names without a line feed; names with one are rejected by every allow list and pass
  every deny list (`RuleMeaning.RuleVerdict`, `RuleMeaning.LineFeedNames`, `RuleMeaning.LineFeedEscapesDeny`).
- `celEscape` leaves carriage return and line feed raw, which a CEL literal cannot contain. The rule is a CEL
  expression if and only if no pattern holds one (`RuleParsing.RuleTextParses`, `RuleMeaning.MeaningPreserved`,
  `RuleMeaning.LineFeedPatternBreaksRule`).
- An empty literal directly in front of a double quote would open a triple-quoted literal; the translation never
  puts one there (`CelLiteral.LiteralRoundTrip`).
- Ownership by controller reference keeps ToolRoutes of the same base name apart because one reconcile is in
  flight at a time (`RouteOneWorker.OneWorkerKeepsOwnership`). With several workers or two active instances it
  would not: a reconcile whose ToolRoute was deleted could delete another's policy by name
  (`RouteHazards.InFlightDeletionUnsafe`) or patch another's backend from what it had read
  (`RouteHazards.StalePatchUnsafe`); a ToolRoute that was deleted and created again could take over another's
  backend (`RouteHazards.AdoptionUnsafe`); and after such a take-over any reconcile could delete another's policy
  (`RouteHazards.DeletionAfterTheftUnsafe`). `RouteOwnership.FirstHarm`, `RouteOwnership.HarmIff` and
  `RouteOwnership.OwnershipHolds` say exactly when.
- The guardrail policy of a ToolGateway without guards is deleted by name, whoever controls it
  (`GatewayWiring.ForeignPolicyIff`, `GatewayWiring.DeletesForeignPolicy`).
- The reference lists `Ready=False` with reason `GuardrailsUnsupported` for several guards. The code sets
  a condition of type `GuardrailsUnsupported` and `Ready=False` with reason `GuardrailsReconciliationFailed`
  (`GatewayLoop.SeveralGuardsShown`).
- A Guard's status is not always the outcome of its last reconcile: on terminal outcomes a refused status patch
  is swallowed. `GuardOutcomes.StatusCanStayUnset` is a run that ends with no status at all, and
  `GuardOutcomes.StatusRightIff` says exactly when the status is right.
- The status patch of the ToolGateway takes its base after conditions were mutated in memory. That loses the
  mutation from some stores until Ready changes (`GatewayConditions.LostWithoutInvariant`), none of which is
  reachable (`GatewayConditions.ConditionsPersist`).

## Model

| member | source | states |
|---|---|---|
| GlobRegex.GlobToRegex | internal/controller/toolroute_authz.go:36-61 | the buffered loop writes the same text as quoting each character on its own, wherever the literal buffer is flushed |
| GlobRegex.QuoteMetaAppend | internal/controller/toolroute_authz.go:40-45 | quoting a segment equals quoting its parts |
| GlobRegex.RegexTextFaithful | internal/controller/toolroute_authz.go:34-61 | the text parses as RE2 to begin anchor, one item per pattern character, end anchor |
| GlobRegex.AnchoredSearch | internal/controller/toolroute_authz.go:34-61 | for every glob and name, unanchored search with the regex succeeds iff the glob matches the whole name with no wildcard over a line feed |
| GlobRegex.AnchoredSearchInLine | internal/controller/toolroute_authz.go:34-61 | for globs without a line feed: iff the glob matches and the name has no line feed |
| Glob.PlainMatchesItself | internal/controller/toolroute_authz.go:70-75 | a pattern without wildcards matches exactly itself, so the equality branch agrees with the glob meaning |
| Glob.MatchesAppend | docs/modules/ROOT/pages/reference.adoc:148 | a pattern in two parts matches exactly the names that can be split accordingly |
| Glob.PieceMatches | docs/modules/ROOT/pages/reference.adoc:148 | `*` matches everything, `?` any one character, any other character itself |
| CelLiteral.TwoPassesAreOne | internal/controller/toolroute_authz.go:64-68 | the two replacement passes escape each character on its own |
| CelLiteral.LiteralRoundTrip | internal/controller/toolroute_authz.go:64-68 | the literal followed by any text is read back as exactly the string and that text, or not at all: for every string and suffix, with the exact condition |
| CelPieces.LexPieces | internal/controller/toolroute_authz.go:72-111 | text assembled from words, operators and escaped literals lexes to their tokens iff no literal holds a line break |
| ToolFilter.GlobToCELPredicate | internal/controller/toolroute_authz.go:72-77 | writes the predicate text whose meaning RuleMeaning.PredicateMeaning gives |
| ToolFilter.BuildMcpAuthorizationRules | internal/controller/toolroute_authz.go:87-111 | no rule exactly for a nil filter or two empty lists; otherwise the rule texts whose meaning RuleMeaning.RuleVerdict gives |
| RuleSyntax.RuleIsPieces | internal/controller/toolroute_authz.go:80-111 | the rule text is the concatenation of well-formed pieces for each of the three non-empty cases |
| RuleSyntax.RuleLexes | internal/controller/toolroute_authz.go:64-111 | the literals of a rule can be lexed iff no pattern of either list holds a raw line break |
| RuleParsing.RuleTextParses | internal/controller/toolroute_authz.go:79-111 | exactly one rule; it parses to OR of allows, NOT of OR of denies, or their AND, iff no pattern has a raw line break |
| RuleMeaning.PredicateMeaning | internal/controller/toolroute_authz.go:70-77 | one predicate evaluates to the glob match, false on names with a line feed |
| RuleMeaning.RuleVerdict | internal/controller/toolroute_authz.go:84-111 | the exact verdict of the emitted text on every tool name |
| RuleMeaning.MeaningPreserved | internal/controller/toolroute_authz.go:84-111 | on names without a line feed the text says (allow empty or some allow matches) and no deny matches, iff no pattern has a raw line break |
| RuleMeaning.LineFeedNames | internal/controller/toolroute_authz.go:36-61 | on names with a line feed: exactly when rule and filter agree |
| RuleMeaning.LineFeedEscapesDeny | internal/controller/toolroute_authz.go:48-53 | a concrete name that a deny-everything filter lets through |
| RuleMeaning.LineFeedPatternBreaksRule | internal/controller/toolroute_authz.go:64-68 | a concrete pattern with a raw line feed gives a rule that is no CEL expression |
| RuleMeaning.DenyWins | docs/modules/ROOT/pages/reference.adoc:142-143 | a tool matching a deny pattern is rejected even if an allow pattern matches |
| RuleSize.PredicateLength | internal/controller/toolroute_authz.go:36-77 | a predicate is at most 4 characters per pattern character plus 25 long |
| RuleSize.PredicateLengthAttained | internal/controller/toolroute_authz.go:36-77 | that bound is attained |
| RuleSize.RuleLength | config/crd/external/agentgateway.dev_agentgatewaypolicies.yaml:1313 | the rule is at most the sum over patterns of 4 per character plus 29, plus 1, which bounds the inputs under the CRD limit |
| Watch.NoLostWakeups | internal/controller/guard_reconciler.go:332-344 | for any controller whose watch mapping covers its reads: in every state of every run, a key not queued, in flight or awaiting an event was last reconciled on what a reconcile would read now |
| Watch.ChangeKeeps | internal/controller/guard_reconciler.go:331-344 | a change at any moment, also during a reconcile, loses nothing about any key |
| GuardConfig.RenderStaticConfig | internal/controller/guard_static_config.go:62-102 | the validation loop and early returns give the outcome function for every input |
| GuardConfig.DeployedIff | internal/controller/guard_reconciler.go:134-159 | exactly which inputs lead to a deployment, and the hash is that of the rendered bytes |
| GuardConfig.HashDistinguishes | internal/controller/guard_static_config.go:77-102 | two rendered inputs whose configurations do not collide have the same hash iff they agree on modes, endpoint and presidio options |
| GuardAtRest.ReasonShown | internal/controller/guard_reconciler.go:134-159 | over every run, told from the inputs: at rest a missing image, a missing provider, a provider of another kind and an unfit mode list or endpoint each show their own reason, unless the last status patch was refused and it was not shown before |
| GuardAtRest.ReadyShown | internal/controller/guard_reconciler.go:87-119 | over every run: with an image, a presidio provider and well-formed inputs a Guard at rest shows Ready for its present generation |
| GuardAtRest.AdapterAtRest | internal/controller/guard_reconciler.go:177-288 | over every run: the adapter of a deployed Guard at rest is a ConfigMap with the encoded configuration (modes, endpoint, language, thresholds, actions), a Deployment with its digest and the operator's image, and a Service, all called after the Guard with the suffix -adapter |
| GuardAtRest.RestsIff | internal/controller/guard_reconciler.go:99-132 | with successful calls a queued Guard comes to rest iff it waits for an edit, or its configuration can be encoded and nobody else has an object of its adapter's name |
| GuardWatch.FindGuardsForProvider | internal/controller/guard_reconciler.go:348-368 | the loop lists the Guards in order whose resolved reference is the provider |
| GuardWatch.MappingInvertsReference | internal/controller/guard_reconciler.go:303-313 | the mapping lists a Guard iff fetchProvider of that Guard reads this provider |
| GuardWatch.GuardWatchesCover | internal/controller/guard_reconciler.go:332-368 | an edit not mapped to a Guard changes nothing its reconcile reads |
| GuardWatch.IdleGuardIsCurrent | internal/controller/guard_reconciler.go:87-132 | in every run an idle Guard was last reconciled with the plan its present spec and provider call for, terminal outcomes included |
| GuardLoop.NothingMissed | internal/controller/guard_reconciler.go:87-174 | with drift, edits and failing calls at any point, an idle Guard has exactly the wanted ConfigMap, Deployment, Service and status, but for swallowed patches |
| GuardLoop.StoppedLeavesAdapter | internal/controller/guard_reconciler.go:134-159 | in every run, work on a Guard that cannot be deployed changes none of its adapter objects, those left from before included |
| GuardLoop.AdvanceKeeps | internal/controller/guard_reconciler.go:161-329 | every API call keeps the invariant: work on stale data implies the Guard is queued |
| GuardLoop.EditKeeps | internal/controller/guard_reconciler.go:332-344 | every edit keeps it, foreign edits of adapter objects included |
| GuardOrdering.HashFollowsConfig | internal/controller/guard_reconciler.go:149-173 | at every step the Deployment's hash is that of a config the ConfigMap holds or has held; on success, of the present one |
| GuardOrdering.DeploymentWriteFollowsConfigMap | internal/controller/guard_reconciler.go:211-221 | a call that changes the Deployment writes the hash of what is in the ConfigMap |
| GuardOrdering.LoopSettles | internal/controller/guard_reconciler.go:87-119 | from any objects and status, on fixed inputs and successful calls, the loop comes to rest with everything as wanted |
| GuardOrdering.TickSettles | internal/controller/guard_reconciler.go:181-329 | every call decreases the measure (wrong objects, queued, calls left) |
| GuardOrdering.SettledStaysPut | internal/controller/guard_reconciler.go:181-329 | a reconcile of a settled Guard changes neither objects nor status |
| GuardOrdering.SettlesIff | internal/controller/guard_reconciler.go:104-111 | a queued Guard comes to rest iff its outcome is not retried and no needed object has another controller |
| GuardOrdering.NeverRests | internal/controller/guard_reconciler.go:104-111 | otherwise it stays queued or in flight, whatever the replies |
| GuardOutcomes.StatusRightIff | internal/controller/guard_reconciler.go:99-118 | over every run: the status of a Guard at rest is what its present inputs call for iff its last status patch was not refused or the status was right before; it can be wrong only for terminal outcomes |
| GuardOutcomes.LastPatchExists | internal/controller/guard_reconciler.go:87-119 | a Guard at rest has had a last status patch |
| GuardOutcomes.StatusCanStayUnset | internal/controller/guard_reconciler.go:99-109 | a run in which the one status patch is refused ends at rest with no Ready condition |
| GuardOutcomes.RollsOutIff | internal/controller/guard_reconciler.go:211-221 | at any two moments of a run at which the Guard rests and is deployed, the Deployments are the same iff modes, endpoint and presidio options are, unless the two configurations collide |
| GuardReconciler.Reconciler.CreateOrPatch | internal/controller/guard_reconciler.go:181-288 | one ensure step is a run of the machine for every pair of API replies |
| GuardReconciler.Reconciler.ReconcileGuard | internal/controller/guard_reconciler.go:134-174 | the phases in order with early exits are a run of the machine from the provider read to the outcome, whose reasons GuardAtRest.ReasonShown gives |
| GuardReconciler.Reconciler.SetReadyCondition | internal/controller/guard_reconciler.go:316-329 | stores outcome and observed generation unless refused, and wakes the Guard iff the status changed |
| GuardReconciler.Reconciler.Finish | internal/controller/guard_reconciler.go:99-118 | status patch and retry decision are the machine's concluding step |
| GuardReconciler.Reconciler.Reconcile | internal/controller/guard_reconciler.go:87-119 | a whole reconcile is a run of the machine from idle to idle and leaves the inputs alone |
| ClassOwnership.IsToolGatewayOwnedByController | internal/controller/class_ownership.go:90-118 | the two scans decide: a class of ours with the given name, or without a name one marked default |
| ClassOwnership.DefaultUnchanged | internal/controller/class_ownership.go:62-79 | only changes in the default namespace can change the gateway of a route without a reference |
| ClassOwnership.TargetOfRoute | internal/controller/class_ownership.go:53-80 | a route targets the gateway it names, by default in its own namespace; without a reference the first one listed in the namespace tool-gateway, if any |
| RouteWatch.FindToolRoutesForToolGateway | internal/controller/toolroute_reconciler.go:472-505 | the loop lists the routes targeting the gateway, in order |
| RouteWatch.FindToolRoutesForToolServer | internal/controller/toolroute_reconciler.go:510-538 | the loop lists the routes whose upstream is the server, in order |
| RouteWatch.MappingsInvertReferences | internal/controller/toolroute_reconciler.go:467-538 | both mappings list a route iff its resolved reference, or the default namespace, is concerned |
| RouteWatch.RouteWatchesCover | internal/controller/toolroute_reconciler.go:446-538 | an edit not mapped to a route changes nothing its reconcile reads, the default look-up included |
| RouteWatch.IdleRouteIsCurrent | internal/controller/toolroute_reconciler.go:83-148 | in every run an idle route was last reconciled on its present spec, the gateway it resolves to and its present ToolServer |
| RouteMachine.BaseNamesCollide | internal/controller/toolroute_reconciler.go:250 | two routes of one namespace can share a base name |
| RouteMachine.PolicyIdInjective | internal/controller/toolroute_reconciler.go:318 | the policy name determines the base name |
| RouteOneWorker.OneWorkerKeepsOwnership | internal/controller/toolroute_reconciler.go:161-387 | with one reconcile in flight at a time, in every run, with deletion and re-creation at any time: no call changes or deletes an object that another existing route controls, by-name delete included, whether its own route exists or not |
| RouteOneWorker.OneWorkerMissesNothing | internal/controller/toolroute_reconciler.go:83-148 | with one in flight at a time, in every run: a route at rest has no gateway here or exactly the objects its present gateway, upstream and filter call for |
| RouteAtRest.RouteAtRest | internal/controller/toolroute_reconciler.go:150-387 | with one in flight at a time, in every run, spelled out: a route at rest has, named gateway-route, a backend with the host, port and path found, an HTTPRoute on the gateway found, to that backend, for the path parts namespace, name, mcp, and exactly for a filter with patterns a policy on that HTTPRoute whose one rule admits what the filter admits |
| RouteAtRest.RulesSay | internal/controller/toolroute_authz.go:84-111 | no rule exactly for a filter without patterns, otherwise one that says what the filter says |
| RouteAtRest.SplitPath | internal/controller/toolroute_reconciler.go:171 | the path of a route splits at its slashes into the empty text, namespace, name and mcp |
| RouteOneWorker.OneWorkerSuccessIsComplete | internal/controller/toolroute_reconciler.go:150-181 | and at success, if its route exists and no HTTPRoute was edited meanwhile, the three objects are as this reconcile's look-ups say |
| RouteSettling.SettlesIff | internal/controller/toolroute_reconciler.go:83-148 | from any objects, with fixed look-ups and successful calls, a queued route comes to rest iff it has no gateway here, or its upstream is there and no name it needs is another route's |
| RouteSettling.TickSettles | internal/controller/toolroute_reconciler.go:161-387 | every successful step decreases the measure (wrong objects, queued, calls left) |
| RouteOwnership.HarmIff | internal/controller/toolroute_reconciler.go:247-387 | in any state, exactly which calls change an object that another existing route controls: an effective by-name delete of its policy, or an effective patch from an earlier read of an object of one's own name |
| RouteOwnership.CallKeeps | internal/controller/toolroute_reconciler.go:247-387 | per base name: every call of every route in flight that takes nothing of it over keeps the ownership invariant |
| RouteOwnership.OwnershipHolds | internal/controller/toolroute_reconciler.go:161-387 | any number in flight, every run: as long as nothing of its base name was taken over, a reconcile whose route exists changes another existing route's object, by-name delete included, iff it adopts a leftover that has become the other's, and that is a backend |
| RouteOwnership.FirstHarm | internal/controller/toolroute_reconciler.go:161-387 | in every run, the first call that harms another existing route comes from a reconcile whose route is gone, or takes over a backend |
| RouteOwnership.PolicyControllerOwnsAll | internal/controller/toolroute_reconciler.go:161-181 | in every run, as long as nothing of this base name was taken over: the controller of a policy controls HTTPRoute and backend of its base name |
| RouteOwnership.PolicyStepOwnsBase | internal/controller/toolroute_reconciler.go:161-181 | under the same condition a reconcile that reaches the policy, if its route exists, controls backend and HTTPRoute |
| RouteCompletion.SuccessIsComplete | internal/controller/toolroute_reconciler.go:150-181 | in every run: any number in flight: unless somebody disturbed its writes, at success its three objects are its own with what this reconcile's look-ups returned; the policy holds the filter's rule, or is absent if there is none |
| RouteCompletion.NothingMissed | internal/controller/toolroute_reconciler.go:83-148 | any number in flight, every run: unless disturbed while not queued, edits of HTTPRoutes aside, a route at rest has no gateway here or exactly the objects its present gateway, upstream and filter call for |
| RouteCompletion.CarefulRunsKeepOwnership | internal/controller/toolroute_reconciler.go:161-387 | any number in flight: where routes are deleted at any time but created again only when nothing is left of them, a reconcile whose route exists never harms another |
| RouteCompletion.CalmRunsMissNothing | internal/controller/toolroute_reconciler.go:83-181 | any number in flight: where they are not deleted in flight either, a route at rest has exactly its objects, whatever names collide |
| RouteOwnership.OneWinner | internal/controller/toolroute_reconciler.go:247-254 | under the same condition at most one of the existing routes in flight that share a base name is past the backend |
| RouteHazards.InFlightDeletionUnsafe | internal/controller/toolroute_reconciler.go:322-335 | a run with two in flight: a reconcile whose route was deleted deletes the policy of another by name |
| RouteHazards.StalePatchUnsafe | internal/controller/toolroute_reconciler.go:247-257 | a run with two in flight: a reconcile whose route was deleted patches the backend that another has made anew |
| RouteHazards.AdoptionUnsafe | internal/controller/toolroute_reconciler.go:250-257 | a run with two in flight: a route created again adopts a leftover backend that has become another's, and ends up with the other's target |
| RouteHazards.DeletionAfterTheftUnsafe | internal/controller/toolroute_reconciler.go:322-335 | a run with two in flight: after two take-overs the reconcile of an existing route deletes another's policy by name without taking anything over |
| RouteHazards.LeftoverIsNotHeld | internal/controller/toolroute_reconciler.go:322-335 | a run with one in flight: a policy that names an existing route is deleted by another, but it is a leftover of an earlier route of that name |
| RouteReconciler.Reconciler.CreateOrPatch | internal/controller/toolroute_reconciler.go:250-257 | read, ownership check and write are the machine's two calls |
| RouteReconciler.Reconciler.EnsureBackend | internal/controller/toolroute_reconciler.go:247-273 | a run of the machine for every pair of API replies |
| RouteReconciler.Reconciler.EnsureHTTPRoute | internal/controller/toolroute_reconciler.go:275-310 | a run of the machine for every pair of API replies; what the HTTPRoute says is spelled out in RouteAtRest.RouteAtRest |
| RouteReconciler.Reconciler.EnsurePolicy | internal/controller/toolroute_reconciler.go:315-387 | a run of the machine, deleting by name exactly when the filter yields no rule |
| RouteReconciler.Reconciler.ReconcileToolRoute | internal/controller/toolroute_reconciler.go:161-181 | backend, HTTPRoute, policy in this order, with the rules of the filter compiler, are a run of the machine |
| RouteReconciler.Reconciler.Reconcile | internal/controller/toolroute_reconciler.go:83-148 | a whole reconcile of a queued route, with its exits, is a run of the machine from idle to idle |
| GatewayWatch.FindToolGatewayForGuard | internal/controller/toolgateway_reconciler.go:337-370 | the nested loop lists each referring gateway once, in order |
| GatewayWatch.GuardMappingInvertsReference | internal/controller/toolgateway_reconciler.go:337-370 | a gateway is listed iff one of its references resolves to the Guard |
| GatewayWatch.FindToolGatewayForGuardrailProvider | internal/controller/toolgateway_reconciler.go:374-426 | the two loops list the gateways with a reference whose string key is affected, in order |
| GatewayWatch.CollectAffectedGuards | internal/controller/toolgateway_reconciler.go:386-396 | the string keys of exactly the Guards using the provider |
| GatewayWatch.SlashedInjective | internal/controller/toolgateway_reconciler.go:394-412 | with slash-free namespaces the string key determines the Guard |
| GatewayWatch.ProviderMappingComposes | internal/controller/toolgateway_reconciler.go:372-426 | the provider mapping never misses a gateway of an affected Guard, and adds none if namespaces are slash-free |
| GatewayWatch.GatewayWatchesCover | internal/controller/toolgateway_reconciler.go:316-370 | an edit not mapped to a gateway changes nothing its reconcile reads |
| GatewayWatch.IdleGatewayIsCurrent | internal/controller/toolgateway_reconciler.go:460-481 | in every run an idle gateway with one guard was last reconciled on that guard's present Ready condition |
| GatewayMessages.GuardrailsTextsInjective | internal/controller/toolgateway_reconciler.go:440-492 | error texts under the guardrails reason are equal iff the errors are, so the multiple-guards text is unmistakable |
| GatewayConditions.SetIdle | internal/controller/toolgateway_reconciler.go:236-242 | setting a condition changes nothing iff it is already there up to the transition time |
| GatewayConditions.TransitionTime | internal/controller/toolgateway_reconciler.go:236-242 | the transition time of a condition is kept exactly as long as its status is |
| GatewayConditions.PatchPersistsIff | internal/controller/toolgateway_reconciler.go:233-247 | told from the stored conditions: a status patch stores what is in memory iff, after a success, there was no GuardrailsUnsupported or Ready was not already as set; after the multiple-guards error, GuardrailsUnsupported was there already or Ready was not; otherwise always |
| GatewayConditions.PatchPersists | internal/controller/toolgateway_reconciler.go:233-269 | from a consistent store that is always so, and the new store is consistent |
| GatewayConditions.ConditionsPersist | internal/controller/toolgateway_reconciler.go:120-133 | in every reachable store Ready=True excludes GuardrailsUnsupported and the multiple-guards error implies it; every patch that takes effect on the ToolGateway read stores the in-memory conditions |
| GatewayLoop.NothingMissed | internal/controller/toolgateway_reconciler.go:89-136 | with drift, edits and failing calls at any point, a ToolGateway at rest names no guard or one that is Ready now, has exactly a policy from its own name to that guard's adapter or none, and shows Ready=True for its present generation |
| GatewayLoop.SeveralGuardsShown | internal/controller/toolgateway_reconciler.go:450-458 | a run with several guards ends with a GuardrailsUnsupported condition and Ready=False with the reason of any guardrails failure |
| GatewayFailures.ParametersFailureShown | internal/controller/toolgateway_reconciler.go:141-144 | a reconcile that cannot write the parameters ends with that reason and message in Ready, and is retried |
| GatewayFailures.GatewayFailureShown | internal/controller/toolgateway_reconciler.go:146-148 | the same for the Gateway |
| GatewayFailures.GuardrailsFailureShown | internal/controller/toolgateway_reconciler.go:150-159 | the same for each way the guardrails phase fails first: no guards and no deletion, several, one that cannot be read, is missing or is not Ready |
| GatewayFailures.PolicyFailureReason | internal/controller/toolgateway_reconciler.go:484-493 | a policy that cannot be read or written fails with the guardrails reason and its own message |
| GatewaySettling.SettlesIff | internal/controller/toolgateway_reconciler.go:89-136 | from any consistent conditions and any policy, with successful calls, a queued ToolGateway comes to rest iff it is gone, not ours, or can be wired without taking a policy from somebody else |
| GatewaySettling.TickSettles | internal/controller/toolgateway_reconciler.go:141-162 | every successful call decreases the measure (policy or conditions wrong, queued, calls left) |
| GatewayConditions.LostWithoutInvariant | internal/controller/toolgateway_reconciler.go:438-446 | from an unreachable store a successful reconcile leaves the condition in place as long as Ready does not change |
| GatewayConditions.NextGenerationHeals | internal/controller/toolgateway_reconciler.go:233-247 | from any store, a success of a generation that Ready does not show yet removes it |
| GatewayWiring.SuccessLeavesPolicy | internal/controller/toolgateway_reconciler.go:141-162 | from any earlier store, success leaves no policy for no guard and exactly the policy of the one guard read |
| GatewayWiring.PolicyPointsAtReadyGuard | internal/controller/toolgateway_reconciler.go:474-530 | at every step the policy targets the gateway's name and calls the Service called after a Guard, with the suffix -adapter, in that Guard's namespace, and the writing reconcile had read that Guard as Ready |
| GatewayWiring.ForeignPolicyIff | internal/controller/toolgateway_reconciler.go:438-493 | exactly which calls change a policy that somebody else controls: the by-name delete without guards, and a patch if it was not theirs when read |
| GatewayWiring.DeletesForeignPolicy | internal/controller/toolgateway_reconciler.go:438-446 | without guards the policy is gone after one effective call, whoever controlled it |
| GatewayReconciler.Reconciler.CreateOrPatchPolicy | internal/controller/toolgateway_reconciler.go:484-530 | a run of the machine for every pair of API replies; where the policy points is spelled out in GatewayLoop.NothingMissed |
| GatewayReconciler.Reconciler.EnsureGuardrails | internal/controller/toolgateway_reconciler.go:432-506 | the three cases mutate conditions and policy as a run of the machine |
| GatewayReconciler.Reconciler.UpdateStatus | internal/controller/toolgateway_reconciler.go:232-269 | base copied after the mutation, Ready set in memory, difference sent: the stored conditions, and whether the ToolGateway is woken |
| GatewayReconciler.Reconciler.ReconcileToolGateway | internal/controller/toolgateway_reconciler.go:141-162 | parameters, Gateway, guardrails in order are a run of the machine to the outcome |
| GatewayReconciler.Reconciler.Reconcile | internal/controller/toolgateway_reconciler.go:89-136 | a whole reconcile of a queued ToolGateway, not-found and not-owned exits included, is a run of the machine from idle to idle |
| Cascade.RestIsConsistent | internal/controller/toolgateway_reconciler.go:316-334 | provider edits, Guard and gateway reconciles in one run: when both controllers are at rest, the policy of a guarded ToolGateway calls the very Service that the Guard controller keeps, and the adapter behind it is exactly as the present Guard and provider call for, but for a refused terminal status patch |
| Cascade.GatewayWaitsForGuard | internal/controller/toolgateway_reconciler.go:472-481 | while its Guard is not shown as Ready, a guarded ToolGateway does not come to rest |
| Headers.ParseHeaders | internal/controller/otel.go:225-242 | the decoded text if it is JSON, otherwise the last-wins map of the segments |
| Headers.PairOf | internal/controller/otel.go:235-240 | a segment yields the trimmed text before its first equals sign and the trimmed rest |
| Headers.DroppedIff | internal/controller/otel.go:236-239 | a segment is dropped iff it has no equals sign |
| Headers.RoundTrip | internal/controller/otel.go:223-242 | any headers joined with any white space around their parts parse to their last-wins map |
| Otel.ExtractOTELEnvVars | internal/controller/otel.go:73-110 | every field gets the last value of its variable, and the rest is kept |
| Otel.ClassifiesByName | internal/controller/otel.go:28-48 | the twelve names are told apart, each by its own case |
| Otel.LastValueIsLast | internal/controller/otel.go:73-102 | the value of a field is that of the last variable of its name, or empty |
| Otel.PlainIsSubsequence | internal/controller/otel.go:103-106 | the filtered list is the order-preserving subsequence of exactly the variables not translated |
| Otel.ReextractionIsIdentity | internal/controller/otel.go:73-110 | extracting again changes nothing and finds nothing |
| Otel.BuildTelemetryConfig | internal/controller/otel.go:151-201 | nothing iff both endpoints are empty; otherwise endpoint, protocol and headers each from the traces value if there is one and else from the general one, grpc and http by prefix, headers decoded or parsed |
| Otel.TracingDependsOnLastValues | internal/controller/otel.go:162-200 | the result depends only on the last general and traces values, and is absent iff both endpoints are empty |
| Otel.IrrelevantVariable | internal/controller/otel.go:59-69 | a metrics, logs or other variable at any position changes nothing |
| Otel.LastEndpointWins | internal/controller/otel.go:162-175 | a traces endpoint set last wins; a general one counts only without a traces endpoint |
| Parameters.Unstructured.SetAgentgatewayParametersSpec | internal/controller/resources.go:141-196 | succeeds iff spec, deployment and service are maps or absent, and then only the managed fields change |
| Parameters.LastSpecWins | internal/controller/resources.go:148-155 | applying A then B gives the same object as applying B alone |
| Parameters.ManagedFields | internal/controller/resources.go:131-196 | rawConfig is present iff there is an effective endpoint; env, deployment and service are those of the spec; all else is kept |
| ParametersContent.TracingStored | internal/controller/resources.go:141-155 | after an update from any earlier object, told from the names and last values of the variables: no raw configuration iff there is no endpoint; otherwise at rawConfig.config.tracing the preferred endpoint, the protocol by prefix, and the headers, empty ones left out |
| ParametersContent.EnvStored | internal/controller/resources.go:157-164 | the env entries are, in order, those of exactly the variables with none of the twelve names, each with name, value and source |
| ParametersContent.DeploymentStored | internal/controller/resources.go:166-193 | the envFrom sources go to the agentgateway container, and the service is of type ClusterIP |

## Left out

- Manager start-up, flags, TLS, metrics, logging, events, RBAC and manifests: plumbing.
- `resolveRouteUpstream` for external URLs (scheme, host and port checks): branching on a parsed URL only.
- The fixed parts of generated objects (pod spec, probes, listener, service ports) and server-side defaulting.
- ToolGatewayClass edits: the class list is fixed in `RouteWatch` and `GatewayWatch`, as it is not watched.
- The status of a ToolRoute; edits of its backend and policy by others, which no watch reports; deletion of its HTTPRoute by others.
- Objects left under the old name when a route is re-pointed to another gateway: they are never cleaned up.
- Failing list calls in watch handlers, which drop the event.
- A list order that changes between two reads of the default namespace.
- Message and transition time of a Guard's condition; outcome and observed generation are modelled.
- CEL numeric escapes and triple-quoted literals, and RE2 beyond anchors, literals, `.` and `*`: the generated text has none; the parsers reject them.
- GuardLoop.NothingMissed: excludes the status of a terminal outcome whose patch was refused, because the code swallows that error (GuardOutcomes.StatusRightIff gives the exact case); and says nothing of what adapter objects a Guard that cannot be deployed any more still has, because the code leaves them as they are (GuardLoop.StoppedLeavesAdapter).
- RouteCompletion.NothingMissed: excludes routes whose objects another reconcile in flight has changed, because the code does not watch backends and policies; with one in flight at a time there is no such case (RouteOneWorker.OneWorkerMissesNothing).
- GuardOrdering.HashFollowsConfig: no foreign edits of the adapter objects, because an edited hash is whatever the editor wrote; drift is covered by GuardLoop.NothingMissed.
