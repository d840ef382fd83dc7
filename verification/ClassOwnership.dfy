/** Which ToolGateways this operator claims, and which ToolGateway a ToolRoute
    targets. */
module ClassOwnership {
  import opened Wrappers
  import opened Objects

  const CONTROLLER_NAME := "runtime.agentic-layer.ai/tool-gateway-agentgateway-controller"
  const DEFAULT_NAMESPACE := "tool-gateway"

  /** isDefault is the value of the default-class annotation, if present. */
  datatype Class = Class(name: string, controller: string, isDefault: Option<string>)

  datatype GatewaySpec = GatewaySpec(className: string, guardrails: seq<Ref>)

  type GatewayObj = Obj<GatewaySpec>

  predicate IsOurs(c: Class) {
    c.controller == CONTROLLER_NAME
  }

  /** A named class must exist and be ours; without a name, some class of ours must
      be marked as the default. */
  predicate Owned(classes: seq<Class>, className: string) {
    exists i :: 0 <= i < |classes| && IsOurs(classes[i]) &&
      (if className != "" then classes[i].name == className else classes[i].isDefault == Some("true"))
  }

  method IsToolGatewayOwnedByController(classes: seq<Class>, tg: GatewaySpec) returns (claimed: bool)
    ensures claimed == Owned(classes, tg.className)
    ensures claimed <==>
              exists c ::
                c in classes && c.controller == "runtime.agentic-layer.ai/tool-gateway-agentgateway-controller"
                && (tg.className != "" ==> c.name == tg.className)
                && (tg.className == "" ==> c.isDefault == Some("true"))
  {
    var owned := [];
    for i := 0 to |classes|
      invariant forall c :: c in owned <==> exists j :: 0 <= j < i && classes[j] == c && IsOurs(c)
    {
      if classes[i].controller == CONTROLLER_NAME {
        owned := owned + [classes[i]];
      }
    }
    if tg.className != "" {
      for i := 0 to |owned|
        invariant forall j | 0 <= j < i :: owned[j].name != tg.className
      {
        assert owned[i] in owned;
        if owned[i].name == tg.className {
          return true;
        }
      }
      assert forall c | c in owned :: c.name != tg.className;
      return false;
    }
    for i := 0 to |owned|
      invariant forall j | 0 <= j < i :: owned[j].isDefault != Some("true")
    {
      assert owned[i] in owned;
      if owned[i].isDefault == Some("true") {
        return true;
      }
    }
    assert forall c | c in owned :: c.isDefault != Some("true");
    return false;
  }

  /** The ToolGateways of a namespace, in list order. */
  function InNamespace(gateways: seq<GatewayObj>, ns: string): seq<GatewayObj> {
    if gateways == [] then []
    else if gateways[0].key.ns == ns then [gateways[0]] + InNamespace(gateways[1..], ns)
    else InNamespace(gateways[1..], ns)
  }

  /** The key of the ToolGateway a route without a reference falls back to. */
  function DefaultGateway(gateways: seq<GatewayObj>): Option<Key> {
    var found := InNamespace(gateways, DEFAULT_NAMESPACE);
    if found == [] then None else Some(found[0].key)
  }

  function ResolveToolGatewayKey(ref: Option<Ref>, home: string, gateways: seq<GatewayObj>): Option<Key> {
    match ref
    case Some(r) => Some(Resolve(r, home))
    case None => DefaultGateway(gateways)
  }

  lemma {:induction false} FirstInNamespace(gateways: seq<GatewayObj>, ns: string, i: nat)
    requires i < |gateways| && gateways[i].key.ns == ns
    requires forall j | 0 <= j < i :: gateways[j].key.ns != ns
    ensures InNamespace(gateways, ns) != [] && InNamespace(gateways, ns)[0] == gateways[i]
  {
    if i > 0 { FirstInNamespace(gateways[1..], ns, i - 1); }
  }

  lemma {:induction false} NoneInNamespace(gateways: seq<GatewayObj>, ns: string)
    requires forall j | 0 <= j < |gateways| :: gateways[j].key.ns != ns
    ensures InNamespace(gateways, ns) == []
  {
    if gateways != [] { NoneInNamespace(gateways[1..], ns); }
  }

  lemma FirstOrNone(gateways: seq<GatewayObj>, ns: string) returns (first: Option<nat>)
    ensures match first
            case None => forall j | 0 <= j < |gateways| :: gateways[j].key.ns != ns
            case Some(i) =>
              i < |gateways| && gateways[i].key.ns == ns && forall j | 0 <= j < i :: gateways[j].key.ns != ns
  {
    first := None;
    var n := 0;
    while n < |gateways|
      invariant n <= |gateways| && first == None && forall j | 0 <= j < n :: gateways[j].key.ns != ns
    {
      if gateways[n].key.ns == ns { return Some(n); }
      n := n + 1;
    }
  }

  /** Which ToolGateway a route targets: the one it names, in the route's own namespace if
      it gives none; without a reference the first one listed in the namespace
      tool-gateway, and none exactly if there is none there. */
  lemma TargetOfRoute(ref: Option<Ref>, home: string, gateways: seq<GatewayObj>)
    ensures var target := ResolveToolGatewayKey(ref, home, gateways);
            && (ref.Some? ==> target.Some? && target.value.name == ref.value.name
                              && target.value.ns == if ref.value.ns == "" then home else ref.value.ns)
            && (ref.None? && target.Some? ==>
                  exists i :: 0 <= i < |gateways| && gateways[i].key == target.value
                              && gateways[i].key.ns == "tool-gateway"
                              && forall j | 0 <= j < i :: gateways[j].key.ns != "tool-gateway")
            && (ref.None? && target.None? ==> forall j | 0 <= j < |gateways| :: gateways[j].key.ns != "tool-gateway")
  {
    var first := FirstOrNone(gateways, DEFAULT_NAMESPACE);
    match first {
      case None => NoneInNamespace(gateways, DEFAULT_NAMESPACE);
      case Some(i) => FirstInNamespace(gateways, DEFAULT_NAMESPACE, i);
    }
  }

  lemma {:induction false} InNamespaceWithout(gateways: seq<GatewayObj>, ns: string, gone: Key)
    requires gone.ns != ns
    ensures InNamespace(Without(gateways, gone), ns) == InNamespace(gateways, ns)
  {
    if gateways != [] {
      InNamespaceWithout(gateways[1..], ns, gone);
      if gateways[0].key != gone {
        assert ([gateways[0]] + Without(gateways[1..], gone))[1..] == Without(gateways[1..], gone);
      }
    }
  }

  /** Only changes in the default namespace can change the default. */
  lemma DefaultUnchanged(a: seq<GatewayObj>, b: seq<GatewayObj>, changed: Key)
    requires ChangedOnlyAt(a, b, changed) && changed.ns != DEFAULT_NAMESPACE
    ensures DefaultGateway(a) == DefaultGateway(b)
  {
    InNamespaceWithout(a, DEFAULT_NAMESPACE, changed);
    InNamespaceWithout(b, DEFAULT_NAMESPACE, changed);
  }
}
