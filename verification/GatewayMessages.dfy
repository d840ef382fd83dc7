/** The texts of ToolGateway conditions, kept apart by their source so that the
    proofs about conditions do not compare long strings. */
module GatewayMessages {
  import opened Strings

  datatype Message =
    | Configured                     // the message of Ready=True
    | OneSlotOnly                    // the message of GuardrailsUnsupported
    | MultipleGuards                 // the multiple-guards error
    | DeleteFailed(detail: string)
    | GetFailed(detail: string)
    | WriteFailed(detail: string)
    | Detail(text: string)           // any other error text, told apart by the reason

  function Text(m: Message): string {
    match m
    case Configured => "Gateway and its backing resources are configured"
    case OneSlotOnly => "Multiple guards are not supported (agentgateway has only one ext_proc slot per target)"
    case MultipleGuards => "multiple guards not supported"
    case DeleteFailed(d) => "failed to delete guardrail policy: " + d
    case GetFailed(d) => "failed to get guard " + d
    case WriteFailed(d) => "failed to create or update guardrail policy: " + d
    case Detail(t) => t
  }

  predicate IsGuardrailsError(m: Message) {
    m.MultipleGuards? || m.DeleteFailed? || m.GetFailed? || m.WriteFailed?
  }

  function MarkOf(m: Message): char {
    match m
    case MultipleGuards => 'u'
    case DeleteFailed(_) => 'd'
    case GetFailed(_) => 'g'
    case _ => 'c'
  }

  /** The character that tells the four kinds of guardrails error apart. */
  lemma Distinguished(m: Message)
    requires IsGuardrailsError(m)
    ensures |Text(m)| > 10 && Text(m)[10] == MarkOf(m)
  {
    match m {
      case MultipleGuards => assert "multiple guards not supported"[10] == 'u';
      case DeleteFailed(d) => Tenth("failed to delete guardrail policy: ", d);
      case GetFailed(d) => Tenth("failed to get guard ", d);
      case WriteFailed(d) => Tenth("failed to create or update guardrail policy: ", d);
    }
  }

  lemma Tenth(prefix: string, rest: string)
    requires |prefix| > 10
    ensures |prefix + rest| > 10 && (prefix + rest)[10] == prefix[10]
  {
  }

  /** Messages reported under the guardrails reason are equal exactly when their
      texts are, so comparing them as values is comparing the stored texts. */
  lemma GuardrailsTextsInjective(a: Message, b: Message)
    requires IsGuardrailsError(a) && IsGuardrailsError(b)
    ensures Text(a) == Text(b) <==> a == b
  {
    Distinguished(a);
    Distinguished(b);
    if Text(a) == Text(b) {
      match a {
        case DeleteFailed(d) => SuffixesEqual("failed to delete guardrail policy: ", d, b.detail);
        case GetFailed(d) => SuffixesEqual("failed to get guard ", d, b.detail);
        case WriteFailed(d) => SuffixesEqual("failed to create or update guardrail policy: ", d, b.detail);
        case _ =>
      }
    }
  }
}
