/**
 * The conditional edges out of the intent-detection node: `get_next_node`
 * names a branch, and the table given to `add_conditional_edges` maps each
 * branch name to the handler node that runs next.
 */
module Routing {
  import opened Wrappers
  import Intent

  /** The handler nodes of the graph. */
  datatype Node =
    | CollectUserData
    | StockInfo
    | ExpenseTracker
    | BudgetSummary
    | ProvideAdvice
    | HumanInTheLoop
    | Fallback

  /** `valid_intents` in `get_next_node`. */
  const ValidIntents: seq<string> := ["profile", "stock", "expense", "budget", "advice"]

  const HumanInTheLoopBranch: string := "human_in_the_loop"
  const FallbackBranch: string := "fallback"

  /** The conditional-edge table: branch name to handler node. */
  const Edges: map<string, Node> := map[
    "profile" := CollectUserData,
    "stock" := StockInfo,
    "expense" := ExpenseTracker,
    "budget" := BudgetSummary,
    "advice" := ProvideAdvice,
    HumanInTheLoopBranch := HumanInTheLoop,
    FallbackBranch := Fallback
  ]

  /** `get_next_node`.  Every branch it names is a key of the edge table; a
      set risk flag wins whatever the intent; otherwise a valid intent is
      passed through unchanged and anything else, `None` included, becomes
      the fallback branch. */
  function NextNode(hitlFlag: bool, intent: Option<string>): (r: string)
    ensures r in Edges
    ensures hitlFlag ==> r == HumanInTheLoopBranch
    ensures !hitlFlag ==> (r == FallbackBranch <==> intent.None? || intent.value !in ValidIntents)
    ensures !hitlFlag && r != FallbackBranch ==> intent == Some(r)
  {
    if hitlFlag then HumanInTheLoopBranch
    else if intent.Some? && intent.value in ValidIntents then intent.value
    else FallbackBranch
  }

  /** The handler node the graph runs after intent detection. */
  function Dispatch(hitlFlag: bool, intent: Option<string>): Node {
    Edges[NextNode(hitlFlag, intent)]
  }

  /** Distinct branch names lead to distinct handlers, so routing by branch
      name and routing by handler node are the same decision. */
  lemma EdgesInjective(a: string, b: string)
    requires a in Edges && b in Edges && Edges[a] == Edges[b]
    ensures a == b
  {
  }

  /** The escalation handler runs exactly when the risk flag is set: no
      intent, not even the string "human_in_the_loop", reaches it otherwise. */
  lemma {:induction false} EscalationOnlyByFlag(hitlFlag: bool, intent: Option<string>)
    ensures Dispatch(hitlFlag, intent) == HumanInTheLoop <==> hitlFlag
  {
    var b := NextNode(hitlFlag, intent);
    if !hitlFlag && Edges[b] == HumanInTheLoop {
      EdgesInjective(b, HumanInTheLoopBranch);
    }
  }

  /** Without the risk flag, each valid intent runs its own handler and
      everything else runs the fallback. */
  lemma {:induction false} DispatchByIntent(intent: Option<string>)
    ensures intent == Some("profile") ==> Dispatch(false, intent) == CollectUserData
    ensures intent == Some("stock") ==> Dispatch(false, intent) == StockInfo
    ensures intent == Some("expense") ==> Dispatch(false, intent) == ExpenseTracker
    ensures intent == Some("budget") ==> Dispatch(false, intent) == BudgetSummary
    ensures intent == Some("advice") ==> Dispatch(false, intent) == ProvideAdvice
    ensures Dispatch(false, intent) == Fallback <==> intent.None? || intent.value !in ValidIntents
  {
    var b := NextNode(false, intent);
    if Edges[b] == Fallback {
      EdgesInjective(b, FallbackBranch);
    }
  }

  /** Every intent the classifier can produce is either valid or "unknown",
      and "unknown" always falls back. */
  lemma DetectedIntentRoutes(reply: string)
    ensures var i := Intent.ExtractIntent(reply);
            (i in ValidIntents <==> i != Intent.Unknown) &&
            (Dispatch(false, Some(i)) == Fallback <==> i == Intent.Unknown)
  {
    DispatchByIntent(Some(Intent.ExtractIntent(reply)));
  }
}
