/**
 * The state one turn threads through the graph, the handlers that update it
 * in place, and the session that builds a fresh state per turn and keeps
 * the profile and the long-term memory between turns.  Every model reply
 * is an input: the classifier's reply, the handler's reply (for the stock
 * handler, the symbol it extracted) and the stock handler's risk note.
 */
module State {
  import opened Wrappers
  import opened Text
  import Intent
  import Routing
  import Stock
  import Profile

  const PreviousIntentKey: string := "previous_intent"
  const LastQuestionKey: string := "last_question"
  const LastStockRequestedKey: string := "last_stock_requested"
  const LastExpenseKey: string := "last_expense"
  const LastAdviceKey: string := "last_advice"

  // The reply texts below are the source's strings, cut at phrase
  // boundaries into literals of at most 44 characters: the verifier cannot
  // look inside a longer literal.

  /** The reply of the human-in-the-loop node, which is a fixed template
      around the user's text and involves no model call. */
  function EscalationNotice(userInput: string): string {
    "The query '" + userInput + "' has been flagged as high-risk. "
      + " Judges to a human financial advisor:" + " This query requires review by" + " a financial advisor. "
      + "Please wait for expert input" + " before proceeding."
  }

  /** The reply of the fallback node.  The source file's text opens with the
      four characters U+00F0 U+0178 U+00A4 U+201D (the UTF-8 bytes of the
      "thinking face" emoji read as Windows-1252 text), and so does this. */
  const FallbackMessage: string :=
    "\U{F0}\U{178}\U{A4}\U{201D} Sorry, I didn't understand." + " Try asking about stocks, expenses,"
      + " budgets, or financial advice."

  /** The handler to run for a user's text and the classifier's reply. */
  function Route(userInput: string, classifierReply: string): Routing.Node {
    Routing.Dispatch(Intent.HighRisk(userInput), Some(Intent.ExtractIntent(classifierReply)))
  }

  /** The escalation handler runs exactly for inputs with a risk phrase,
      whatever the classifier says. */
  lemma {:induction false} RouteEscalatesExactlyOnRisk(userInput: string, classifierReply: string)
    ensures Route(userInput, classifierReply) == Routing.HumanInTheLoop <==> Intent.HighRisk(userInput)
  {
    Routing.EscalationOnlyByFlag(Intent.HighRisk(userInput), Some(Intent.ExtractIntent(classifierReply)));
  }

  /** The fallback runs exactly when the input carries no risk phrase and no
      label occurs in the classifier's reply. */
  lemma {:induction false} RouteFallsBackExactlyOnUnknown(userInput: string, classifierReply: string)
    ensures Route(userInput, classifierReply) == Routing.Fallback <==>
            !Intent.HighRisk(userInput) && Intent.ExtractIntent(classifierReply) == Intent.Unknown
  {
    RouteEscalatesExactlyOnRisk(userInput, classifierReply);
    Routing.DetectedIntentRoutes(classifierReply);
  }

  /** The escalated end-to-end query, whatever the classifier replies. */
  lemma LiquidateQueryEscalates(classifierReply: string)
    ensures Route("liquidate my retirement account", classifierReply) == Routing.HumanInTheLoop
  {
    Intent.LiquidateRetirementIsHighRisk();
    RouteEscalatesExactlyOnRisk("liquidate my retirement account", classifierReply);
  }

  /** The state of one turn.  `response` stands for `data["response"]`;
      `data` is `None` until a handler has run. */
  class FinanceState {
    const userInput: string
    var intent: Option<string>
    var response: Option<string>
    var userProfile: map<string, string>
    var shortTermMemory: map<string, string>
    var longTermMemory: map<string, string>
    var hitlFlag: bool

    /** Once set, the intent is one of the six labels. */
    ghost predicate Valid()
      reads this
    {
      intent.Some? ==> intent.value in Intent.IntentLabels || intent.value == Intent.Unknown
    }

    /** The state a turn starts from: no intent, no response, an empty
        short-term memory, the flag cleared, and the profile and long-term
        memory carried in from the session. */
    constructor (userInput: string, userProfile: map<string, string>, longTermMemory: map<string, string>)
      ensures Valid()
      ensures this.userInput == userInput && intent == None && response == None
      ensures this.userProfile == userProfile && this.longTermMemory == longTermMemory
      ensures shortTermMemory == map[] && !hitlFlag
    {
      this.userInput := userInput;
      intent := None;
      response := None;
      this.userProfile := userProfile;
      shortTermMemory := map[];
      this.longTermMemory := longTermMemory;
      hitlFlag := false;
    }

    /** `detect_intent`: sets the intent from the classifier's reply, records
        it under "previous_intent" and sets the risk flag from the user's text. */
    method DetectIntent(classifierReply: string)
      requires Valid()
      modifies this
      ensures Valid()
      ensures intent == Some(Intent.ExtractIntent(classifierReply))
      ensures shortTermMemory == old(shortTermMemory)[PreviousIntentKey := intent.value]
      ensures hitlFlag == Intent.HighRisk(userInput)
      ensures response == old(response) && userProfile == old(userProfile)
      ensures longTermMemory == old(longTermMemory)
    {
      var detected := Intent.ExtractIntent(classifierReply);
      shortTermMemory := shortTermMemory[PreviousIntentKey := detected];
      intent := Some(detected);
      hitlFlag := Intent.HighRisk(userInput);
    }

    /** `collect_user_data`: a reply that mentions a profile field updates the
        profile line by line; any other reply is kept as "last_question". */
    method CollectUserData(reply: string)
      requires Valid()
      modifies this
      ensures Valid()
      ensures var message := Strip(reply);
              && response == Some(message)
              && userProfile == Profile.UpdatedProfile(old(userProfile), message)
              && shortTermMemory ==
                   if Profile.MentionsProfileField(message) then old(shortTermMemory)
                   else old(shortTermMemory)[LastQuestionKey := message]
      ensures intent == old(intent) && hitlFlag == old(hitlFlag)
      ensures longTermMemory == old(longTermMemory)
    {
      var message := Strip(reply);
      if Profile.MentionsProfileField(message) {
        userProfile := Profile.ApplyLines(userProfile, Split(message, '\n'));
      } else {
        shortTermMemory := shortTermMemory[LastQuestionKey := message];
      }
      response := Some(message);
    }

    /** `get_stock_info`: on every reply, whichever branch produced it, the
        user's text is recorded under "last_stock_requested"; when an
        exception escapes nothing is written. */
    method GetStockInfo(symbolReply: string, fetchFor: string -> Stock.Fetch, riskReply: string)
      returns (raised: Option<Stock.Uncaught>)
      requires Valid()
      modifies this
      ensures Valid()
      ensures match Stock.StockReply(userInput, symbolReply, fetchFor, riskReply)
              case Success(message) =>
                && raised == None && response == Some(message)
                && shortTermMemory == old(shortTermMemory)[LastStockRequestedKey := userInput]
              case Failure(error) =>
                raised == Some(error) && response == old(response) && shortTermMemory == old(shortTermMemory)
      ensures intent == old(intent) && hitlFlag == old(hitlFlag)
      ensures userProfile == old(userProfile) && longTermMemory == old(longTermMemory)
    {
      match Stock.StockReply(userInput, symbolReply, fetchFor, riskReply)
      case Success(message) =>
        response := Some(message);
        shortTermMemory := shortTermMemory[LastStockRequestedKey := userInput];
        raised := None;
      case Failure(error) =>
        raised := Some(error);
    }

    /** `track_expenses`: writes only "last_expense" in short-term memory. */
    method TrackExpenses(reply: string)
      requires Valid()
      modifies this
      ensures Valid()
      ensures response == Some(Strip(reply))
      ensures shortTermMemory == old(shortTermMemory)[LastExpenseKey := userInput]
      ensures intent == old(intent) && hitlFlag == old(hitlFlag)
      ensures userProfile == old(userProfile) && longTermMemory == old(longTermMemory)
    {
      response := Some(Strip(reply));
      shortTermMemory := shortTermMemory[LastExpenseKey := userInput];
    }

    /** `budget_summary`: changes only the response. */
    method BudgetSummary(reply: string)
      requires Valid()
      modifies this
      ensures Valid()
      ensures response == Some(Strip(reply))
      ensures intent == old(intent) && hitlFlag == old(hitlFlag) && shortTermMemory == old(shortTermMemory)
      ensures userProfile == old(userProfile) && longTermMemory == old(longTermMemory)
    {
      response := Some(Strip(reply));
    }

    /** `provide_advice`: writes only "last_advice" in long-term memory. */
    method ProvideAdvice(reply: string)
      requires Valid()
      modifies this
      ensures Valid()
      ensures response == Some(Strip(reply))
      ensures longTermMemory == old(longTermMemory)[LastAdviceKey := Strip(reply)]
      ensures intent == old(intent) && hitlFlag == old(hitlFlag) && shortTermMemory == old(shortTermMemory)
      ensures userProfile == old(userProfile)
    {
      var message := Strip(reply);
      longTermMemory := longTermMemory[LastAdviceKey := message];
      response := Some(message);
    }

    /** `human_in_the_loop`: changes only the response. */
    method HumanInTheLoop()
      requires Valid()
      modifies this
      ensures Valid()
      ensures response == Some(EscalationNotice(userInput))
      ensures intent == old(intent) && hitlFlag == old(hitlFlag) && shortTermMemory == old(shortTermMemory)
      ensures userProfile == old(userProfile) && longTermMemory == old(longTermMemory)
    {
      response := Some(EscalationNotice(userInput));
    }

    /** `fallback`: changes only the response. */
    method Fallback()
      requires Valid()
      modifies this
      ensures Valid()
      ensures response == Some(FallbackMessage)
      ensures intent == old(intent) && hitlFlag == old(hitlFlag) && shortTermMemory == old(shortTermMemory)
      ensures userProfile == old(userProfile) && longTermMemory == old(longTermMemory)
    {
      response := Some(FallbackMessage);
    }

    /** The handler node chosen by the conditional edges, run on this state.
        `outcome` is the reply it leaves in `response`, or the exception
        that escaped it; an exception leaves the profile and the long-term
        memory as they were. */
    method RunHandler(node: Routing.Node, replies: ModelReplies, fetchFor: string -> Stock.Fetch)
      returns (outcome: Result<string, Stock.Uncaught>)
      requires Valid()
      modifies this
      ensures Valid()
      ensures intent == old(intent) && hitlFlag == old(hitlFlag)
      ensures outcome == HandlerReply(node, userInput, replies, fetchFor)
      ensures outcome.Success? ==> response == Some(outcome.value)
      ensures userProfile == HandlerProfile(node, old(userProfile), replies)
      ensures longTermMemory == HandlerMemory(node, old(longTermMemory), replies)
      ensures shortTermMemory == HandlerShortTerm(node, userInput, old(shortTermMemory), replies, fetchFor)
      ensures outcome.Failure? ==> response == old(response)
      ensures outcome.Failure? ==> userProfile == old(userProfile) && longTermMemory == old(longTermMemory)
    {
      var raised: Option<Stock.Uncaught> := None;
      match node {
        case CollectUserData => CollectUserData(replies.handler);
        case StockInfo => raised := GetStockInfo(replies.handler, fetchFor, replies.riskNote);
        case ExpenseTracker => TrackExpenses(replies.handler);
        case BudgetSummary => BudgetSummary(replies.handler);
        case ProvideAdvice => ProvideAdvice(replies.handler);
        case HumanInTheLoop => HumanInTheLoop();
        case Fallback => Fallback();
      }
      outcome := if raised.Some? then Failure(raised.value) else Success(response.value);
    }
  }

  /** The model's replies a turn may consume. */
  datatype ModelReplies = ModelReplies(classifier: string, handler: string, riskNote: string)

  /** The reply a handler node produces, or the exception that escapes it. */
  function HandlerReply(node: Routing.Node, userInput: string, replies: ModelReplies, fetchFor: string -> Stock.Fetch)
    : Result<string, Stock.Uncaught>
  {
    match node
    case HumanInTheLoop => Success(EscalationNotice(userInput))
    case Fallback => Success(FallbackMessage)
    case StockInfo => Stock.StockReply(userInput, replies.handler, fetchFor, replies.riskNote)
    case _ => Success(Strip(replies.handler))
  }

  /** The profile a handler node leaves: only the profile handler changes it. */
  function HandlerProfile(node: Routing.Node, profile: map<string, string>, replies: ModelReplies)
    : map<string, string>
  {
    if node == Routing.CollectUserData
    then Profile.UpdatedProfile(profile, Strip(replies.handler))
    else profile
  }

  /** The long-term memory a handler node leaves: only the advice handler
      changes it. */
  function HandlerMemory(node: Routing.Node, memory: map<string, string>, replies: ModelReplies)
    : map<string, string>
  {
    if node == Routing.ProvideAdvice
    then memory[LastAdviceKey := Strip(replies.handler)]
    else memory
  }

  /** The short-term memory a handler node leaves: the profile handler
      records a reply without profile data as "last_question", the stock
      handler records the user's text as "last_stock_requested" unless an
      exception escapes, the expense handler records it as "last_expense",
      and the other handlers leave it alone. */
  function HandlerShortTerm(node: Routing.Node, userInput: string, memory: map<string, string>,
                            replies: ModelReplies, fetchFor: string -> Stock.Fetch): map<string, string>
  {
    match node
    case CollectUserData =>
      var message := Strip(replies.handler);
      if Profile.MentionsProfileField(message) then memory else memory[LastQuestionKey := message]
    case StockInfo =>
      if Stock.StockReply(userInput, replies.handler, fetchFor, replies.riskNote).Success?
      then memory[LastStockRequestedKey := userInput]
      else memory
    case ExpenseTracker => memory[LastExpenseKey := userInput]
    case _ => memory
  }

  /** What the host keeps between turns of one session. */
  class Session {
    var userProfile: map<string, string>
    var longTermMemory: map<string, string>

    constructor ()
      ensures userProfile == map[] && longTermMemory == map[]
    {
      userProfile := map[];
      longTermMemory := map[];
    }

    /** One turn: a fresh state, intent detection, the routed handler, and
        the handoff of the profile and long-term memory back to the session.
        Short-term memory is not carried over.  When an exception escapes the
        stock handler, the session keeps what it had. */
    method Turn(userInput: string, replies: ModelReplies, fetchFor: string -> Stock.Fetch)
      returns (reply: Result<string, Stock.Uncaught>)
      modifies this
      ensures reply == HandlerReply(Route(userInput, replies.classifier), userInput, replies, fetchFor)
      ensures userProfile == HandlerProfile(Route(userInput, replies.classifier), old(userProfile), replies)
      ensures longTermMemory == HandlerMemory(Route(userInput, replies.classifier), old(longTermMemory), replies)
    {
      var state := new FinanceState(userInput, userProfile, longTermMemory);
      state.DetectIntent(replies.classifier);
      var node := Routing.Dispatch(state.hitlFlag, state.intent);
      assert node == Route(userInput, replies.classifier);
      var outcome := state.RunHandler(node, replies, fetchFor);
      if outcome.Success? {
        reply := Success(state.response.value);
        userProfile := state.userProfile;
        longTermMemory := state.longTermMemory;
      } else {
        reply := outcome;
      }
    }
  }
}
