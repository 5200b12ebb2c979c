# Finance advisor turn logic

This project models the deterministic core of `app.py`, a LangGraph finance advisor. Each chat turn builds a fresh state. An intent-detection node classifies the user's text with a language model and sets a high-risk flag from keywords. A conditional edge (`get_next_node` and its edge table) then picks one of seven handler nodes. The handler writes a reply and updates the short-term memory, the long-term memory or the user profile. Finally the host keeps the profile and the long-term memory for the next turn.

Every language-model reply is an input string. The market-data service is an input function from symbol to outcome, so the model shows which symbol is requested and that a rejected symbol is never requested.

Modules:

- `Text` (text.dfy): the Python string operations the handlers use, on ASCII text. These are `lower`, `upper`, `strip`, `in`, `split('\n')` and `split(': ', 1)`. A leftmost-occurrence search (`IndexOf`) is the search behind `in` and `split(': ', 1)`.
- `Intent` (intent.dfy): the label regex over the classifier's reply and the high-risk keyword flag.
- `Routing` (routing.dfy): `get_next_node` and the conditional-edge table.
- `Stock` (stock.dfy): ticker normalisation and validation in `get_stock_info`, and the branches over the market-data outcome.
- `Profile` (profile.dfy): the marker test and the `key: value` line parser of `collect_user_data`. It includes the loop that folds lines into the profile.
- `State` (state.dfy): the per-turn state as a class whose handler methods update its maps in place. It also holds the session that carries the profile and the long-term memory from turn to turn.

## Behaviour of the code worth knowing

Each of these follows from the code as written, and the model keeps it:

- **"Latest" close.** app.py:115 names the first key of the daily series `latest_date`, and app.py:118 calls the reply "the latest closing price". Yet the key taken is the first one in payload order, with no sorting by date. `Stock.FirstListedDateReported` shows that a series listed oldest first reports the oldest close.
- **Request failures.** A `RequestException` gets its own reply, "Error fetching data for …", with the exception text (app.py:137-138). The no-data reply at app.py:134-135 is for a decoded body with no daily series, no error message and no "Note" that mentions "rate limit". So a body whose "Note" lacks that phrase gets the no-data reply too (`Stock.NoteWithoutRateLimitGetsNoData`).
- **Lower-case tickers.** app.py:96 asks the model for "only the symbol … or 'UNKNOWN'". But app.py:99 upper-cases the reply before the check at app.py:102, so a reply " aapl\n" is requested as "AAPL" (`Stock.LowercaseSymbolAccepted`).
- **The "UNKNOWN" test.** The comparison with "UNKNOWN" at app.py:102 is redundant, because the pattern already rejects seven letters (`Stock.UnknownTestRedundant`).
- **Rate-limit precedence.** The "Error Message" test at app.py:128 comes before the rate-limit note at app.py:131. A body with both gets the provider-error reply (`Stock.ErrorMessageHidesRateLimit`), and the rate-limit reply needs a body with neither a series nor an error message (`Stock.RateLimitReplyPrecedence`).
- **Profile replies with a marker but no ": ".** app.py:52 switches on parsing when "age:", "income:", "goal:" or "risk:" occurs. Each line must then hold ": " to write anything (app.py:54), and `last_question` is set only in the other branch (app.py:58). So a reply "age:34" writes nothing and sets no `last_question` (`Profile.MarkerWithoutSeparator`).
- **Uncaught exceptions in the stock handler.** An empty daily series raises `IndexError` at app.py:115, and a first entry without "4. close" raises `KeyError` at app.py:117. The only handler is `except requests.RequestException` at app.py:137, so neither is caught. The model returns these as `Failure`, and the session keeps its profile and long-term memory unchanged.
- **Previous intent.** Every turn starts with an empty short-term memory (app.py:264). So the "previous_intent" written at app.py:80 is never read by a later turn, and the classifier prompt at app.py:71 always shows "none".

## Model

| member | source | states |
|---|---|---|
| Text.Lower | app.py:76 | `str.lower()` on ASCII, also used at app.py:52 and app.py:83: definition, each character mapped; idempotence in Text.LowerIdempotent |
| Text.Upper | app.py:99 | `str.upper()` on ASCII: definition, each character mapped; properties through Stock.SymbolToFetch and Stock.TickerPassesThrough |
| Text.Strip | app.py:50 | `str.strip()`: the result is no longer than the input, and it neither starts nor ends with whitespace |
| Text.StripRemovesOnlySpace | app.py:50 | the stripped text is a contiguous part of the input, and everything removed before or after it is whitespace |
| Text.StripKeepsTrimmed | app.py:99 | text that neither starts nor ends with whitespace is left unchanged by `strip()` |
| Text.IndexOf | app.py:54-55 | the leftmost-occurrence search behind `in` and `split(': ', 1)`: the index found is where the substring occurs, and it occurs at no earlier index; when nothing is found, it occurs nowhere at or after the start index |
| Text.Contains | app.py:54 | `sub in s` holds exactly when the substring occurs at some index |
| Text.ContainsAny | app.py:52 | an `or` of `in` tests holds exactly when one of the phrases occurs at some index |
| Text.Split | app.py:53 | `split('\n')` yields at least one part, no part contains the separator, and joining the parts with it gives back the text |
| Text.SplitOnce | app.py:55 | `split(': ', 1)` fails exactly when the separator does not occur; otherwise the two parts around the separator rebuild the line, and the separator occurs nowhere inside the first part |
| Intent.LabelAt | app.py:78 | definition of trying the alternatives at one position in written order; properties in Intent.LabelAtFindsOccurrence |
| Intent.SearchFrom | app.py:78 | definition of `re.search` over start positions; properties in Intent.SearchFromFindsEarliest and Intent.SearchFromMissesNothing |
| Intent.ClassifierText | app.py:76 | definition of `response.content.strip().lower()`; used by Intent.ExtractIntentUnknownIff |
| Intent.LabelAtFindsOccurrence | app.py:78 | the alternative tried at one position is an alternative that occurs there; when none is found, no alternative occurs there |
| Intent.SearchFromFindsEarliest | app.py:78 | `re.search` returns a label that occurs where the match starts, and no label occurs at any earlier position |
| Intent.SearchFromMissesNothing | app.py:78 | when `re.search` finds nothing, no label occurs anywhere |
| Intent.ExtractIntent | app.py:76-79 | the intent is always one of the five labels or "unknown" |
| Intent.ExtractIntentUnknownIff | app.py:76-79 | the intent is "unknown" exactly when none of the five labels occurs in the stripped, lower-cased reply |
| Intent.LabelsPrefixFree | app.py:78 | no label of the alternation is a prefix of another |
| Intent.AtMostOneLabelAt | app.py:78 | at most one label can match at a given position, so the order of the alternation never decides the label |
| Intent.ExtractIntentEarliest | app.py:76-79 | the label found is the one whose first occurrence starts earliest; any other label that occurs starts strictly later |
| Intent.FirstWrittenLabelWins | app.py:76-79 | the reply "Advice, not stock" yields "advice" |
| Intent.HighRisk | app.py:82-83 | definition of the `any(...)` over the four phrases; properties in Intent.HighRiskIff |
| Intent.HighRiskIff | app.py:82-83 | the risk flag is set exactly when one of the four phrases occurs in the lower-cased input |
| Intent.HighRiskIgnoresCase | app.py:83 | upper-casing the input does not change the flag |
| Intent.LiquidateRetirementIsHighRisk | app.py:82-83 | "liquidate my retirement account" is flagged |
| Routing.NextNode | app.py:207-211 | every branch name is a key of the edge table; the risk flag gives "human_in_the_loop" whatever the intent; otherwise the result is "fallback" exactly when the intent is absent or not valid, and is the intent itself when it is not "fallback" |
| Routing.Dispatch | app.py:224-236 | definition: the edge-table lookup of the branch name; properties in Routing.EscalationOnlyByFlag and Routing.DispatchByIntent |
| Routing.EdgesInjective | app.py:224-236 | distinct branch names lead to distinct handler nodes |
| Routing.EscalationOnlyByFlag | app.py:207-211 | the escalation handler runs exactly when the risk flag is set |
| Routing.DispatchByIntent | app.py:210-211 | without the flag, each valid intent runs its own handler, and the fallback runs exactly for an absent or invalid intent |
| Routing.DetectedIntentRoutes | app.py:78-79 | every detected intent is valid exactly when it is not "unknown", and it falls back exactly when it is "unknown" |
| Stock.NormalizeSymbol | app.py:99 | definition of `strip().upper()`; properties in Stock.SymbolToFetch |
| Stock.TickerPatternMatches | app.py:102 | definition of `re.match(r'^[A-Z]{1,5}$', …)` including the final line feed `$` allows; properties in Stock.UnknownTestRedundant, Stock.PatternAcceptsFinalLineFeed and Stock.SymbolToFetch |
| Stock.SymbolToFetch | app.py:99-102 | a symbol is requested exactly when the stripped, upper-cased reply is one to five letters A-Z, and that text is the symbol requested |
| Stock.UnknownTestRedundant | app.py:102 | the pattern never accepts "UNKNOWN", so the extra comparison never changes the outcome |
| Stock.PatternAcceptsFinalLineFeed | app.py:102 | the pattern as written also accepts a ticker followed by a line feed |
| Stock.TickerPassesThrough | app.py:99-102 | a reply that already is a ticker is requested unchanged |
| Stock.LowercaseSymbolAccepted | app.py:99-102 | " aapl\n" is requested as "AAPL" |
| Stock.RejectedSymbols | app.py:102-104 | the empty reply, "UNKNOWN", "GOOGLE" and "BRK.B" are rejected |
| Stock.IsRateLimitNote | app.py:131 | definition of `"Note" in data and "rate limit" in data["Note"].lower()` |
| Stock.ClarifyMessage | app.py:103 | definition: the clarification reply around the user's text |
| Stock.LatestCloseMessage | app.py:118 | definition: the closing-price reply for the symbol, price and date |
| Stock.ProviderErrorMessage | app.py:129 | definition: the provider-error reply around the error text |
| Stock.RateLimitMessage | app.py:132 | definition: the fixed rate-limit reply |
| Stock.NoDataMessage | app.py:135 | definition: the no-data reply for the symbol |
| Stock.FetchErrorMessage | app.py:138 | definition: the request-failure reply for the symbol and the exception text |
| Stock.PayloadReply | app.py:114-136 | definition of the payload classifier; properties in Stock.RateLimitReplyPrecedence, Stock.BranchOrder, Stock.FirstListedDateReported and Stock.ErrorMessageHidesRateLimit |
| Stock.FetchReply | app.py:108-139 | definition: a request failure gives the fetch-error reply, a decoded body goes to Stock.PayloadReply |
| Stock.StockReply | app.py:102-139 | a rejected symbol gives the clarification reply whatever the service would answer; an exception escapes only when the service returned a daily series for the requested symbol |
| Stock.RateLimitReplyPrecedence | app.py:114-134 | the rate-limit reply comes exactly from a body with no series, no error message and a note that mentions "rate limit" in any case |
| Stock.BranchOrder | app.py:114-131 | a present series decides the reply whatever the other fields hold, and an error message decides it whatever the note holds |
| Stock.FirstListedDateReported | app.py:114-118 | a series listed oldest first reports its first, oldest entry |
| Stock.NoteWithoutRateLimitGetsNoData | app.py:131-135 | a body with no series, no error message and a note that does not mention "rate limit" (or no note) gets the no-data reply |
| Stock.ErrorMessageHidesRateLimit | app.py:128-134 | a body with both an error message and a rate-limit note gets the provider-error reply |
| Profile.MentionsProfileField | app.py:52 | definition of the marker test; properties in Profile.MentionsProfileFieldIff |
| Profile.ParseLine | app.py:54-56 | definition of one line's entry; properties in Profile.WrittenLine and Profile.NoSpaceNoEntry |
| Profile.ApplyLine | app.py:54-56 | definition of one pass of the loop body: a line with ": " sets its key, any other line leaves the profile alone; properties in Profile.ApplyLines and Profile.LastWriterWins |
| Profile.FoldProfile | app.py:53-56 | definition of applying the lines in order; properties in Profile.LastWriterWins and Profile.UnwrittenKeyKept |
| Profile.UpdatedProfile | app.py:52-56 | definition of the profile after a reply; properties in Profile.AgeLineUpdatesProfile and Profile.MarkerWithoutSeparator |
| Profile.MentionsProfileFieldIff | app.py:52 | the reply is parsed exactly when one of "age:", "income:", "goal:", "risk:" occurs in it lower-cased |
| Profile.ApplyLines | app.py:53-56 | the loop over the lines leaves the profile obtained by applying each line's entry in order |
| Profile.LastWriterWins | app.py:53-56 | a key takes the value of the last line that writes it |
| Profile.UnwrittenKeyKept | app.py:53-56 | a key that no line writes keeps its old value, or stays absent |
| Profile.WrittenLine | app.py:54-56 | every key written is lower case, and its line is the original spelling, ": ", and the value, split at the first ": " |
| Profile.SingleLine | app.py:53 | text without a line feed is a single line |
| Profile.NoSpaceNoEntry | app.py:54 | a line without a space writes nothing |
| Profile.AgeLineWrites | app.py:54-56 | the line "age: 34" writes "34" under "age" |
| Profile.AgeLineUpdatesProfile | app.py:50-56 | the reply "age: 34" stores "34" under "age" |
| Profile.MarkerWithoutSeparator | app.py:52-56 | "age:34" is parsed as profile data, yet it leaves the profile unchanged |
| State.Route | app.py:207-236 | definition: the handler chosen from the risk flag and the extracted intent; properties in State.RouteEscalatesExactlyOnRisk and State.RouteFallsBackExactlyOnUnknown |
| State.EscalationNotice | app.py:193-198 | definition: the escalation template around the user's text |
| State.FallbackMessage | app.py:203 | definition: the fixed fallback text, opening with the four characters U+00F0 U+0178 U+00A4 U+201D as the source file has them |
| State.RouteEscalatesExactlyOnRisk | app.py:82-83 | a turn escalates exactly when the user's text has a risk phrase, whatever the classifier replies |
| State.RouteFallsBackExactlyOnUnknown | app.py:207-211 | a turn falls back exactly when there is no risk phrase and the intent is "unknown" |
| State.LiquidateQueryEscalates | app.py:82-83 | "liquidate my retirement account" is escalated whatever the classifier replies |
| State.FinanceState.constructor | app.py:259-267 | a turn starts with no intent, no response, empty short-term memory and the flag cleared, and with the session's profile and long-term memory |
| State.FinanceState.DetectIntent | app.py:63-85 | sets the extracted intent, records it under "previous_intent", sets the flag from the user's text, and changes nothing else |
| State.FinanceState.CollectUserData | app.py:38-60 | the response is the stripped reply; a reply with a marker updates the profile line by line and leaves short-term memory alone; any other reply leaves the profile alone and is stored as "last_question" |
| State.FinanceState.GetStockInfo | app.py:88-142 | on every reply, including clarification, provider error, rate limit, no data and request failure, the user's text is stored under "last_stock_requested" and nothing else changes; an escaping exception writes nothing |
| State.FinanceState.TrackExpenses | app.py:145-159 | writes only "last_expense", set to the user's text, and the response |
| State.FinanceState.BudgetSummary | app.py:162-170 | changes only the response |
| State.FinanceState.ProvideAdvice | app.py:173-188 | writes only "last_advice" in long-term memory, set to the reply, and the response |
| State.FinanceState.HumanInTheLoop | app.py:191-199 | changes only the response, which is the escalation notice |
| State.FinanceState.Fallback | app.py:202-204 | changes only the response, which is the fixed fallback message |
| State.FinanceState.RunHandler | app.py:224-236 | running the routed handler gives that handler's reply, profile, long-term memory and short-term memory, keeps the intent and the flag, and keeps the intent one of the six labels; an exception leaves the response, the profile and the long-term memory as they were |
| State.HandlerReply | app.py:88-204 | definition: the reply of each handler node, or the exception escaping the stock handler; tied to the handlers by State.FinanceState.RunHandler |
| State.HandlerProfile | app.py:50-60 | definition: only the profile handler changes the profile; tied to the handlers by State.FinanceState.RunHandler |
| State.HandlerMemory | app.py:173-188 | definition: only the advice handler changes the long-term memory; tied to the handlers by State.FinanceState.RunHandler |
| State.HandlerShortTerm | app.py:141 | definition: the short-term entry each handler writes (also app.py:58 and app.py:158); tied to the handlers by State.FinanceState.RunHandler |
| State.Session.constructor | app.py:244-247 | a session starts with an empty profile and empty long-term memory |
| State.Session.Turn | app.py:259-271 | a turn replies as the handler chosen for the user's text and the classifier's reply; the session keeps the profile and long-term memory that handler leaves, and short-term memory does not carry over |

## Left out

- Language-model calls and their prompts (app.py:43-49, 68-75, 94-98, 122-126, 150-155, 164-168, 178-184). Every reply is an input. The prompt text only feeds the model.
- The market-data HTTP request, `raise_for_status` and JSON decoding (app.py:107-111). These are network I/O. The model takes the decoded body as a `Payload` value, or a request failure with its text. These body shapes are not modelled, and each would raise or print something else in the source:
  - a decoded body that is not a JSON object;
  - a "Time Series (Daily)" value that is not an object (`.keys()` raises at app.py:115);
  - a first entry that is not an object (the indexing at app.py:117 raises);
  - "Note" or "Error Message" values that are not strings.
- A failing language-model call (app.py:49, 75, 98, 126, 155, 168, 184), which ends the turn with an exception. `Stock.Uncaught` holds only `IndexError` and `KeyError`.
- The user-profile lookup of "risk tolerance" for the risk-note prompt (app.py:121). It only feeds a prompt. The risk note itself is an input reply.
- Logging, environment and dotenv configuration (app.py:13-19, 104, 112, 130, 133, 136, 139). They are side effects with no behaviour to verify.
- The Streamlit page, the chat history and its rendering (app.py:240-257, 272-273). This is UI.
- asyncio and the compilation of the LangGraph `StateGraph` (app.py:213-223, 237, 268). The graph is modelled directly as intent detection, `Routing.Dispatch` and the handler. An exception ends the turn without a reply.
- Text.Lower, Text.Upper, Text.Strip: they handle ASCII letters and ASCII whitespace only. Python's Unicode case mapping and Unicode whitespace are not modelled.
- State.FinanceState.Valid: `hitl_flag` is modelled as a `bool`. The source type `Optional[bool]` is never `None` here, because the turn starts with `False`.
- State.Session.Turn: maps are values, so the in-place mutation of the session's own profile and long-term memory dictionaries (the handlers and the session share them) is modelled as a handoff after the handler returns. The two agree: every call that can raise, including each language-model call, comes before its handler's first write to either shared dictionary (app.py:56, 187).
