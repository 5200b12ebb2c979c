/**
 * The decision logic of `get_stock_info`: normalise and validate the ticker
 * the model extracted, and turn the market-data outcome into the reply.
 * The market-data client is a function from symbol to outcome, so that the
 * model shows which symbol is requested and that a rejected symbol is never
 * requested.
 */
module Stock {
  import opened Wrappers
  import opened Text

  /** One day of the daily series, in payload order: the date key and its
      "4. close" field, if the entry has one. */
  datatype DailyEntry = DailyEntry(date: string, close: Option<string>)

  /** The decoded JSON body of the market-data response, as far as the
      handler looks at it: the "Time Series (Daily)" object (its entries in
      payload order), the "Error Message" text and the "Note" text. */
  datatype Payload = Payload(
    timeSeries: Option<seq<DailyEntry>>,
    errorMessage: Option<string>,
    note: Option<string>)

  /** What the request produced: a decoded body, or a `RequestException`
      (connection failure, timeout, HTTP error status, undecodable body)
      with its text. */
  datatype Fetch = Received(body: Payload) | RequestFailed(reason: string)

  /** Exceptions that escape the handler and end the turn: `IndexError` when
      the daily series is empty, `KeyError` when its first entry has no
      "4. close". */
  datatype Uncaught = IndexError | KeyError

  // Each reply text below is the source's f-string, with its literal parts
  // cut at phrase boundaries into pieces of at most 44 characters: the
  // verifier cannot look inside a longer literal.

  const RateLimitMessage: string := "Alpha Vantage API rate limit exceeded." + " Please try again in a minute."

  function ClarifyMessage(userInput: string): string {
    "Sorry, I couldn't identify a valid" + " stock symbol from '" + userInput
      + "'. Please specify the stock" + " (e.g., 'AAPL' for Apple)."
  }

  function LatestCloseMessage(symbol: string, close: string, date: string): string {
    "The latest closing price for " + symbol + " is $" + close + " (as of " + date + ")."
  }

  function ProviderErrorMessage(error: string): string {
    "Error from Alpha Vantage: " + error + ". Please check the stock symbol" + " or try again later."
  }

  function NoDataMessage(symbol: string): string {
    "No data available for " + symbol + ". Please check the symbol" + " or try again later."
  }

  function FetchErrorMessage(symbol: string, reason: string): string {
    "Error fetching data for " + symbol + ": " + reason + ". Please try again later."
  }

  /** One to five letters 'A'..'Z' and nothing else. */
  predicate IsTicker(s: string) {
    1 <= |s| <= 5 && forall i :: 0 <= i < |s| ==> IsUpperLetter(s[i])
  }

  /** `re.match(r'^[A-Z]{1,5}$', s)`: Python's `$` also matches just before a
      final line feed. */
  predicate TickerPatternMatches(s: string) {
    IsTicker(s) || (|s| > 0 && s[|s| - 1] == '\n' && IsTicker(s[..|s| - 1]))
  }

  /** `response.content.strip().upper()` */
  function NormalizeSymbol(reply: string): string {
    Upper(Strip(reply))
  }

  /** The symbol the handler requests, or `None` when the pattern test
      rejects it.  The normalised reply is accepted exactly when it is one to
      five letters A-Z. */
  function SymbolToFetch(reply: string): (r: Option<string>)
    ensures r.Some? <==> IsTicker(NormalizeSymbol(reply))
    ensures r.Some? ==> r.value == NormalizeSymbol(reply)
  {
    var symbol := NormalizeSymbol(reply);
    assert TickerPatternMatches(symbol) ==> IsTicker(symbol) by {
      var t := Strip(reply);
      if |symbol| > 0 {
        assert symbol[|symbol| - 1] == UpperChar(t[|t| - 1]);
      }
    }
    if !TickerPatternMatches(symbol) || symbol == "UNKNOWN" then None else Some(symbol)
  }

  /** The `== 'UNKNOWN'` test never changes the outcome: that word has seven letters. */
  lemma UnknownTestRedundant(s: string)
    ensures TickerPatternMatches(s) ==> s != "UNKNOWN"
    ensures !TickerPatternMatches("UNKNOWN")
  {
  }

  /** The pattern as written accepts a symbol with a final line feed, which
      the earlier `strip()` has always removed. */
  lemma PatternAcceptsFinalLineFeed()
    ensures TickerPatternMatches("AAPL\n") && !IsTicker("AAPL\n")
  {
    assert "AAPL\n"[..4] == "AAPL";
  }

  /** A reply that already is a ticker is requested as it stands. */
  lemma {:induction false} TickerPassesThrough(s: string)
    requires IsTicker(s)
    ensures SymbolToFetch(s) == Some(s)
  {
    StripKeepsTrimmed(s);
    assert Upper(s) == s;
  }

  /** Case and surrounding whitespace of the reply do not matter. */
  lemma LowercaseSymbolAccepted()
    ensures SymbolToFetch(" aapl\n") == Some("AAPL")
  {
    var t := Strip(" aapl\n");
    assert SkipSpace(" aapl\n", 0) == 1;
    assert SkipSpaceBack(" aapl\n", 1, 6) == 5;
    assert t == "aapl";
    assert Upper("aapl") == "AAPL";
  }

  /** The empty reply, "UNKNOWN", a six-letter word and a dotted symbol are
      all rejected. */
  lemma RejectedSymbols()
    ensures SymbolToFetch("") == None
    ensures SymbolToFetch("UNKNOWN") == None
    ensures SymbolToFetch("GOOGLE") == None
    ensures SymbolToFetch("BRK.B") == None
  {
    StripKeepsTrimmed("UNKNOWN");
    StripKeepsTrimmed("GOOGLE");
    StripKeepsTrimmed("BRK.B");
    assert !IsUpperLetter(Upper("BRK.B")[3]);
  }

  /** `"Note" in data and "rate limit" in data["Note"].lower()` */
  predicate IsRateLimitNote(note: Option<string>) {
    note.Some? && Contains(Lower(note.value), "rate limit")
  }

  /** The reply for a decoded body: the branches are tested in the order
      time series, error message, rate-limit note, and the first listed
      date of the series is reported. */
  function PayloadReply(symbol: string, p: Payload, riskReply: string): Result<string, Uncaught> {
    if p.timeSeries.Some? then
      var series := p.timeSeries.value;
      if series == [] then Failure(IndexError)
      else if series[0].close.None? then Failure(KeyError)
      else Success(LatestCloseMessage(symbol, series[0].close.value, series[0].date) + "\n" + Strip(riskReply))
    else if p.errorMessage.Some? then
      Success(ProviderErrorMessage(p.errorMessage.value))
    else if IsRateLimitNote(p.note) then
      Success(RateLimitMessage)
    else
      Success(NoDataMessage(symbol))
  }

  /** The reply for a request outcome. */
  function FetchReply(symbol: string, fetch: Fetch, riskReply: string): Result<string, Uncaught> {
    match fetch
    case RequestFailed(reason) => Success(FetchErrorMessage(symbol, reason))
    case Received(p) => PayloadReply(symbol, p, riskReply)
  }

  /** The outcome of `get_stock_info` for a symbol-extraction reply, a
      market-data client and a risk-note reply.  A rejected symbol gives the
      clarification reply whatever the client would answer, so no request
      is made; an exception escapes only from a daily series that is present. */
  function StockReply(userInput: string, symbolReply: string, fetchFor: string -> Fetch, riskReply: string)
    : (r: Result<string, Uncaught>)
    ensures SymbolToFetch(symbolReply).None? ==> r == Success(ClarifyMessage(userInput))
    ensures r.Failure? ==>
              var symbol := SymbolToFetch(symbolReply);
              symbol.Some? && fetchFor(symbol.value).Received? && fetchFor(symbol.value).body.timeSeries.Some?
  {
    match SymbolToFetch(symbolReply)
    case None => Success(ClarifyMessage(userInput))
    case Some(symbol) => FetchReply(symbol, fetchFor(symbol), riskReply)
  }

  /** The rate-limit reply comes exactly from a body with neither a series
      nor an error message and with a note that mentions the rate limit. */
  lemma {:induction false} RateLimitReplyPrecedence(symbol: string, p: Payload, riskReply: string)
    ensures PayloadReply(symbol, p, riskReply) == Success(RateLimitMessage) <==>
            p.timeSeries.None? && p.errorMessage.None? && IsRateLimitNote(p.note)
  {
    assert RateLimitMessage[0] == 'A';
    if p.timeSeries.Some? {
      var series := p.timeSeries.value;
      if series != [] && series[0].close.Some? {
        var m := LatestCloseMessage(symbol, series[0].close.value, series[0].date);
        assert (m + "\n" + Strip(riskReply))[0] == m[0] == 'T';
      }
    } else if p.errorMessage.Some? {
      assert ProviderErrorMessage(p.errorMessage.value)[0] == 'E';
    } else if !IsRateLimitNote(p.note) {
      assert NoDataMessage(symbol)[0] == 'N';
    }
  }

  /** A present series decides the reply whatever the other two fields
      hold, and an error message decides it whatever the note holds. */
  lemma BranchOrder(symbol: string, p: Payload, riskReply: string, e: Option<string>, n: Option<string>)
    ensures p.timeSeries.Some? ==>
              PayloadReply(symbol, p.(errorMessage := e, note := n), riskReply) == PayloadReply(symbol, p, riskReply)
    ensures p.timeSeries.None? && p.errorMessage.Some? ==>
              PayloadReply(symbol, p.(note := n), riskReply) == PayloadReply(symbol, p, riskReply)
  {
  }

  /** The series branch reports the first date in payload order, not the
      latest date: dates listed oldest first report the oldest close. */
  lemma FirstListedDateReported()
    ensures var p := Payload(Some([DailyEntry("2024-01-02", Some("185.64")),
                                   DailyEntry("2024-01-03", Some("184.25"))]), None, None);
            PayloadReply("AAPL", p, "") ==
              Success(LatestCloseMessage("AAPL", "185.64", "2024-01-02") + "\n")
  {
    var p := Payload(Some([DailyEntry("2024-01-02", Some("185.64")),
                           DailyEntry("2024-01-03", Some("184.25"))]), None, None);
    var first := p.timeSeries.value[0];
    assert first == DailyEntry("2024-01-02", Some("185.64"));
    StripKeepsTrimmed("");
    assert LatestCloseMessage("AAPL", "185.64", "2024-01-02") + "\n" + "" == LatestCloseMessage("AAPL", "185.64", "2024-01-02") + "\n";
    assert PayloadReply("AAPL", p, "") == Success(LatestCloseMessage("AAPL", first.close.value, first.date) + "\n" + Strip(""));
  }

  /** A body with only a note that does not mention the rate limit gets
      the no-data reply, like a body with none of the three fields. */
  lemma NoteWithoutRateLimitGetsNoData(symbol: string, note: string, riskReply: string)
    requires !Contains(Lower(note), "rate limit")
    ensures PayloadReply(symbol, Payload(None, None, Some(note)), riskReply) == Success(NoDataMessage(symbol))
    ensures PayloadReply(symbol, Payload(None, None, None), riskReply) == Success(NoDataMessage(symbol))
  {
  }

  /** A body carrying both an error message and a rate-limit note gets the
      provider-error reply, not the rate-limit reply. */
  lemma ErrorMessageHidesRateLimit()
    ensures var p := Payload(None, Some("Invalid API call"), Some("Rate limit reached"));
            IsRateLimitNote(p.note) && PayloadReply("AAPL", p, "") != Success(RateLimitMessage)
  {
    var p := Payload(None, Some("Invalid API call"), Some("Rate limit reached"));
    assert Lower("Rate limit reached") == "rate limit reached";
    assert OccursAt(Lower("Rate limit reached"), "rate limit", 0);
    RateLimitReplyPrecedence("AAPL", p, "");
  }
}
