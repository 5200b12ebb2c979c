/**
 * Intent detection (`detect_intent` in app.py): the classifier reply is
 * stripped and lower-cased, `re.search(r"(profile|stock|expense|budget|advice)")`
 * picks a label, defaulting to "unknown"; the high-risk flag is a
 * case-insensitive substring test of the user's own text.
 */
module Intent {
  import opened Wrappers
  import opened Text

  /** The alternation of the label regex, in its written order. */
  const IntentLabels: seq<string> := ["profile", "stock", "expense", "budget", "advice"]

  /** The label used when no alternative of the regex matches. */
  const Unknown: string := "unknown"

  /** Phrases that make a query high-risk, matched against the lower-cased input. */
  const RiskKeywords: seq<string> := ["liquidate", "retirement", "all my savings", "entire portfolio"]

  /** One successful `re.search`: where the match starts and which alternative matched. */
  datatype Match = Match(start: nat, found: string)

  /** The first alternative, in the order of `labels`, that matches at index `j`. */
  function LabelAt(s: string, j: nat, labels: seq<string>): Option<string>
    decreases |labels|
  {
    if labels == [] then None
    else if OccursAt(s, labels[0], j) then Some(labels[0])
    else LabelAt(s, j, labels[1..])
  }

  /** The alternative found at `j` is one of `labels` and occurs there; when
      none is found, no alternative occurs at `j`. */
  lemma {:induction false} LabelAtFindsOccurrence(s: string, j: nat, labels: seq<string>)
    ensures var r := LabelAt(s, j, labels);
            && (r.Some? ==> r.value in labels && OccursAt(s, r.value, j))
            && (r.None? ==> forall l :: l in labels ==> !OccursAt(s, l, j))
    decreases |labels|
  {
    if labels != [] && !OccursAt(s, labels[0], j) {
      LabelAtFindsOccurrence(s, j, labels[1..]);
      assert forall l :: l in labels <==> l == labels[0] || l in labels[1..];
    }
  }

  /** `re.search` of the label alternation in `s`, trying start positions
      from `from` upwards. */
  function SearchFrom(s: string, from: nat): Option<Match>
    decreases |s| + 1 - from
  {
    if from > |s| then None
    else match LabelAt(s, from, IntentLabels)
      case Some(l) => Some(Match(from, l))
      case None => SearchFrom(s, from + 1)
  }

  /** The match found starts where some label occurs and no label occurs at
      any earlier start position. */
  lemma {:induction false} SearchFromFindsEarliest(s: string, from: nat)
    ensures var r := SearchFrom(s, from);
            r.Some? ==>
              && from <= r.value.start && r.value.found in IntentLabels
              && OccursAt(s, r.value.found, r.value.start)
              && forall j, l :: from <= j < r.value.start && l in IntentLabels ==> !OccursAt(s, l, j)
    decreases |s| + 1 - from
  {
    if from <= |s| {
      LabelAtFindsOccurrence(s, from, IntentLabels);
      if LabelAt(s, from, IntentLabels).None? {
        SearchFromFindsEarliest(s, from + 1);
      }
    }
  }

  /** When nothing is found, no label occurs at or after `from`. */
  lemma {:induction false} SearchFromMissesNothing(s: string, from: nat)
    ensures SearchFrom(s, from).None? ==>
              forall j, l :: from <= j && l in IntentLabels ==> !OccursAt(s, l, j)
    decreases |s| + 1 - from
  {
    if from <= |s| {
      LabelAtFindsOccurrence(s, from, IntentLabels);
      if LabelAt(s, from, IntentLabels).None? {
        SearchFromMissesNothing(s, from + 1);
      }
    }
  }

  /** The text the regex is run over: `response.content.strip().lower()`. */
  function ClassifierText(reply: string): string {
    Lower(Strip(reply))
  }

  /** The intent `detect_intent` assigns for a classifier reply: one of the
      five labels, or "unknown". */
  function ExtractIntent(reply: string): (r: string)
    ensures r in IntentLabels || r == Unknown
  {
    SearchFromFindsEarliest(ClassifierText(reply), 0);
    match SearchFrom(ClassifierText(reply), 0)
    case Some(m) => m.found
    case None => Unknown
  }

  /** The intent is "unknown" exactly when no label occurs in the stripped,
      lower-cased reply. */
  lemma ExtractIntentUnknownIff(reply: string)
    ensures ExtractIntent(reply) == Unknown <==>
            forall l :: l in IntentLabels ==> !Contains(ClassifierText(reply), l)
  {
    var s := ClassifierText(reply);
    SearchFromFindsEarliest(s, 0);
    SearchFromMissesNothing(s, 0);
    var m := SearchFrom(s, 0);
    if m.Some? {
      assert Contains(s, m.value.found);
    }
  }

  /** No label of the alternation is a prefix of another. */
  lemma LabelsPrefixFree(a: string, b: string)
    requires a in IntentLabels && b in IntentLabels && |a| <= |b| && b[..|a|] == a
    ensures a == b
  {
    assert a[0] == b[..|a|][0] == b[0];
  }

  /** At any one position at most one label can match, so the order of the
      alternation never decides which label is reported. */
  lemma {:induction false} AtMostOneLabelAt(s: string, j: int, a: string, b: string)
    requires a in IntentLabels && b in IntentLabels
    requires OccursAt(s, a, j) && OccursAt(s, b, j)
    ensures a == b
  {
    if |a| <= |b| {
      assert b[..|a|] == s[j..j + |a|];
      LabelsPrefixFree(a, b);
    } else {
      assert a[..|b|] == s[j..j + |b|];
      LabelsPrefixFree(b, a);
    }
  }

  /** When a label is found, it is the one whose first occurrence in the
      classifier text starts earliest, and no other label's first occurrence
      starts at the same index. */
  lemma {:induction false} ExtractIntentEarliest(reply: string, l: string)
    requires ExtractIntent(reply) != Unknown
    requires l in IntentLabels && Contains(ClassifierText(reply), l)
    ensures var s, r := ClassifierText(reply), ExtractIntent(reply);
            IndexOf(s, r, 0).Some? && IndexOf(s, l, 0).Some? &&
            IndexOf(s, r, 0).value <= IndexOf(s, l, 0).value &&
            (IndexOf(s, r, 0).value == IndexOf(s, l, 0).value ==> l == r)
  {
    var s := ClassifierText(reply);
    SearchFromFindsEarliest(s, 0);
    var m := SearchFrom(s, 0);
    assert m.Some?;
    var r := m.value.found;
    var p := IndexOf(s, r, 0);
    assert p.Some? && p.value == m.value.start;
    var q := IndexOf(s, l, 0);
    assert q.Some? && p.value <= q.value;
    if q.value == p.value {
      AtMostOneLabelAt(s, p.value, r, l);
    }
  }

  /** `any(keyword in user_input.lower() for keyword in high_risk_keywords)`:
      true exactly when some risk phrase occurs in the lower-cased input. */
  function HighRisk(userInput: string): bool {
    ContainsAny(Lower(userInput), RiskKeywords)
  }

  /** The flag is set exactly when some risk phrase occurs in the
      lower-cased input. */
  lemma HighRiskIff(userInput: string)
    ensures HighRisk(userInput) <==> exists k, j :: k in RiskKeywords && OccursAt(Lower(userInput), k, j)
  {
    var s := Lower(userInput);
    if HighRisk(userInput) {
      var k, j :| k in RiskKeywords && OccursAt(s, k, j);
      assert OccursAt(Lower(userInput), k, j);
    }
  }

  /** The flag ignores letter case. */
  lemma HighRiskIgnoresCase(userInput: string)
    ensures HighRisk(Upper(userInput)) == HighRisk(userInput)
  {
    assert Lower(Upper(userInput)) == Lower(userInput);
  }

  /** The end-to-end example of an escalated query: its input is flagged. */
  lemma LiquidateRetirementIsHighRisk()
    ensures HighRisk("liquidate my retirement account")
  {
    var s := "liquidate my retirement account";
    assert forall i :: 0 <= i < 9 ==> Lower(s)[i] == s[i] == "liquidate"[i];
    assert OccursAt(Lower(s), "liquidate", 0);
  }

  /** A reply naming two labels yields the one written first. */
  lemma FirstWrittenLabelWins()
    ensures ExtractIntent("Advice, not stock") == "advice"
  {
    var reply := "Advice, not stock";
    StripKeepsTrimmed(reply);
    var s := Lower(reply);
    assert s == "advice, not stock";
    forall l | l in IntentLabels && l != "advice" ensures !OccursAt(s, l, 0) {
      assert |l| <= |s| && s[0..|l|][0] != l[0];
    }
    assert OccursAt(s, "advice", 0);
    assert LabelAt(s, 0, IntentLabels) == Some("advice");
  }
}
