/**
 * The parsing half of `collect_user_data`: whether the model's reply is
 * read as profile data at all, and how its `key: value` lines update the
 * profile.
 */
module Profile {
  import opened Wrappers
  import opened Text

  /** Substrings of the lower-cased reply that switch on line parsing. */
  const ProfileMarkers: seq<string> := ["age:", "income:", "goal:", "risk:"]

  /** The separator each profile line is split at. */
  const Separator: string := ": "

  /** The reply is read as profile data when, lower-cased, it mentions one
      of the markers. */
  function MentionsProfileField(message: string): bool {
    ContainsAny(Lower(message), ProfileMarkers)
  }

  /** The test holds exactly when some marker occurs in the lower-cased reply. */
  lemma MentionsProfileFieldIff(message: string)
    ensures MentionsProfileField(message) <==>
            exists k, j :: k in ProfileMarkers && OccursAt(Lower(message), k, j)
  {
    var s := Lower(message);
    if MentionsProfileField(message) {
      var k, j :| k in ProfileMarkers && OccursAt(s, k, j);
      assert OccursAt(Lower(message), k, j);
    }
  }

  /** The profile entry one line writes: the lower-cased text before the
      first ": " and everything after it; nothing when the line has no ": ". */
  function ParseLine(line: string): Option<(string, string)> {
    match SplitOnce(line, Separator)
    case None => None
    case Some((key, value)) => Some((Lower(key), value))
  }

  /** `line` writes `value` under `key`. */
  predicate Writes(line: string, key: string, value: string) {
    ParseLine(line) == Some((key, value))
  }

  /** `line` writes something under `key`. */
  predicate WritesKey(line: string, key: string) {
    ParseLine(line).Some? && ParseLine(line).value.0 == key
  }

  /** The profile after one line has been applied. */
  function ApplyLine(profile: map<string, string>, line: string): map<string, string> {
    match ParseLine(line)
    case None => profile
    case Some((key, value)) => profile[key := value]
  }

  /** The profile after the lines have been applied in order. */
  function FoldProfile(profile: map<string, string>, lines: seq<string>): map<string, string>
    decreases |lines|
  {
    if lines == [] then profile
    else ApplyLine(FoldProfile(profile, lines[..|lines| - 1]), lines[|lines| - 1])
  }

  /** The profile `collect_user_data` leaves for a stripped reply. */
  function UpdatedProfile(profile: map<string, string>, message: string): map<string, string> {
    if MentionsProfileField(message) then FoldProfile(profile, Split(message, '\n')) else profile
  }

  /** The loop over `message.split('\n')`, assigning into the profile line
      by line. */
  method ApplyLines(profile: map<string, string>, lines: seq<string>) returns (updated: map<string, string>)
    ensures updated == FoldProfile(profile, lines)
  {
    updated := profile;
    var i := 0;
    while i < |lines|
      invariant 0 <= i <= |lines|
      invariant updated == FoldProfile(profile, lines[..i])
    {
      var line := lines[i];
      if Contains(line, Separator) {
        var parts := SplitOnce(line, Separator);
        var (key, value) := parts.value;
        updated := updated[Lower(key) := value];
      }
      assert lines[..i + 1][..i] == lines[..i];
      i := i + 1;
    }
    assert lines[..i] == lines;
  }

  /** The last line that writes a key decides its value: later lines
      overwrite earlier ones. */
  lemma {:induction false} LastWriterWins(profile: map<string, string>, lines: seq<string>, i: nat, key: string, value: string)
    requires i < |lines| && Writes(lines[i], key, value)
    requires forall j :: i < j < |lines| ==> !WritesKey(lines[j], key)
    ensures key in FoldProfile(profile, lines) && FoldProfile(profile, lines)[key] == value
    decreases |lines|
  {
    var init := lines[..|lines| - 1];
    if i < |lines| - 1 {
      assert init[i] == lines[i];
      forall j | i < j < |init| ensures !WritesKey(init[j], key) {
        assert init[j] == lines[j];
      }
      LastWriterWins(profile, init, i, key, value);
      assert !WritesKey(lines[|lines| - 1], key);
    }
  }

  /** A key no line writes keeps its old entry, or stays absent. */
  lemma {:induction false} UnwrittenKeyKept(profile: map<string, string>, lines: seq<string>, key: string)
    requires forall j :: 0 <= j < |lines| ==> !WritesKey(lines[j], key)
    ensures key in FoldProfile(profile, lines) <==> key in profile
    ensures key in profile ==> FoldProfile(profile, lines)[key] == profile[key]
    decreases |lines|
  {
    if lines != [] {
      var init := lines[..|lines| - 1];
      forall j | 0 <= j < |init| ensures !WritesKey(init[j], key) {
        assert init[j] == lines[j];
      }
      UnwrittenKeyKept(profile, init, key);
      assert !WritesKey(lines[|lines| - 1], key);
    }
  }

  /** Every key a line writes is lower case, and the line is the key's
      original spelling, ": ", and the value, with no ": " starting inside
      the original spelling. */
  lemma WrittenLine(line: string, key: string, value: string)
    requires Writes(line, key, value)
    ensures Lower(key) == key
    ensures exists original :: line == original + Separator + value && Lower(original) == key
                               && forall j :: 0 <= j < |original| ==> !OccursAt(line, Separator, j)
  {
    var (original, v) := SplitOnce(line, Separator).value;
    LowerIdempotent(original);
  }

  /** Text without a line feed splits into itself alone. */
  lemma SingleLine(s: string)
    requires '\n' !in s
    ensures Split(s, '\n') == [s]
  {
    forall j | 0 <= j ensures !OccursAt(s, ['\n'], j) {
      OccursAtChar(s, '\n', j);
    }
  }

  /** The line "age: 34" writes "34" under "age". */
  lemma AgeLineWrites(line: string)
    requires line == "age: 34"
    ensures Writes(line, "age", "34")
  {
    assert OccursAt(line, Separator, 3);
    forall j | 0 <= j < 3 ensures !OccursAt(line, Separator, j) {
      assert line[j + 0] != Separator[0];
    }
    assert IndexOf(line, Separator, 0) == Some(3);
    assert line[..3] == "age" && line[5..] == "34";
    assert Lower("age") == "age";
  }

  /** A reply "age: 34" stores "34" under "age". */
  lemma AgeLineUpdatesProfile(profile: map<string, string>, message: string)
    requires message == "age: 34"
    ensures var p := UpdatedProfile(profile, message);
            "age" in p && p["age"] == "34"
  {
    assert MentionsProfileField(message) by {
      assert Lower(message) == message;
      assert OccursAt(Lower(message), "age:", 0);
    }
    assert Split(message, '\n') == [message] by {
      SingleLine(message);
    }
    AgeLineWrites(message);
    LastWriterWins(profile, [message], 0, "age", "34");
  }

  /** A line without a space writes nothing. */
  lemma NoSpaceNoEntry(line: string)
    requires ' ' !in line
    ensures ParseLine(line).None?
  {
    forall j | 0 <= j ensures !OccursAt(line, Separator, j) {
      if j + 2 <= |line| {
        assert line[j + 1] != Separator[1];
      }
    }
  }

  /** A reply "age:34" switches on line parsing, yet none of its lines has
      ": ", so the parse writes nothing. */
  lemma MarkerWithoutSeparator(profile: map<string, string>, message: string)
    requires message == "age:34"
    ensures MentionsProfileField(message)
    ensures FoldProfile(profile, Split(message, '\n')) == profile
  {
    assert Lower(message) == message;
    assert OccursAt(Lower(message), "age:", 0);
    SingleLine(message);
    NoSpaceNoEntry(message);
    assert FoldProfile(profile, [message]) == ApplyLine(FoldProfile(profile, []), message);
  }
}
