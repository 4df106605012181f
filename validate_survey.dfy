// Outcome reporting for one survey document (src/validate_survey.py): the
// three-way classification into success, malformed JSON and schema errors,
// the error message built from the list of located errors, and the tally of
// question types printed by the command-line entry point.

module ValidationReport {
  import opened Common
  import opened Text
  import opened SurveyModels
  import opened SurveyValidation

  // ---------------------------------------------------------------------------
  // Decoded input
  // ---------------------------------------------------------------------------

  /**
   * What the JSON decoder made of the input text. Decoding itself is not
   * modelled: `Object` is a decoded JSON object, `NotObject` any other
   * decoded JSON value, `Malformed` a decode error with the decoder's own
   * description, and `Fault` any other exception with its description.
   */
  datatype Decoded =
    | Object(data: RawSurveyInput)
    | NotObject
    | Malformed(detail: string)
    | Fault(detail: string)

  /** Reading a file: it cannot be opened or read, or its content decodes to something. */
  datatype FileRead = Unreadable(detail: string) | Read(content: Decoded)

  /** The `(is_valid, survey_input, error_message)` triple. */
  datatype Outcome = Outcome(isValid: bool, survey: Option<SurveyInput>, errorMessage: string)

  /** The library's message when the document is not an object (its location is empty). */
  const NotAnObject := "Input should be a valid dictionary or instance of SurveyInput"

  // ---------------------------------------------------------------------------
  // The error message
  // ---------------------------------------------------------------------------

  const HeaderLine := "Validation errors:"
  const Header := HeaderLine + "\n"

  /** `str(loc)`: a key as itself, an index in decimal. */
  function LocText(l: Loc): (r: string)
    ensures l.Index? ==> r != [] && forall i | 0 <= i < |r| :: IsDigit(r[i])
    ensures l.Index? ==> ParseDecimal(r) == l.i
  {
    match l
    case Key(k) => k
    case Index(i) => NatToStringRoundTrip(i); NatToString(i)
  }

  /** `str` of every part of a location. */
  function PathParts(p: Path): (r: seq<string>)
    ensures |r| == |p| && forall i | 0 <= i < |p| :: r[i] == LocText(p[i])
  {
    seq(|p|, i requires 0 <= i < |p| => LocText(p[i]))
  }

  /** The location parts joined with " -> ". */
  function PathText(p: Path): (r: string)
    ensures p == [] ==> r == ""
    ensures |p| == 1 ==> r == LocText(p[0])
  {
    Join(PathParts(p), " -> ")
  }

  /** One bullet line of the message, without its newline. */
  function LineText(e: FieldError): string {
    "  \U{2022} " + PathText(e.loc) + ": " + e.msg
  }

  /** A line is a bullet, then the location, then the error's own message. */
  lemma LineTextShape(e: FieldError)
    ensures StartsWith(LineText(e), "  \U{2022} ")
    ensures EndsWith(LineText(e), ": " + e.msg)
    ensures LineText(e)[4..|LineText(e)| - |e.msg| - 2] == PathText(e.loc)
  {
    var b, pt, tail := "  \U{2022} ", PathText(e.loc), ": " + e.msg;
    assert LineText(e) == b + pt + tail;
    assert (b + pt + tail)[..4] == b;
  }

  /** `LineText` of every error, in error order. */
  function LineTexts(errs: seq<FieldError>): (r: seq<string>)
    ensures |r| == |errs|
    ensures forall i | 0 <= i < |errs| :: r[i] == LineText(errs[i])
  {
    seq(|errs|, i requires 0 <= i < |errs| => LineText(errs[i]))
  }

  /** Each line followed by a newline, as the loop appends them. */
  function Terminated(lines: seq<string>): string {
    if lines == [] then ""
    else Terminated(lines[..|lines| - 1]) + lines[|lines| - 1] + "\n"
  }

  /** The whole message for a schema failure. */
  function ErrorMessage(errs: seq<FieldError>): (r: string)
    ensures StartsWith(r, Header)
  {
    Header + Terminated(LineTexts(errs))
  }

  /** The message as the source builds it, one `+=` per error. */
  method BuildErrorMessage(errs: seq<FieldError>) returns (msg: string)
    ensures msg == ErrorMessage(errs)
  {
    ghost var lines := LineTexts(errs);
    msg := Header;
    var k := 0;
    while k < |errs|
      invariant 0 <= k <= |errs|
      invariant msg == Header + Terminated(lines[..k])
    {
      var line := LineText(errs[k]);
      TerminatedSnoc(lines, k);
      assert (Header + Terminated(lines[..k])) + (line + "\n") == Header + (Terminated(lines[..k]) + (line + "\n"));
      msg := msg + (line + "\n");
      k := k + 1;
    }
    assert lines[..|errs|] == lines;
  }

  /** An error whose keys and message hold no newline. */
  predicate SingleLine(e: FieldError) {
    '\n' !in e.msg && forall i | 0 <= i < |e.loc| :: e.loc[i].Key? ==> '\n' !in e.loc[i].name
  }

  lemma JoinNoNewline(parts: seq<string>, sep: string)
    requires '\n' !in sep
    requires forall i | 0 <= i < |parts| :: '\n' !in parts[i]
    ensures '\n' !in Join(parts, sep)
  {
    if |parts| > 1 {
      JoinNoNewline(parts[1..], sep);
    }
  }

  /** A single-line error renders as one line. */
  lemma LineTextNoNewline(e: FieldError)
    requires SingleLine(e)
    ensures '\n' !in LineText(e)
  {
    var parts := PathParts(e.loc);
    forall i | 0 <= i < |parts| ensures '\n' !in parts[i] {
    }
    JoinNoNewline(parts, " -> ");
  }

  /** Single-line errors render as newline-free lines. */
  lemma LineTextsNoNewline(errs: seq<FieldError>)
    requires forall i | 0 <= i < |errs| :: SingleLine(errs[i])
    ensures forall i | 0 <= i < |errs| :: '\n' !in LineTexts(errs)[i]
  {
    forall i | 0 <= i < |errs| ensures '\n' !in LineTexts(errs)[i] {
      LineTextNoNewline(errs[i]);
    }
  }

  lemma TerminatedSnoc(lines: seq<string>, k: nat)
    requires k < |lines|
    ensures Terminated(lines[..k + 1]) == Terminated(lines[..k]) + (lines[k] + "\n")
  {
    assert lines[..k + 1][..k] == lines[..k];
  }

  /** Read from the front, the terminated lines are the first line and then the rest. */
  lemma {:induction false} TerminatedCons(a: string, rest: seq<string>)
    ensures Terminated([a] + rest) == a + "\n" + Terminated(rest)
    decreases |rest|
  {
    var all := [a] + rest;
    if rest != [] {
      var init := rest[..|rest| - 1];
      assert all[..|all| - 1] == [a] + init;
      TerminatedCons(a, init);
    }
  }

  /** Splitting newline-free lines, each terminated, at newlines gives them back and an empty tail. */
  lemma {:induction false} TerminatedSplit(lines: seq<string>)
    requires forall i | 0 <= i < |lines| :: '\n' !in lines[i]
    ensures Lines(Terminated(lines)) == lines + [""]
    decreases |lines|
  {
    if lines == [] {
      assert Lines("") == [""];
    } else {
      var a, rest := lines[0], lines[1..];
      assert lines == [a] + rest;
      TerminatedCons(a, rest);
      LinesCons(a, Terminated(rest));
      TerminatedSplit(rest);
    }
  }

  /**
   * The message is the header line, then exactly one bullet line
   * "  • l1 -> l2 -> ...: msg" per error in error order, and ends with a newline.
   */
  lemma MessageLines(errs: seq<FieldError>)
    requires forall i | 0 <= i < |errs| :: SingleLine(errs[i])
    ensures Lines(ErrorMessage(errs)) == [HeaderLine] + LineTexts(errs) + [""]
  {
    var lines := LineTexts(errs);
    LineTextsNoNewline(errs);
    assert ErrorMessage(errs) == HeaderLine + "\n" + Terminated(lines);
    LinesCons(HeaderLine, Terminated(lines));
    TerminatedSplit(lines);
  }

  // ---------------------------------------------------------------------------
  // Classification
  // ---------------------------------------------------------------------------

  /** The outcome the string variant promises for each decoding result. */
  function Classify(d: Decoded): (r: Outcome)
    ensures r.isValid <==> r.survey.Some?
    ensures r.isValid <==> r.errorMessage == ""
    ensures r.isValid <==> d.Object? && ValidateSurvey(d.data).Valid?
    ensures r.isValid ==> r.survey == Some(ValidateSurvey(d.data).value) && WellFormedSurvey(r.survey.value)
    ensures d.Malformed? ==> r == Outcome(false, None, "Invalid JSON: " + d.detail)
    ensures d.Fault? ==> r == Outcome(false, None, "Unexpected error: " + d.detail)
    ensures d.Object? && !r.isValid ==> r.errorMessage == ErrorMessage(Errors(ValidateSurvey(d.data)))
    ensures d.NotObject? ==> r.errorMessage == ErrorMessage([FieldError([], NotAnObject)])
  {
    match d
    case Object(data) =>
      var v := ValidateSurvey(data);
      if v.Valid? then Outcome(true, Some(v.value), "")
      else Outcome(false, None, ErrorMessage(Errors(v)))
    case NotObject => Outcome(false, None, ErrorMessage([FieldError([], NotAnObject)]))
    case Malformed(detail) => Outcome(false, None, "Invalid JSON: " + detail)
    case Fault(detail) => Outcome(false, None, "Unexpected error: " + detail)
  }

  /** `validate_json_string`: never raises; the outcome is `Classify` of the decoded text. */
  method ValidateJsonString(d: Decoded) returns (isValid: bool, survey: Option<SurveyInput>, errorMessage: string)
    ensures Outcome(isValid, survey, errorMessage) == Classify(d)
  {
    match d {
      case Object(data) =>
        var v := ValidateSurvey(data);
        if v.Valid? {
          return true, Some(v.value), "";
        }
        errorMessage := BuildErrorMessage(Errors(v));
        return false, None, errorMessage;
      case NotObject =>
        errorMessage := BuildErrorMessage([FieldError([], NotAnObject)]);
        return false, None, errorMessage;
      case Malformed(detail) =>
        return false, None, "Invalid JSON: " + detail;
      case Fault(detail) =>
        return false, None, "Unexpected error: " + detail;
    }
  }

  /**
   * `validate_survey_json`: a file that cannot be read is an unexpected
   * error; a readable file is classified exactly as its content would be by
   * the string variant.
   */
  method ValidateSurveyJson(f: FileRead) returns (isValid: bool, survey: Option<SurveyInput>, errorMessage: string)
    ensures f.Read? ==> Outcome(isValid, survey, errorMessage) == Classify(f.content)
    ensures f.Unreadable? ==> Outcome(isValid, survey, errorMessage) == Outcome(false, None, "Unexpected error: " + f.detail)
  {
    match f {
      case Unreadable(detail) =>
        return false, None, "Unexpected error: " + detail;
      case Read(content) =>
        isValid, survey, errorMessage := ValidateJsonString(content);
    }
  }

  // ---------------------------------------------------------------------------
  // The question-type tally
  // ---------------------------------------------------------------------------

  /** How many of `qs` have type `t`. */
  function CountOf(qs: seq<Question>, t: string): (n: nat)
    ensures n <= |qs|
    ensures n == 0 <==> forall i | 0 <= i < |qs| :: qs[i].questionType != t
  {
    if qs == [] then 0
    else CountOf(qs[..|qs| - 1], t) + (if qs[|qs| - 1].questionType == t then 1 else 0)
  }

  predicate Distinct(ts: seq<string>) {
    forall i, j | 0 <= i < j < |ts| :: ts[i] != ts[j]
  }

  /** The distinct question types of `qs`, in order of first appearance. */
  function TypeList(qs: seq<Question>): (ts: seq<string>)
    ensures Distinct(ts)
  {
    if qs == [] then []
    else
      var p := TypeList(qs[..|qs| - 1]);
      var t := qs[|qs| - 1].questionType;
      if t in p then p else p + [t]
  }

  /** `TypeList` holds exactly the types that occur. */
  lemma {:induction false} TypeListMembers(qs: seq<Question>, t: string)
    ensures t in TypeList(qs) <==> exists i | 0 <= i < |qs| :: qs[i].questionType == t
  {
    if qs != [] {
      var init := qs[..|qs| - 1];
      TypeListMembers(init, t);
      if exists i | 0 <= i < |init| :: init[i].questionType == t {
        var i :| 0 <= i < |init| && init[i].questionType == t;
        assert qs[i].questionType == t;
      }
      if exists i | 0 <= i < |qs| :: qs[i].questionType == t {
        var i :| 0 <= i < |qs| && qs[i].questionType == t;
        if i < |init| {
          assert init[i].questionType == t;
        }
      }
    }
  }

  /** The counts of a map, summed over the keys `ts`. */
  function SumOver(ts: seq<string>, m: map<string, nat>): nat
    requires forall i | 0 <= i < |ts| :: ts[i] in m
  {
    if ts == [] then 0 else m[ts[0]] + SumOver(ts[1..], m)
  }

  function SumCounts(ts: seq<string>, qs: seq<Question>): nat {
    if ts == [] then 0 else CountOf(qs, ts[0]) + SumCounts(ts[1..], qs)
  }

  lemma {:induction false} SumCountsSnoc(ts: seq<string>, qs: seq<Question>, q: Question)
    requires Distinct(ts)
    ensures SumCounts(ts, qs + [q]) == SumCounts(ts, qs) + (if q.questionType in ts then 1 else 0)
  {
    if ts != [] {
      assert (qs + [q])[..|qs|] == qs;
      SumCountsSnoc(ts[1..], qs, q);
      assert q.questionType in ts <==> q.questionType == ts[0] || q.questionType in ts[1..];
    }
  }

  /** Over a distinct list holding every type, the counts add up to the number of questions. */
  lemma {:induction false} SumCountsTotal(ts: seq<string>, qs: seq<Question>)
    requires Distinct(ts)
    requires forall i | 0 <= i < |qs| :: qs[i].questionType in ts
    ensures SumCounts(ts, qs) == |qs|
  {
    if qs == [] {
      SumCountsEmpty(ts);
    } else {
      var init, q := qs[..|qs| - 1], qs[|qs| - 1];
      assert qs == init + [q];
      SumCountsTotal(ts, init);
      SumCountsSnoc(ts, init, q);
    }
  }

  lemma {:induction false} SumCountsEmpty(ts: seq<string>)
    ensures SumCounts(ts, []) == 0
  {
    if ts != [] {
      SumCountsEmpty(ts[1..]);
    }
  }

  lemma {:induction false} SumOverCounts(ts: seq<string>, qs: seq<Question>, m: map<string, nat>)
    requires forall i | 0 <= i < |ts| :: ts[i] in m && m[ts[i]] == CountOf(qs, ts[i])
    ensures SumOver(ts, m) == SumCounts(ts, qs)
  {
    if ts != [] {
      SumOverCounts(ts[1..], qs, m);
    }
  }

  /**
   * `question_types[q.type] = question_types.get(q.type, 0) + 1` over the
   * top-level questions: one key per type that occurs, holding how many
   * questions have it, and the counts add up to the number of questions.
   */
  method CountQuestionTypes(qs: seq<Question>) returns (counts: map<string, nat>)
    ensures forall t :: t in counts <==> exists i | 0 <= i < |qs| :: qs[i].questionType == t
    ensures forall t | t in counts :: counts[t] == CountOf(qs, t)
    ensures forall t :: t in counts <==> t in TypeList(qs)
    ensures SumOver(TypeList(qs), counts) == |qs|
  {
    counts := map[];
    var k := 0;
    while k < |qs|
      invariant 0 <= k <= |qs|
      invariant TalliedUpTo(qs, k, counts)
    {
      var t := qs[k].questionType;
      var c := if t in counts then counts[t] else 0;
      TallyStep(qs, k, counts);
      counts := counts[t := c + 1];
      k := k + 1;
    }
    assert qs[..|qs|] == qs;
    var ts := TypeList(qs);
    forall t ensures t in counts <==> t in ts {
      TypeListMembers(qs, t);
    }
    SumOverCounts(ts, qs, counts);
    SumCountsTotal(ts, qs);
  }

  /** `counts` is the tally of the first `k` questions. */
  ghost predicate TalliedUpTo(qs: seq<Question>, k: nat, counts: map<string, nat>)
    requires k <= |qs|
  {
    (forall t :: t in counts <==> exists i | 0 <= i < k :: qs[i].questionType == t)
    && forall t | t in counts :: counts[t] == CountOf(qs[..k], t)
  }

  /** Counting one more question keeps the tally exact. */
  lemma TallyStep(qs: seq<Question>, k: nat, counts: map<string, nat>)
    requires k < |qs| && TalliedUpTo(qs, k, counts)
    ensures var t := qs[k].questionType;
      TalliedUpTo(qs, k + 1, counts[t := (if t in counts then counts[t] else 0) + 1])
  {
    var t := qs[k].questionType;
    var next := counts[t := (if t in counts then counts[t] else 0) + 1];
    var pre := qs[..k];
    var post := qs[..k + 1];
    assert post[..k] == pre;
    forall u ensures u in next <==> exists i | 0 <= i < k + 1 :: qs[i].questionType == u {
      if u != t {
        assert (exists i | 0 <= i < k + 1 :: qs[i].questionType == u)
           <==> (exists i | 0 <= i < k :: qs[i].questionType == u);
      }
    }
    forall u | u in next ensures next[u] == CountOf(post, u) {
      assert CountOf(post, u) == CountOf(pre, u) + (if t == u then 1 else 0);
      if u == t && t !in counts {
        assert CountOf(pre, u) == 0 by {
          forall i | 0 <= i < k ensures pre[i].questionType != u {
            assert pre[i] == qs[i];
          }
        }
      }
    }
  }
}
