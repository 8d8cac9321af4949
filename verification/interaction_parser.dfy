/**
 * The CMS interaction-script parser: script lines become the TEXT (wait for
 * this prompt) and INPUT (send this value) steps that the remote session
 * driver consumes in order.
 */
module InteractionParser {
  import opened Strings

  /** `[*n<K>*]` at the start of a line marks the step optional, K its step count. */
  const OptionalOpen: string := "[*n"
  const OptionalClose: string := "*]"
  /** `<N>` at the start of a line sets the step's timeout to N seconds. */
  const TimeoutOpen: string := "<"
  const TimeoutClose: string := ">"
  const CommentPrefix: string := "##"
  const InputPrefix: string := "input:"

  /** Timeout meaning "use the caller's default". */
  const NoTimeout: int := -1
  /** Timeout given to an optional step whose line carries no `<N>` marker. */
  const OptionalStepTimeout: int := 10

  datatype StepKind = Text | Input

  datatype Step = Step(kind: StepKind, value: string, optional: bool, sensitive: bool,
                       timeout: int, step: nat)

  datatype OptionalParse = OptionalParse(line: string, optional: bool, step: nat)

  datatype TimeoutParse = TimeoutParse(line: string, timeout: int)

  /** The marker `[*n<K>*]` as it is written in a script. */
  function OptionalMarker(k: nat): string {
    OptionalOpen + NatToString(k) + OptionalClose
  }

  function TimeoutMarker(n: nat): string {
    TimeoutOpen + NatToString(n) + TimeoutClose
  }

  /**
   * parse_optional_statement: strips a leading `[*n<K>*]` marker. K is a
   * possibly empty run of digits and defaults to 1. A line without a
   * well-formed marker comes back unchanged, not optional, with step 1.
   */
  function ParseOptionalStatement(line: string): (r: OptionalParse)
    ensures !StartsWith(line, OptionalOpen) ==> r == OptionalParse(line, false, 1)
    ensures !r.optional ==> r == OptionalParse(line, false, 1)
    ensures r.optional ==>
              |r.line| + |OptionalOpen| + |OptionalClose| <= |line|
              && EndsWith(line, r.line) && StartsWith(line, OptionalOpen)
  {
    if !StartsWith(line, OptionalOpen) then OptionalParse(line, false, 1)
    else
      var body := line[|OptionalOpen|..];
      var k := LeadingDigits(body);
      if StartsWith(body[k..], OptionalClose) then
        var rest := body[k + |OptionalClose|..];
        assert line[|line| - |rest|..] == rest;
        OptionalParse(rest, true, if k == 0 then 1 else ParseNat(body[..k]))
      else OptionalParse(line, false, 1)
  }

  /**
   * parse_timeout_option_statement: strips a leading `<N>` marker (N at least
   * one digit). Without one the line is unchanged and the timeout is -1.
   */
  function ParseTimeoutOptionStatement(line: string): (r: TimeoutParse)
    ensures !StartsWith(line, TimeoutOpen) ==> r == TimeoutParse(line, NoTimeout)
    ensures r.timeout == NoTimeout || 0 <= r.timeout
    ensures r.timeout == NoTimeout ==> r.line == line
    ensures 0 <= r.timeout ==>
              |r.line| + |TimeoutOpen| + |TimeoutClose| < |line|
              && EndsWith(line, r.line) && StartsWith(line, TimeoutOpen)
  {
    if !StartsWith(line, TimeoutOpen) then TimeoutParse(line, NoTimeout)
    else
      var body := line[|TimeoutOpen|..];
      var k := LeadingDigits(body);
      if 0 < k && StartsWith(body[k..], TimeoutClose) then
        var rest := body[k + |TimeoutClose|..];
        assert line[|line| - |rest|..] == rest;
        TimeoutParse(rest, ParseNat(body[..k]))
      else TimeoutParse(line, NoTimeout)
  }

  /** The step one script line yields, if any. */
  function StepOf(line: string, inputs: seq<string>): Option<Step> {
    if StartsWith(line, CommentPrefix) then None
    else if StartsWith(line, InputPrefix) then
      var value := line[|InputPrefix|..];
      Some(Step(Input, value, false, value in inputs, NoTimeout, 1))
    else
      var o := ParseOptionalStatement(line);
      var t := ParseTimeoutOptionStatement(o.line);
      var timeout := if t.timeout == NoTimeout && o.optional then OptionalStepTimeout else t.timeout;
      if t.line == "" && !o.optional then None
      else Some(Step(Text, t.line, o.optional, false, timeout, o.step))
  }

  /** The steps one line contributes: none for a comment or a blank line. */
  function LineSteps(line: string, inputs: seq<string>): seq<Step> {
    match StepOf(line, inputs)
    case None => []
    case Some(s) => [s]
  }

  /** A step as the parser can produce it. */
  predicate WellFormed(s: Step, inputs: seq<string>) {
    && (s.kind == Input ==> (s.sensitive <==> s.value in inputs) && !s.optional)
    && (s.kind == Text ==> !s.sensitive && (s.value != "" || s.optional))
    && (s.timeout == NoTimeout || 0 <= s.timeout)
    && (s.optional ==> s.timeout != NoTimeout)
  }

  /**
   * parse_cms_interactions: the steps of a script, in line order. Comment
   * lines (`##`) and lines left empty after marker stripping yield nothing.
   */
  function ParseCmsInteractions(lines: seq<string>, inputs: seq<string>): (r: seq<Step>)
    ensures |r| <= |lines|
    ensures forall i :: 0 <= i < |r| ==> WellFormed(r[i], inputs)
  {
    if |lines| == 0 then []
    else
      var rest := ParseCmsInteractions(lines[1..], inputs);
      match StepOf(lines[0], inputs)
      case None => rest
      case Some(s) => [s] + rest
  }

  lemma {:induction false} ParseCmsInteractionsAppend(a: seq<string>, b: seq<string>, inputs: seq<string>)
    ensures ParseCmsInteractions(a + b, inputs)
            == ParseCmsInteractions(a, inputs) + ParseCmsInteractions(b, inputs)
    decreases |a|
  {
    if |a| == 0 {
      assert a + b == b;
    } else {
      assert (a + b)[1..] == a[1..] + b;
      ParseCmsInteractionsAppend(a[1..], b, inputs);
    }
  }

  /** One line on its own: the steps of a script are the steps of its lines. */
  lemma ParseSingleLine(line: string, inputs: seq<string>)
    ensures ParseCmsInteractions([line], inputs) == LineSteps(line, inputs)
  {
    assert [line][1..] == [];
  }

  /** Every comment line is skipped, wherever it sits in the script. */
  lemma {:induction false} CommentLinesYieldNothing(before: seq<string>, comment: string,
                                                    after: seq<string>, inputs: seq<string>)
    requires StartsWith(comment, CommentPrefix)
    ensures ParseCmsInteractions(before + [comment] + after, inputs)
            == ParseCmsInteractions(before + after, inputs)
  {
    ParseCmsInteractionsAppend(before + [comment], after, inputs);
    ParseCmsInteractionsAppend(before, [comment], inputs);
    ParseSingleLine(comment, inputs);
    ParseCmsInteractionsAppend(before, after, inputs);
  }

  /** A marker-free prompt line is a plain TEXT step with the default timeout. */
  lemma PlainLineIsTextStep(line: string, inputs: seq<string>)
    requires line != ""
    requires !StartsWith(line, CommentPrefix) && !StartsWith(line, InputPrefix)
    requires !StartsWith(line, OptionalOpen) && !StartsWith(line, TimeoutOpen)
    ensures StepOf(line, inputs) == Some(Step(Text, line, false, false, NoTimeout, 1))
  {
  }

  /** `input:X` sends X; it is sensitive exactly when X is one of the given values. */
  lemma InputLineIsInputStep(value: string, inputs: seq<string>)
    ensures StepOf(InputPrefix + value, inputs)
            == Some(Step(Input, value, false, value in inputs, NoTimeout, 1))
  {
    var line := InputPrefix + value;
    MismatchNotPrefix(line, CommentPrefix, 0);
    assert line[..|InputPrefix|] == InputPrefix;
    assert line[|InputPrefix|..] == value;
  }

  lemma {:induction false} OptionalMarkerRoundTrip(k: nat, rest: string)
    ensures ParseOptionalStatement(OptionalMarker(k) + rest) == OptionalParse(rest, true, k)
  {
    var d := NatToString(k);
    var tail := OptionalClose + rest;
    var line := OptionalMarker(k) + rest;
    assert line == OptionalOpen + (d + tail);
    assert StartsWith(line, OptionalOpen) by { assert line[..|OptionalOpen|] == OptionalOpen; }
    var body := line[|OptionalOpen|..];
    assert body == d + tail;
    LeadingDigitsOfNumber(d, tail);
    assert body[..|d|] == d;
    assert body[|d|..] == tail;
    assert StartsWith(tail, OptionalClose) by { assert tail[..|OptionalClose|] == OptionalClose; }
    assert body[|d| + |OptionalClose|..] == rest;
    ParseNatToString(k);
    if |d| == 0 {
      assert false;
    }
  }

  lemma {:induction false} DefaultOptionalMarker(rest: string)
    ensures ParseOptionalStatement(OptionalOpen + OptionalClose + rest) == OptionalParse(rest, true, 1)
  {
    var line := OptionalOpen + OptionalClose + rest;
    var body := line[|OptionalOpen|..];
    assert body == OptionalClose + rest;
    LeadingDigitsOfNumber([], OptionalClose + rest);
    assert body[0..] == body;
    assert body[|OptionalClose|..] == rest;
  }

  lemma {:induction false} TimeoutMarkerRoundTrip(n: nat, rest: string)
    ensures ParseTimeoutOptionStatement(TimeoutMarker(n) + rest) == TimeoutParse(rest, n)
  {
    var d := NatToString(n);
    var tail := TimeoutClose + rest;
    var line := TimeoutMarker(n) + rest;
    assert line == TimeoutOpen + (d + tail);
    assert StartsWith(line, TimeoutOpen) by { assert line[..|TimeoutOpen|] == TimeoutOpen; }
    var body := line[|TimeoutOpen|..];
    assert body == d + tail;
    LeadingDigitsOfNumber(d, tail);
    assert body[..|d|] == d;
    assert body[|d|..] == tail;
    assert StartsWith(tail, TimeoutClose) by { assert tail[..|TimeoutClose|] == TimeoutClose; }
    assert body[|d| + |TimeoutClose|..] == rest;
    ParseNatToString(n);
  }

  /** The concrete optional-marker cases the test suite asserts. */
  lemma OptionalStatementExamples()
    ensures ParseOptionalStatement("abc") == OptionalParse("abc", false, 1)
    ensures ParseOptionalStatement("[*n*]") == OptionalParse("", true, 1)
    ensures ParseOptionalStatement("[*n9*]") == OptionalParse("", true, 9)
  {
    MismatchNotPrefix("abc", OptionalOpen, 0);
    DefaultOptionalMarker("");
    assert OptionalOpen + OptionalClose + "" == "[*n*]";
    OptionalMarkerRoundTrip(9, "");
    assert OptionalMarker(9) + "" == "[*n9*]";
  }

  /** The concrete timeout-marker cases the test suite asserts: no marker, and a bare marker. */
  lemma TimeoutStatementExamples()
    ensures ParseTimeoutOptionStatement("abc") == TimeoutParse("abc", -1)
    ensures ParseTimeoutOptionStatement("<10>") == TimeoutParse("", 10)
  {
    MismatchNotPrefix("abc", TimeoutOpen, 0);
    TimeoutMarkerRoundTrip(10, "");
    assert NatToString(10) == "10";
    assert TimeoutMarker(10) + "" == "<10>";
  }

  /** The concrete timeout-marker case the test suite asserts with text after the marker. */
  lemma TimeoutStatementWithText()
    ensures ParseTimeoutOptionStatement("<20>abc") == TimeoutParse("abc", 20)
  {
    TimeoutMarkerRoundTrip(20, "abc");
    assert NatToString(20) == "20";
    assert TimeoutMarker(20) + "abc" == "<20>abc";
  }

  /** The step each distinct line of the sample script yields. */
  lemma SampleScriptSteps()
    ensures StepOf("## comment 1", ["10"]) == None
    ensures StepOf("## comment 2", ["10"]) == None
    ensures StepOf("Enter choice", ["10"]) == Some(Step(Text, "Enter choice", false, false, NoTimeout, 1))
    ensures StepOf("input:10", ["10"]) == Some(Step(Input, "10", false, true, NoTimeout, 1))
    ensures StepOf("input:20", ["10"]) == Some(Step(Input, "20", false, false, NoTimeout, 1))
    ensures StepOf("[*n*]test", ["10"]) == Some(Step(Text, "test", true, false, OptionalStepTimeout, 1))
  {
    var inputs := ["10"];
    assert "## comment 1"[..2] == CommentPrefix;
    assert "## comment 2"[..2] == CommentPrefix;
    MismatchNotPrefix("Enter choice", CommentPrefix, 0);
    MismatchNotPrefix("Enter choice", InputPrefix, 0);
    MismatchNotPrefix("Enter choice", OptionalOpen, 0);
    MismatchNotPrefix("Enter choice", TimeoutOpen, 0);
    PlainLineIsTextStep("Enter choice", inputs);
    InputLineIsInputStep("10", inputs);
    assert InputPrefix + "10" == "input:10";
    InputLineIsInputStep("20", inputs);
    assert InputPrefix + "20" == "input:20";
    assert "20" != inputs[0];
    var line := "[*n*]test";
    MismatchNotPrefix(line, CommentPrefix, 0);
    MismatchNotPrefix(line, InputPrefix, 0);
    DefaultOptionalMarker("test");
    assert OptionalOpen + OptionalClose + "test" == line;
    MismatchNotPrefix("test", TimeoutOpen, 0);
  }

  /** A two-line script yields the first line's steps, then the second's. */
  lemma TwoSingles(a: string, b: string, inputs: seq<string>)
    ensures ParseCmsInteractions([a, b], inputs) == LineSteps(a, inputs) + LineSteps(b, inputs)
  {
    ParseCmsInteractionsAppend([a], [b], inputs);
    assert [a] + [b] == [a, b];
    ParseSingleLine(a, inputs);
    ParseSingleLine(b, inputs);
  }

  /** A four-line script yields its lines' steps, in order. */
  lemma FourLines(lines: seq<string>, inputs: seq<string>)
    requires |lines| == 4
    ensures ParseCmsInteractions(lines, inputs)
            == LineSteps(lines[0], inputs) + LineSteps(lines[1], inputs)
               + (LineSteps(lines[2], inputs) + LineSteps(lines[3], inputs))
  {
    var p, q := lines[..2], lines[2..];
    assert lines == p + q;
    ParseCmsInteractionsAppend(p, q, inputs);
    TwoSingles(lines[0], lines[1], inputs);
    assert p == [lines[0], lines[1]];
    TwoSingles(lines[2], lines[3], inputs);
    assert q == [lines[2], lines[3]];
  }

  /** A three-line script yields its lines' steps, in order. */
  lemma ThreeLines(lines: seq<string>, inputs: seq<string>)
    requires |lines| == 3
    ensures ParseCmsInteractions(lines, inputs)
            == LineSteps(lines[0], inputs) + LineSteps(lines[1], inputs) + LineSteps(lines[2], inputs)
  {
    var p, q := lines[..2], lines[2..];
    assert lines == p + q;
    ParseCmsInteractionsAppend(p, q, inputs);
    TwoSingles(lines[0], lines[1], inputs);
    assert p == [lines[0], lines[1]];
    ParseSingleLine(lines[2], inputs);
    assert q == [lines[2]];
  }

  /** The first four lines of the sample script: two comments, a prompt and a sensitive input. */
  lemma SampleScriptHead(lines: seq<string>, inputs: seq<string>)
    requires lines == ["## comment 1", "Enter choice", "## comment 2", "input:10"]
    requires inputs == ["10"]
    ensures ParseCmsInteractions(lines, inputs)
            == [Step(Text, "Enter choice", false, false, NoTimeout, 1), Step(Input, "10", false, true, NoTimeout, 1)]
  {
    SampleScriptSteps();
    FourLines(lines, inputs);
  }

  /** The last three lines of the sample script: a prompt, an input and an optional prompt. */
  lemma SampleScriptTail(lines: seq<string>, inputs: seq<string>)
    requires lines == ["Enter choice", "input:20", "[*n*]test"]
    requires inputs == ["10"]
    ensures ParseCmsInteractions(lines, inputs)
            == [Step(Text, "Enter choice", false, false, NoTimeout, 1),
                Step(Input, "20", false, false, NoTimeout, 1),
                Step(Text, "test", true, false, OptionalStepTimeout, 1)]
  {
    SampleScriptSteps();
    ThreeLines(lines, inputs);
  }

  /** The seven-line sample script of the test suite yields exactly five steps. */
  lemma SampleScript(lines: seq<string>, inputs: seq<string>)
    requires lines == ["## comment 1", "Enter choice", "## comment 2", "input:10",
                       "Enter choice", "input:20", "[*n*]test"]
    requires inputs == ["10"]
    ensures ParseCmsInteractions(lines, inputs)
            == [Step(Text, "Enter choice", false, false, NoTimeout, 1),
                Step(Input, "10", false, true, NoTimeout, 1),
                Step(Text, "Enter choice", false, false, NoTimeout, 1),
                Step(Input, "20", false, false, NoTimeout, 1),
                Step(Text, "test", true, false, OptionalStepTimeout, 1)]
  {
    SampleScriptHead(lines[..4], inputs);
    SampleScriptTail(lines[4..], inputs);
    assert lines == lines[..4] + lines[4..];
    ParseCmsInteractionsAppend(lines[..4], lines[4..], inputs);
  }
}
