/**
 * services/geminiService.ts without its network call: the parsing of the
 * generated text into insight lines, the industry label put into the prompt,
 * the weekly-hours total put into the prompt, and the error path. The reply
 * of the text-generation service is a parameter.
 */
module GeminiService {
  import opened Wrappers
  import opened Js
  import opened Types
  import opened Constants

  /** The message every failure of generateInsights is rethrown with. */
  const FAILURE_MESSAGE: string := "Failed to communicate with the AI service."

  const DEFAULT_INDUSTRY: string := "General Business"

  /** The characters of the `[-*]` class. */
  predicate IsBullet(c: char)
  {
    c == '-' || c == '*'
  }

  /** `t.replace(/^\s*[-*]\s*\/, "")`: a leading bullet and the whitespace around it go, anything else stays. */
  function StripBullet(t: string): string
  {
    var u := TrimStart(t);
    if |u| > 0 && IsBullet(u[0]) then TrimStart(u[1..]) else t
  }

  /** What the map step does to one line: trim it, then strip one bullet. */
  function CleanLine(line: string): string
  {
    StripBullet(Trim(line))
  }

  /** Stripping the bullet of a string without whitespace at its ends: with
      no bullet the string stays; with one, the result is what follows the
      bullet and the whitespace after it. No whitespace is left at either end. */
  lemma StripBulletShape(t: string)
    requires t == [] || (!IsSpace(t[0]) && !IsSpace(t[|t| - 1]))
    ensures var r := StripBullet(t);
      && (t == [] || !IsBullet(t[0]) ==> r == t)
      && (t != [] && IsBullet(t[0]) ==>
            && |r| < |t| && r == t[|t| - |r|..]
            && forall j :: 1 <= j < |t| - |r| ==> IsSpace(t[j]))
      && (r == [] || (!IsSpace(r[0]) && !IsSpace(r[|r| - 1])))
  {
    TrimStartNoop(t);
    var r := StripBullet(t);
    if t != [] && IsBullet(t[0]) {
      var u := t[1..];
      var k := SkipSpace(u, 0);
      assert r == u[k..];
      assert u[k..] == t[1 + k..];
      assert |r| == |t| - 1 - k;
      forall j | 1 <= j < |t| - |r|
        ensures IsSpace(t[j])
      {
        assert t[j] == u[j - 1];
      }
      if r != [] {
        assert r[|r| - 1] == t[|t| - 1];
      }
    }
  }

  /** A cleaned line is the trimmed line, or the trimmed line without its first
      character (a bullet) and the whitespace after it; in both cases it neither
      starts nor ends with whitespace. So at most one bullet goes. */
  lemma CleanLineShape(line: string)
    ensures var t, r := Trim(line), CleanLine(line);
      && (t == [] || !IsBullet(t[0]) ==> r == t)
      && (t != [] && IsBullet(t[0]) ==>
            && |r| < |t| && r == t[|t| - |r|..]
            && forall j :: 1 <= j < |t| - |r| ==> IsSpace(t[j]))
      && (r == [] || (!IsSpace(r[0]) && !IsSpace(r[|r| - 1])))
  {
    StripBulletShape(Trim(line));
  }

  /** A line that is only whitespace and a single bullet is dropped entirely. */
  lemma BulletOnlyLineIsEmpty(lead: string, b: char, trail: string)
    requires AllSpace(lead) && AllSpace(trail) && IsBullet(b)
    ensures CleanLine(lead + [b] + trail) == ""
  {
    TrimAround(lead, [b], trail);
    assert [b][1..] == [];
  }

  /** A line that, once trimmed, does not start with a bullet is returned just trimmed. */
  lemma UnbulletedLineIsTrimmed(line: string)
    requires Trim(line) == [] || !IsBullet(Trim(line)[0])
    ensures CleanLine(line) == Trim(line)
  {
    CleanLineShape(line);
  }

  /** Stripping a trimmed line that starts with a marker leaves the text after the
      marker and the whitespace that follows it. */
  lemma StripMarker(b: char, gap: string, core: string)
    requires AllSpace(gap) && IsBullet(b)
    requires core != [] && !IsSpace(core[0])
    ensures StripBullet([b] + gap + core) == core
  {
    var t := [b] + gap + core;
    var rest := gap + core;
    assert t[0] == b && t[1..] == rest;
    TrimStartNoop(t);
    assert TrimStart(t) == t;
    TrimStartSkipsSpace(gap, core);
    TrimStartNoop(core);
    assert TrimStart(rest) == core;
  }

  /** A marker, with whitespace around it and whitespace after the text, goes
      together with that whitespace; the text itself is returned whole, even
      when it starts with a second marker. */
  lemma CleanLineRemovesMarker(lead: string, b: char, gap: string, core: string, trail: string)
    requires AllSpace(lead) && AllSpace(gap) && AllSpace(trail) && IsBullet(b)
    requires core != [] && !IsSpace(core[0]) && !IsSpace(core[|core| - 1])
    ensures CleanLine(lead + [b] + gap + core + trail) == core
  {
    var t := [b] + gap + core;
    assert lead + [b] + gap + core + trail == lead + t + trail;
    assert t[0] == b && t[|t| - 1] == core[|core| - 1];
    TrimAround(lead, t, trail);
    StripMarker(b, gap, core);
  }

  /** Only one bullet goes: "--x" keeps its second dash. */
  lemma OneBulletOnly()
    ensures CleanLine("--x") == "-x"
  {
    var t := "--x";
    TrimAround("", t, "");
    assert "" + t + "" == t;
    TrimStartNoop(t);
    assert t[1..] == "-x";
    TrimStartNoop("-x");
  }

  /** `.map(line => line.trim().replace(...))` */
  function CleanAll(lines: seq<string>): (r: seq<string>)
    ensures |r| == |lines|
    ensures forall i :: 0 <= i < |lines| ==> r[i] == CleanLine(lines[i])
  {
    seq(|lines|, i requires 0 <= i < |lines| => CleanLine(lines[i]))
  }

  /** `r` can be obtained from `s` by deleting elements, without reordering. */
  ghost predicate IsSubsequence<T>(r: seq<T>, s: seq<T>)
    decreases |s|
  {
    r == [] || (s != [] && ((r[0] == s[0] && IsSubsequence(r[1..], s[1..])) || IsSubsequence(r, s[1..])))
  }

  /** A subsequence is never longer than the sequence it comes from. */
  lemma {:induction false} SubsequenceLength<T>(r: seq<T>, s: seq<T>)
    requires IsSubsequence(r, s)
    ensures |r| <= |s|
    decreases |s|
  {
    if r != [] {
      if r[0] == s[0] && IsSubsequence(r[1..], s[1..]) {
        SubsequenceLength(r[1..], s[1..]);
      } else {
        SubsequenceLength(r, s[1..]);
      }
    }
  }

  /** `.filter(line => line.length > 0)`: exactly the non-empty lines, in their order. */
  function NonEmpty(lines: seq<string>): (r: seq<string>)
    ensures forall i :: 0 <= i < |r| ==> r[i] != [] && r[i] in lines
    ensures IsSubsequence(r, lines)
    ensures forall x :: x != [] ==> multiset(r)[x] == multiset(lines)[x]
  {
    if lines == [] then []
    else
      var rest := NonEmpty(lines[1..]);
      assert lines == [lines[0]] + lines[1..];
      if lines[0] != [] then [lines[0]] + rest else rest
  }

  /** parseInsights: split on "\n", clean every line, keep the non-empty ones. */
  function ParseInsights(text: string): (r: seq<string>)
  {
    NonEmpty(CleanAll(Split(text, '\n')))
  }

  /** The cleaning step works line by line. */
  lemma CleanAllAppend(a: seq<string>, b: seq<string>)
    ensures CleanAll(a + b) == CleanAll(a) + CleanAll(b)
  {
  }

  /** The filtering step works line by line. */
  lemma {:induction false} NonEmptyAppend(a: seq<string>, b: seq<string>)
    ensures NonEmpty(a + b) == NonEmpty(a) + NonEmpty(b)
    decreases |a|
  {
    if a == [] {
      assert a + b == b;
    } else {
      assert (a + b)[0] == a[0] && (a + b)[1..] == a[1..] + b;
      NonEmptyAppend(a[1..], b);
    }
  }

  /** The insights of two blocks of text separated by a line break are those of the
      first block followed by those of the second: line order is kept. */
  lemma ParseInsightsAppend(a: string, b: string)
    ensures ParseInsights(a + "\n" + b) == ParseInsights(a) + ParseInsights(b)
  {
    SplitAppend(a, '\n', b);
    CleanAllAppend(Split(a, '\n'), Split(b, '\n'));
    NonEmptyAppend(CleanAll(Split(a, '\n')), CleanAll(Split(b, '\n')));
  }

  /** What an insight line looks like: not empty, no line break, no whitespace at either end. */
  predicate IsInsight(x: string)
  {
    x != [] && '\n' !in x && !IsSpace(x[0]) && !IsSpace(x[|x| - 1])
  }

  /** Cleaning a line without a line break gives an insight line or nothing. */
  lemma CleanLineIsInsight(line: string)
    requires '\n' !in line
    ensures CleanLine(line) == [] || IsInsight(CleanLine(line))
  {
    CleanLineShape(line);
    CleanLineInLine(line);
  }

  /** At most one insight per line of the text, and the insights are the cleaned
      non-empty lines in their original order, each one kept. */
  lemma ParseInsightsKeepsOrder(text: string)
    ensures var r, cleaned := ParseInsights(text), CleanAll(Split(text, '\n'));
      && |r| <= Count(text, '\n') + 1
      && IsSubsequence(r, cleaned)
      && (forall x :: x != [] ==> multiset(r)[x] == multiset(cleaned)[x])
  {
    var cleaned := CleanAll(Split(text, '\n'));
    SplitJoin(text, '\n');
    SubsequenceLength(ParseInsights(text), cleaned);
  }

  /** Every insight is non-empty, free of line breaks and of surrounding whitespace. */
  lemma ParseInsightsAreInsights(text: string)
    ensures forall i :: 0 <= i < |ParseInsights(text)| ==> IsInsight(ParseInsights(text)[i])
  {
    var lines := Split(text, '\n');
    SplitPiecesFree(text, '\n');
    var cleaned := CleanAll(lines);
    var r := NonEmpty(cleaned);
    forall i | 0 <= i < |r|
      ensures IsInsight(r[i])
    {
      var j :| 0 <= j < |cleaned| && cleaned[j] == r[i];
      CleanLineIsInsight(lines[j]);
    }
  }

  /** Every character of a cleaned line comes from the line. */
  lemma CleanLineInLine(line: string)
    ensures forall c :: c in CleanLine(line) ==> c in line
  {
    TrimShape(line);
    CleanLineShape(line);
    var t, r := Trim(line), CleanLine(line);
    assert forall c :: c in r ==> c in t;
  }

  /** Index of the first option with the given multiplier (`find` with `opt.value === v`). */
  function FirstWithValue(options: seq<IndustryOption>, v: real): (r: Option<nat>)
    ensures r.Some? ==> r.value < |options| && options[r.value].value == v
    ensures r.Some? ==> forall j :: 0 <= j < r.value ==> options[j].value != v
    ensures r.None? ==> forall j :: 0 <= j < |options| ==> options[j].value != v
  {
    if options == [] then None
    else if options[0].value == v then Some(0)
    else match FirstWithValue(options[1..], v)
      case None => None
      case Some(k) => Some(k + 1)
  }

  /** `INDUSTRY_OPTIONS.find(opt => opt.value === industry)?.label || "General Business"` */
  function IndustryLabel(industry: real): string
  {
    match FirstWithValue(INDUSTRY_OPTIONS, industry)
    case Some(i) => if INDUSTRY_OPTIONS[i].name != "" then INDUSTRY_OPTIONS[i].name else DEFAULT_INDUSTRY
    case None => DEFAULT_INDUSTRY
  }

  /** The label is that of the first option with the multiplier. */
  lemma IndustryLabelIsFirstMatch(industry: real, i: nat)
    requires i < |INDUSTRY_OPTIONS| && INDUSTRY_OPTIONS[i].value == industry
    requires forall j :: 0 <= j < i ==> INDUSTRY_OPTIONS[j].value != industry
    ensures IndustryLabel(industry) == INDUSTRY_OPTIONS[i].name
  {
    IndustryTableShape();
    var f := FirstWithValue(INDUSTRY_OPTIONS, industry);
    assert f.Some?;
    assert f.value == i;
  }

  /** A multiplier that no option has gets the default label. */
  lemma IndustryLabelDefault(industry: real)
    requires forall j :: 0 <= j < |INDUSTRY_OPTIONS| ==> INDUSTRY_OPTIONS[j].value != industry
    ensures IndustryLabel(industry) == DEFAULT_INDUSTRY
  {
  }

  /** Shared multipliers resolve to the earlier industry: 1.3 is always
      Professional Services, never Technology. */
  lemma IndustryLabelExamples()
    ensures IndustryLabel(1.3) == "Professional Services"
    ensures IndustryLabel(1.2) == "E-commerce"
    ensures IndustryLabel(1.4) == "Real Estate"
  {
    var o := INDUSTRY_OPTIONS;
    assert o[0].value == 1.0;
    IndustryLabelIsFirstMatch(1.3, 1);
    assert o[1].value == 1.3;
    IndustryLabelIsFirstMatch(1.2, 2);
    assert o[2].value == 1.2;
    IndustryLabelIsFirstMatch(1.4, 3);
  }

  /** generateInsights with the service's reply as a parameter. `apiKey` is
      `process.env.API_KEY` (None when unset); `reply` is the text of the
      response (None when the call throws or the text is missing). */
  function GenerateInsights(apiKey: Option<string>, reply: Option<string>): (r: Result<seq<string>, string>)
    ensures r.Failure? ==> r.error == FAILURE_MESSAGE
    ensures (apiKey.None? || apiKey == Some("")) ==> r.Failure?
    ensures r.Success? <==> apiKey.Some? && apiKey.value != "" && reply.Some?
    ensures r.Success? ==> r.value == ParseInsights(reply.value)
  {
    if apiKey.None? || apiKey.value == "" then Failure(FAILURE_MESSAGE)
    else match reply
      case None => Failure(FAILURE_MESSAGE)
      case Some(text) => Success(ParseInsights(text))
  }
}
