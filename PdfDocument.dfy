/** The line formatter of the PDF export: the brief is split on line feeds and every
    line becomes either a heading or a paragraph, keyed by its line index. */
module PdfDocument {
  import opened Strings

  /** The style a line is rendered with. */
  datatype Style = Heading | Paragraph

  /** One rendered `Text` element: its React key, its style and its text. */
  datatype Element = Element(key: nat, style: Style, text: string)

  /** A line is a heading when the whole line matches `^[A-Z][a-z]+:$`:
      one upper-case letter, at least one lower-case letter, a colon, nothing else. */
  predicate IsHeadingLine(line: string)
  {
    && |line| >= 3
    && IsUpper(line[0])
    && line[|line| - 1] == ':'
    && forall i :: 1 <= i < |line| - 1 ==> IsLower(line[i])
  }

  /** States of an automaton that runs the regular expression `^[A-Z][a-z]+:$`
      over a line, one character at a time. */
  datatype MatchState = Start | AfterUpper | InLowers | AfterColon | Rejected

  function Step(st: MatchState, c: char): MatchState
  {
    match st
    case Start => if IsUpper(c) then AfterUpper else Rejected
    case AfterUpper => if IsLower(c) then InLowers else Rejected
    case InLowers => if IsLower(c) then InLowers else if c == ':' then AfterColon else Rejected
    case AfterColon => Rejected
    case Rejected => Rejected
  }

  function Run(st: MatchState, s: string): MatchState
    decreases |s|
  {
    if s == [] then st else Run(Step(st, s[0]), s[1..])
  }

  /** The regular expression matches the whole line. */
  predicate RegexMatches(line: string)
  {
    Run(Start, line) == AfterColon
  }

  lemma {:induction false} RunRejected(s: string)
    ensures Run(Rejected, s) == Rejected
    decreases |s|
  {
    if s != [] { RunRejected(s[1..]); }
  }

  lemma {:induction false} RunAfterColon(s: string)
    ensures Run(AfterColon, s) == AfterColon <==> s == []
  {
    if s != [] { RunRejected(s[1..]); }
  }

  /** From inside the lower-case run, the automaton accepts exactly
      "more lower-case letters, then a final colon". */
  lemma {:induction false} RunInLowers(s: string)
    ensures Run(InLowers, s) == AfterColon <==>
      (|s| >= 1 && s[|s| - 1] == ':' && forall i :: 0 <= i < |s| - 1 ==> IsLower(s[i]))
    decreases |s|
  {
    if s != [] {
      var c := s[0];
      if IsLower(c) {
        RunInLowers(s[1..]);
        assert forall i :: 1 <= i < |s| ==> s[1..][i - 1] == s[i];
      } else if c == ':' {
        RunAfterColon(s[1..]);
      } else {
        RunRejected(s[1..]);
      }
    }
  }

  /** The declarative reading of the pattern agrees with running it. */
  lemma HeadingIsRegexMatch(line: string)
    ensures IsHeadingLine(line) <==> RegexMatches(line)
  {
    if line == [] {
    } else if !IsUpper(line[0]) {
      RunRejected(line[1..]);
    } else {
      var t := line[1..];
      assert Run(Start, line) == Run(AfterUpper, t);
      if t == [] {
        assert Run(AfterUpper, t) == AfterUpper;
      } else if !IsLower(t[0]) {
        assert Run(AfterUpper, t) == Run(Rejected, t[1..]);
        RunRejected(t[1..]);
        assert !IsHeadingLine(line) by {
          if |line| >= 3 { assert !IsLower(line[1]); }
          else if |line| == 2 { assert line[1] == t[0]; }
        }
      } else {
        assert Run(AfterUpper, t) == Run(InLowers, t[1..]);
        RunInLowers(t[1..]);
        assert forall i :: 2 <= i < |line| ==> t[1..][i - 2] == line[i];
        assert IsLower(line[1]);
      }
    }
  }

  /** `formatBrief`: one element per line of `text`, in order, keyed by line index. */
  function FormatBrief(text: string): (r: seq<Element>)
    ensures forall i, j :: 0 <= i < j < |r| ==> r[i].key != r[j].key
  {
    var lines := Split(text, '\n');
    seq(|lines|, i requires 0 <= i < |lines| =>
      Element(i, if IsHeadingLine(lines[i]) then Heading else Paragraph, lines[i]))
  }

  /** The texts of the elements, in order. */
  function Texts(es: seq<Element>): (r: seq<string>)
    ensures |r| == |es|
    ensures forall i :: 0 <= i < |es| ==> r[i] == es[i].text
  {
    if es == [] then [] else [es[0].text] + Texts(es[1..])
  }

  /** There are as many elements as line feeds plus one; an empty brief gives one
      empty paragraph. */
  lemma FormatBriefLength(text: string)
    ensures |FormatBrief(text)| == CountChar(text, '\n') + 1
    ensures text == "" ==> FormatBrief(text) == [Element(0, Paragraph, "")]
  {
    SplitLength(text, '\n');
  }

  /** Every element is a heading exactly when its line matches the pattern, and
      carries that line unchanged; nothing is dropped or merged. */
  lemma FormatBriefClassifies(text: string, i: nat)
    requires i < |FormatBrief(text)|
    ensures FormatBrief(text)[i].key == i
    ensures FormatBrief(text)[i].text == Split(text, '\n')[i]
    ensures FormatBrief(text)[i].style == Heading <==> RegexMatches(Split(text, '\n')[i])
    ensures FormatBrief(text)[i].style == Paragraph <==> !RegexMatches(Split(text, '\n')[i])
  {
    HeadingIsRegexMatch(Split(text, '\n')[i]);
  }

  /** Joining the element texts with line feeds gives back the brief. */
  lemma FormatBriefRoundTrip(text: string)
    ensures Join(Texts(FormatBrief(text)), '\n') == text
  {
    assert Texts(FormatBrief(text)) == Split(text, '\n');
    JoinSplit(text, '\n');
  }

  /** Lines are not trimmed: one that starts or ends with whitespace (a trailing
      carriage return included) is never a heading. */
  lemma NoTrimming(text: string, i: nat)
    requires i < |FormatBrief(text)|
    requires FormatBrief(text)[i].text != []
    requires IsJsWhitespace(FormatBrief(text)[i].text[0])
          || IsJsWhitespace(FormatBrief(text)[i].text[|FormatBrief(text)[i].text| - 1])
    ensures FormatBrief(text)[i].style == Paragraph
  {
  }

  function WithCarriageReturn(line: string): string { line + "\r" }

  /** The text of `lines` written with CRLF line endings. */
  function CrlfText(lines: seq<string>): string
    requires |lines| >= 1
  {
    Join(seq(|lines| - 1, i requires 0 <= i < |lines| - 1 => WithCarriageReturn(lines[i]))
         + [lines[|lines| - 1]], '\n')
  }

  /** A brief with CRLF line endings can have a heading at most on its last line,
      and the elements are exactly those lines with their carriage returns kept. */
  lemma CrlfHeadingsOnlyLast(lines: seq<string>)
    requires |lines| >= 1
    requires forall i :: 0 <= i < |lines| ==> '\n' !in lines[i]
    ensures |FormatBrief(CrlfText(lines))| == |lines|
    ensures forall i :: 0 <= i < |lines| - 1 ==>
      FormatBrief(CrlfText(lines))[i] == Element(i, Paragraph, lines[i] + "\r")
  {
    var n := |lines|;
    var parts := seq(n - 1, i requires 0 <= i < n - 1 => WithCarriageReturn(lines[i])) + [lines[n - 1]];
    forall i | 0 <= i < n ensures '\n' !in parts[i] {
      if i < n - 1 {
        assert parts[i] == lines[i] + "\r";
        assert forall k :: 0 <= k < |parts[i]| ==> parts[i][k] == (if k < |lines[i]| then lines[i][k] else '\r');
      }
    }
    SplitJoin(parts, '\n');
  }

  /** The fixed cases of the heading rule. */
  lemma HeadingExamples()
    ensures IsHeadingLine("Introduction:")
    ensures !IsHeadingLine("INTRODUCTION:")
    ensures !IsHeadingLine("Budget Breakdown:")
    ensures !IsHeadingLine("introduction:")
    ensures !IsHeadingLine("Introduction")
    ensures !IsHeadingLine("A:")
    ensures !IsHeadingLine(" Goals:") && !IsHeadingLine("Goals: ") && !IsHeadingLine("Goals:\r")
  {
    assert "INTRODUCTION:"[1] == 'N';
    assert "Budget Breakdown:"[6] == ' ';
  }
}
