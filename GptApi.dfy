/** The generation gateway: the prompt built from the project form, and the reading
    of the chat-completion reply into a brief or a regenerated section. The OpenAI
    client is a function from request to reply, so its network call and its
    nondeterminism stay outside the model. */
module GptApi {
  import opened Common
  import opened Strings

  datatype BudgetItem = BudgetItem(item: string, amount: string)

  datatype RefType = Link | Image

  datatype Reference = Reference(kind: RefType, value: string)

  /** The form data the gateway receives; `deadline` is `null` or a date string. */
  datatype ProjectFormData = ProjectFormData(
    projectType: string,
    projectName: string,
    goals: string,
    deadline: Option<string>,
    budget: string,
    budgetBreakdown: seq<BudgetItem>,
    references: seq<Reference>)

  // ---------------------------------------------------------------- prompt text

  /** One budget row as it appears in the prompt. */
  function BudgetLine(b: BudgetItem): string
  {
    b.item + ": $" + b.amount
  }

  function BudgetLines(rows: seq<BudgetItem>): (r: seq<string>)
    ensures |r| == |rows|
    ensures forall i :: 0 <= i < |rows| ==> r[i] == BudgetLine(rows[i])
  {
    if rows == [] then [] else [BudgetLine(rows[0])] + BudgetLines(rows[1..])
  }

  /** The budget breakdown block: one line per row, in order. */
  function BudgetBreakdownText(rows: seq<BudgetItem>): (r: string)
    ensures r == "" <==> rows == []
  {
    JoinEnds(BudgetLines(rows), '\n');
    Join(BudgetLines(rows), '\n')
  }

  /** One reference as it appears in the prompt: a link as a markdown link whose
      label and target are both the URL, anything else as an image line. */
  function ReferenceLine(r: Reference): string
  {
    match r.kind
    case Link => "Link: [" + r.value + "](" + r.value + ")"
    case Image => "Image: " + r.value
  }

  function ReferenceLines(refs: seq<Reference>): (r: seq<string>)
    ensures |r| == |refs|
    ensures forall i :: 0 <= i < |refs| ==> r[i] == ReferenceLine(refs[i])
  {
    if refs == [] then [] else [ReferenceLine(refs[0])] + ReferenceLines(refs[1..])
  }

  /** The references block: one line per reference, in order. */
  function ReferencesText(refs: seq<Reference>): (r: string)
    ensures r == "" <==> refs == []
  {
    JoinEnds(ReferenceLines(refs), '\n');
    Join(ReferenceLines(refs), '\n')
  }

  /** `deadline || 'Not specified'`: both `null` and the empty string are falsy. */
  function DeadlineText(deadline: Option<string>): (r: string)
    ensures deadline.None? || deadline == Some("") ==> r == "Not specified"
    ensures deadline.Some? && deadline.value != "" ==> r == deadline.value
  {
    if deadline.None? || deadline.value == "" then "Not specified" else deadline.value
  }

  const PromptIntro: string :=
    "Generate a professional and casual project brief based on the following input. Avoid referencing the project name directly in the brief. Instead, \n  provide a high-level summary of the project's purpose and goals in a natural style. Keep the tone approachable and avoid overly formal or robotic phrases. Also incorporate information from the web if needed. Here is the provided information:"

  const PromptGuidelines: string :=
    "    \n    Please follow these guidelines:\n    1. Write the brief as if the client is describing their project requirements and expectations, and in a way that is both professional and casual. Use clear language and avoid complex grammar and jargon. Avoid the terms \"revamp\", \"breathe new life\", or \"refresh\" in the brief. The response should be easy to understand for users who may not speak fluent English, and explain any technical terms in simple words.\n    2. Start with an \"Introduction:\" section that outlines the project's purpose and main goals.\n    3. Include separate sections for \"Goals:\", \"Timeline:\", \"Budget:\", \"References:\", and \"Conclusion:\".\n    4. Format each main section with a capitalized title followed by a colon, on its own line (e.g., \"Introduction:\", \"Goals:\", etc.).\n    5. Make sure to exclude 'Project Type:' from the project overview, it's a bit redundant.\n    6. Format the brief with proper organization, especially when listing specific goals, budget breakdowns, or requirements.\n    7. For image references, explicitly mention each image URL and accurately describe what it shows and how it relates to the project.\n    8. IMPORTANT: All links in the brief MUST be formatted as [link text](URL). Do not use any other format for links.\n    9. Discuss the project details, including type, name, and specific goals.\n    10. Discuss the budget and its breakdown in a way that feels natural to the narrative.\n    11. Incorporate the provided references into the brief (only in \"References:\" section), mentioning how they relate to the project or inspire certain aspects.\n    12. Conclude with a closing statement that summarizes the project's importance and the client's expectations for success.\n    \n    The tone should be professional yet comfortable and conversational."

  const RegenerateLead: string :=
    "Given the following project brief, please regenerate only the content for the "

  const RegenerateMiddle: string :=
    " section. Maintain the overall tone and context of the brief, but provide an alternate perspective for this section while keeping it professional and comfortable. Do not include the section title in your response. Do not make the response significantly longer than the original section. Here's the current brief:\n\n"

  const RegenerateTail: string :=
    "\n\nPlease provide only the regenerated content for the "

  const RegenerateEnd: string :=
    " section, without the section title."

  /** The labelled lines of the `generateBrief` template before the goals. */
  function LeadLines(f: ProjectFormData): seq<string>
  {
    ["    Project Type: " + f.projectType,
     "    Project Name: " + f.projectName]
  }

  /** The label the goals follow. */
  const GoalsLabel: string := "    Goals: "

  /** The labelled lines of the `generateBrief` template after the goals. */
  function TailLines(f: ProjectFormData): seq<string>
  {
    ["    Deadline: " + DeadlineText(f.deadline),
     "    Budget: $" + f.budget,
     "    Budget Breakdown:"]
  }

  /** The lines of the template that interpolate the two blocks. */
  function BlockParts(f: ProjectFormData): seq<string>
  {
    ["    " + BudgetBreakdownText(f.budgetBreakdown),
     "    References:",
     "    " + ReferencesText(f.references)]
  }

  /** The interpolated lines of the `generateBrief` template, between its fixed
      introduction and its fixed guidelines. */
  function DataParts(f: ProjectFormData): seq<string>
  {
    LeadLines(f) + [GoalsLabel + f.goals] + TailLines(f) + BlockParts(f)
  }

  /** The prompt of `generateBrief`: the template's lines joined by line feeds. */
  function Prompt(f: ProjectFormData): string
  {
    Join([PromptIntro] + DataParts(f) + [PromptGuidelines], '\n')
  }

  /** The prompt of `regenerateSection`: the section name in double quotes, the whole
      brief, and the section name quoted once more. */
  function RegeneratePrompt(brief: string, sectionName: string): string
  {
    RegenerateLead + Quoted(sectionName) + RegenerateMiddle + brief
      + RegenerateTail + Quoted(sectionName) + RegenerateEnd
  }

  function Quoted(s: string): string
  {
    "\"" + s + "\""
  }

  // ------------------------------------------------ what can be read back from the prompt

  /** A budget line read back: the item before the last colon, the amount after `": $"`. */
  function ParseBudgetLine(line: string): Option<BudgetItem>
  {
    var k := LastIndexOf(line, ':');
    if 0 <= k && k + 3 <= |line| && line[k..k + 3] == ": $"
    then Some(BudgetItem(line[..k], line[k + 3..]))
    else None
  }

  /** A budget line loses nothing as long as the amount has no colon (the amount comes
      from a numeric input); the item itself may contain anything. */
  lemma BudgetLineRoundTrip(b: BudgetItem)
    requires ':' !in b.amount
    ensures ParseBudgetLine(BudgetLine(b)) == Some(b)
  {
    var line := BudgetLine(b);
    var n := |b.item|;
    assert line[n] == ':';
    forall j | n < j < |line| ensures line[j] != ':' {
      if j >= n + 3 { assert line[j] == b.amount[j - n - 3]; }
    }
    var k := LastIndexOf(line, ':');
    assert k == n;
    assert line[..n] == b.item;
    assert line[n + 3..] == b.amount;
  }

  /** A reference line read back. */
  function ParseReferenceLine(line: string): Option<Reference>
  {
    if |line| >= 10 && line[..7] == "Link: [" && (|line| - 10) % 2 == 0 then
      var v := line[7..7 + (|line| - 10) / 2];
      if line == "Link: [" + v + "](" + v + ")" then Some(Reference(Link, v)) else None
    else if |line| >= 7 && line[..7] == "Image: " then Some(Reference(Image, line[7..]))
    else None
  }

  /** Every reference line gives back its reference: kind and value. */
  lemma ReferenceLineRoundTrip(r: Reference)
    ensures ParseReferenceLine(ReferenceLine(r)) == Some(r)
  {
    var line := ReferenceLine(r);
    match r.kind
    case Link =>
      assert |line| == 10 + 2 * |r.value|;
      assert line[..7] == "Link: [";
      assert line[7..7 + |r.value|] == r.value;
    case Image =>
      assert line[..7] == "Image: " by { assert line[..7] == "Image: "[..7]; }
      assert line[..7] != "Link: [" by { assert line[0] == 'I'; }
      assert line[7..] == r.value;
  }

  /** The rows have no line feed and every amount is colon-free. */
  predicate PlainRows(rows: seq<BudgetItem>)
  {
    forall i :: 0 <= i < |rows| ==>
      '\n' !in rows[i].item && '\n' !in rows[i].amount && ':' !in rows[i].amount
  }

  predicate PlainReferences(refs: seq<Reference>)
  {
    forall i :: 0 <= i < |refs| ==> '\n' !in refs[i].value
  }

  /** The budget breakdown block has one line per row, in input order, and each line
      reads back as its row; no rows give the empty string. */
  lemma BudgetBreakdownRecoverable(rows: seq<BudgetItem>)
    requires PlainRows(rows)
    ensures rows == [] ==> BudgetBreakdownText(rows) == ""
    ensures rows != [] ==> |Split(BudgetBreakdownText(rows), '\n')| == |rows|
    ensures rows != [] ==> forall i :: 0 <= i < |rows| ==>
      Split(BudgetBreakdownText(rows), '\n')[i] == BudgetLine(rows[i])
      && ParseBudgetLine(Split(BudgetBreakdownText(rows), '\n')[i]) == Some(rows[i])
  {
    if rows != [] {
      var lines := BudgetLines(rows);
      forall i | 0 <= i < |lines| ensures '\n' !in lines[i] {
        assert lines[i] == rows[i].item + ": $" + rows[i].amount;
      }
      SplitJoin(lines, '\n');
      forall i | 0 <= i < |rows| ensures ParseBudgetLine(lines[i]) == Some(rows[i]) {
        BudgetLineRoundTrip(rows[i]);
      }
    }
  }

  /** The references block has one line per reference, in input order, and each line
      reads back as its reference; no references give the empty string. */
  lemma ReferencesRecoverable(refs: seq<Reference>)
    requires PlainReferences(refs)
    ensures refs == [] ==> ReferencesText(refs) == ""
    ensures refs != [] ==> |Split(ReferencesText(refs), '\n')| == |refs|
    ensures refs != [] ==> forall i :: 0 <= i < |refs| ==>
      Split(ReferencesText(refs), '\n')[i] == ReferenceLine(refs[i])
      && ParseReferenceLine(Split(ReferencesText(refs), '\n')[i]) == Some(refs[i])
  {
    if refs != [] {
      var lines := ReferenceLines(refs);
      forall i | 0 <= i < |lines| ensures '\n' !in lines[i] {
        var v := refs[i].value;
        match refs[i].kind
        case Link => assert lines[i] == "Link: [" + v + "](" + v + ")";
        case Image => assert lines[i] == "Image: " + v;
      }
      SplitJoin(lines, '\n');
      forall i | 0 <= i < |refs| ensures ParseReferenceLine(lines[i]) == Some(refs[i]) {
        ReferenceLineRoundTrip(refs[i]);
      }
    }
  }

  /** No field but the goals holds a line feed: the goals come from a text area, every
      other field from a single-line input or the fixed project type. */
  predicate SingleLineFields(f: ProjectFormData)
  {
    && '\n' !in f.projectType && '\n' !in f.projectName
    && (f.deadline.Some? ==> '\n' !in f.deadline.value) && '\n' !in f.budget
    && (forall i :: 0 <= i < |f.budgetBreakdown| ==>
          '\n' !in f.budgetBreakdown[i].item && '\n' !in f.budgetBreakdown[i].amount)
    && PlainReferences(f.references)
  }

  /** The lines a block of lines is split into once written out: an empty block is
      still one (empty) line. */
  function BlockLines(lines: seq<string>): (r: seq<string>)
    ensures |r| >= 1
  {
    if lines == [] then [""] else lines
  }

  /** The template puts its label or indentation before the first line of an
      interpolated value only. */
  function PrefixFirst(prefix: string, lines: seq<string>): seq<string>
    requires |lines| >= 1
  {
    [prefix + lines[0]] + lines[1..]
  }

  /** The lines the two interpolated blocks occupy once written out. */
  function BlockLinesOf(f: ProjectFormData): seq<string>
  {
    PrefixFirst("    ", BlockLines(BudgetLines(f.budgetBreakdown)))
    + ["    References:"]
    + PrefixFirst("    ", BlockLines(ReferenceLines(f.references)))
  }

  /** The lines of the data part of the prompt, between the fixed introduction and the
      fixed guidelines: the goals keep their own line breaks, the first goals line
      following the label. */
  function DataLines(f: ProjectFormData): seq<string>
  {
    LeadLines(f) + PrefixFirst(GoalsLabel, Split(f.goals, '\n')) + TailLines(f) + BlockLinesOf(f)
  }

  lemma IndentedBlockSplit(lines: seq<string>)
    requires forall i :: 0 <= i < |lines| ==> '\n' !in lines[i]
    ensures Split("    " + Join(lines, '\n'), '\n') == PrefixFirst("    ", BlockLines(lines))
  {
    NoLineFeedInIndent();
    if lines == [] {
      assert "    " + Join(lines, '\n') == "    ";
      SplitNoSeparator("    ", '\n');
    } else {
      JoinPrefix("    ", lines, '\n');
      var ind := PrefixFirst("    ", lines);
      forall i | 0 <= i < |ind| ensures '\n' !in ind[i] {
        if i == 0 { NoLineFeedInAppend("    ", lines[0]); } else { assert ind[i] == lines[i]; }
      }
      SplitJoin(ind, '\n');
    }
  }

  lemma NoLineFeedInIndent()
    ensures '\n' !in "    "
  {
    assert forall i :: 0 <= i < 4 ==> "    "[i] == ' ';
  }

  lemma NoLineFeedInAppend(a: string, b: string)
    requires '\n' !in a && '\n' !in b
    ensures '\n' !in a + b
  {
    assert forall i :: 0 <= i < |a + b| ==> (a + b)[i] == if i < |a| then a[i] else b[i - |a|];
  }

  /** For any record, the prompt read line by line is the introduction's lines, the
      lines of each interpolated template line in turn, and the guidelines' lines. */
  lemma PromptSplitsPartwise(f: ProjectFormData)
    ensures Split(Prompt(f), '\n') ==
      Split(PromptIntro, '\n') + SplitEach(DataParts(f), '\n') + Split(PromptGuidelines, '\n')
  {
    FramedSplit(PromptIntro, DataParts(f), PromptGuidelines);
  }

  /** Read line by line, the prompt is the introduction, then the project type and
      name each verbatim on a line of its own, the goals verbatim line by line after
      their label, the deadline and the `$`-prefixed budget each on a line of its own,
      the budget breakdown and the references one per line, then the guidelines. */
  lemma PromptLines(f: ProjectFormData)
    requires SingleLineFields(f)
    ensures Split(Prompt(f), '\n') ==
      Split(PromptIntro, '\n') + DataLines(f) + Split(PromptGuidelines, '\n')
  {
    DataPartsLines(f);
    FramedSplit(PromptIntro, DataParts(f), PromptGuidelines);
  }

  /** Splitting a join of a first part, middle parts and a last part. */
  lemma FramedSplit(first: string, middle: seq<string>, last: string)
    ensures Split(Join([first] + middle + [last], '\n'), '\n') ==
      Split(first, '\n') + SplitEach(middle, '\n') + Split(last, '\n')
  {
    var parts := [first] + middle + [last];
    SplitOfJoin(parts, '\n');
    assert parts == [first] + (middle + [last]);
    SplitEachAppend([first], middle + [last]);
    SplitEachAppend(middle, [last]);
    SplitEachOne(first);
    SplitEachOne(last);
  }

  lemma SplitEachOne(x: string)
    ensures SplitEach([x], '\n') == Split(x, '\n')
  {
    assert [x][1..] == [];
  }

  /** The interpolated parts split into the labelled lines, the goals' lines and the
      block lines. */
  lemma DataPartsLines(f: ProjectFormData)
    requires SingleLineFields(f)
    ensures SplitEach(DataParts(f), '\n') == DataLines(f)
  {
    LabelledLinesSingle(f);
    SplitEachSingles(LeadLines(f), '\n');
    SplitEachSingles(TailLines(f), '\n');
    GoalsLines(f.goals);
    BlocksSplit(f);
    SplitEachAround(LeadLines(f), GoalsLabel + f.goals, TailLines(f), BlockParts(f));
  }

  /** The goals, after their label, are their own lines. */
  lemma GoalsLines(goals: string)
    ensures Split(GoalsLabel + goals, '\n') == PrefixFirst(GoalsLabel, Split(goals, '\n'))
  {
    assert '\n' !in GoalsLabel by {
      assert forall k :: 0 <= k < |GoalsLabel| ==> GoalsLabel[k] != '\n';
    }
    SplitPrefix(GoalsLabel, goals, '\n');
  }

  /** Splitting parts around one middle part. */
  lemma SplitEachAround(a: seq<string>, g: string, t: seq<string>, b: seq<string>)
    ensures SplitEach(a + [g] + t + b, '\n') ==
      SplitEach(a, '\n') + Split(g, '\n') + SplitEach(t, '\n') + SplitEach(b, '\n')
  {
    assert a + [g] + t + b == a + ([g] + (t + b));
    SplitEachAppend(a, [g] + (t + b));
    SplitEachAppend([g], t + b);
    SplitEachAppend(t, b);
    SplitEachOne(g);
  }

  lemma BlocksSplit(f: ProjectFormData)
    requires SingleLineFields(f)
    ensures SplitEach(BlockParts(f), '\n') == BlockLinesOf(f)
  {
    BudgetBlockSplit(f.budgetBreakdown);
    ReferenceLinesSingle(f.references);
    IndentedBlockSplit(ReferenceLines(f.references));
    assert '\n' !in "    References:" by {
      assert forall k :: 0 <= k < |"    References:"| ==> "    References:"[k] != '\n';
    }
    SplitNoSeparator("    References:", '\n');
    SplitEachThree("    " + BudgetBreakdownText(f.budgetBreakdown), "    References:",
                   "    " + ReferencesText(f.references));
  }

  lemma SplitEachThree(a: string, b: string, c: string)
    ensures SplitEach([a, b, c], '\n') == Split(a, '\n') + Split(b, '\n') + Split(c, '\n')
  {
    calc {
      SplitEach([a, b, c], '\n');
      Split(a, '\n') + SplitEach([b, c], '\n');
      { assert [a, b, c][1..] == [b, c]; }
      Split(a, '\n') + (Split(b, '\n') + SplitEach([c], '\n'));
      { SplitEachOne(c); }
      Split(a, '\n') + (Split(b, '\n') + Split(c, '\n'));
    }
  }

  /** The indented budget block, with single-line rows, splits into its indented
      lines. */
  lemma BudgetBlockSplit(rows: seq<BudgetItem>)
    requires forall i :: 0 <= i < |rows| ==> '\n' !in rows[i].item && '\n' !in rows[i].amount
    ensures Split("    " + BudgetBreakdownText(rows), '\n') == PrefixFirst("    ", BlockLines(BudgetLines(rows)))
  {
    var budget := BudgetLines(rows);
    forall i | 0 <= i < |budget| ensures '\n' !in budget[i] {
      BudgetLineSingle(rows[i]);
    }
    IndentedBlockSplit(budget);
  }

  lemma BudgetLineSingle(b: BudgetItem)
    requires '\n' !in b.item && '\n' !in b.amount
    ensures '\n' !in BudgetLine(b)
  {
    assert '\n' !in ": $" by { assert forall k :: 0 <= k < 3 ==> ": $"[k] != '\n'; }
    NoLineFeedInAppend(b.item, ": $");
    NoLineFeedInAppend(b.item + ": $", b.amount);
  }

  lemma ReferenceLinesSingle(refs: seq<Reference>)
    requires PlainReferences(refs)
    ensures forall i :: 0 <= i < |refs| ==> '\n' !in ReferenceLines(refs)[i]
  {
    forall i | 0 <= i < |refs| ensures '\n' !in ReferenceLines(refs)[i] {
      ReferenceLineSingle(refs[i]);
    }
  }

  lemma ReferenceLineSingle(r: Reference)
    requires '\n' !in r.value
    ensures '\n' !in ReferenceLine(r)
  {
    var v := r.value;
    match r.kind
    case Link =>
      assert '\n' !in "Link: [" by { assert forall k :: 0 <= k < 7 ==> "Link: ["[k] != '\n'; }
      assert '\n' !in "](" by { assert forall k :: 0 <= k < 2 ==> "]("[k] != '\n'; }
      assert '\n' !in ")" by { assert ")"[0] != '\n'; }
      NoLineFeedInAppend("Link: [", v);
      NoLineFeedInAppend("Link: [" + v, "](");
      NoLineFeedInAppend("Link: [" + v + "](", v);
      NoLineFeedInAppend("Link: [" + v + "](" + v, ")");
    case Image =>
      assert '\n' !in "Image: " by { assert forall k :: 0 <= k < 7 ==> "Image: "[k] != '\n'; }
      NoLineFeedInAppend("Image: ", v);
  }

  /** The labelled lines other than the goals are single lines. */
  lemma LabelledLinesSingle(f: ProjectFormData)
    requires SingleLineFields(f)
    ensures forall i :: 0 <= i < |LeadLines(f)| ==> '\n' !in LeadLines(f)[i]
    ensures forall i :: 0 <= i < |TailLines(f)| ==> '\n' !in TailLines(f)[i]
  {
    var labels := ["    Project Type: ", "    Project Name: ", "    Deadline: ",
                   "    Budget: $", "    Budget Breakdown:"];
    var values := [f.projectType, f.projectName, DeadlineText(f.deadline), f.budget, ""];
    assert '\n' !in "Not specified" by {
      assert forall k :: 0 <= k < |"Not specified"| ==> "Not specified"[k] != '\n';
    }
    forall i | 0 <= i < 5 ensures '\n' !in labels[i] + values[i] {
      assert '\n' !in labels[i] by {
        assert forall k :: 0 <= k < |labels[i]| ==> labels[i][k] != '\n';
      }
      NoLineFeedInAppend(labels[i], values[i]);
    }
    assert labels[4] + values[4] == labels[4];
    assert LeadLines(f) == [labels[0] + values[0], labels[1] + values[1]];
    assert TailLines(f) == [labels[2] + values[2], labels[3] + values[3], labels[4] + values[4]];
  }

  lemma SplitEachAppend(a: seq<string>, b: seq<string>)
    ensures SplitEach(a + b, '\n') == SplitEach(a, '\n') + SplitEach(b, '\n')
  {
    if a != [] {
      assert (a + b)[1..] == a[1..] + b;
      SplitEachAppend(a[1..], b);
    } else {
      assert a + b == b;
    }
  }

  // ------------------------------------------------------------ the chat completion

  datatype ChatMessage = ChatMessage(role: string, content: string)

  /** What is sent to the chat-completions endpoint. */
  datatype Request = Request(model: string, messages: seq<ChatMessage>, maxTokens: nat)

  /** A reply message; its `content` may be `null`. */
  datatype ReplyMessage = ReplyMessage(content: Option<string>)

  /** A reply choice; its `message` may be missing. */
  datatype Choice = Choice(message: Option<ReplyMessage>)

  /** What the client call produces: it rejects, or it resolves with a list of choices. */
  datatype Reply = Rejected(reason: string) | Completed(choices: seq<Choice>)

  /** What the gateway throws. */
  datatype ApiError =
    | CallFailed(reason: string)   // the client's own error, rethrown unchanged
    | UnexpectedStructure          // `generateBrief`: no choices, or no message
    | TypeError                    // `regenerateSection`: reading a field of `undefined`

  /** `message.content?.trim() || ''`. */
  function MessageText(m: ReplyMessage): (r: string)
    ensures Trimmed(r)
    ensures m.content.None? ==> r == ""
    ensures m.content.Some? ==> r == Trim(m.content.value)
  {
    if m.content.None? then "" else Trim(m.content.value)
  }

  /** The reply handling of `generateBrief`. */
  function ReadBrief(reply: Reply): (r: Result<string, ApiError>)
    ensures reply.Rejected? ==> r == Err(CallFailed(reply.reason))
    ensures reply.Completed? ==>
      (r.Ok? <==> |reply.choices| > 0 && reply.choices[0].message.Some?)
    ensures reply.Completed? && r.Err? ==> r.error == UnexpectedStructure
    ensures r.Ok? ==> Trimmed(r.value)
    ensures r.Ok? ==> reply.Completed? && |reply.choices| > 0 && reply.choices[0].message.Some?
                      && r.value == MessageText(reply.choices[0].message.value)
  {
    match reply
    case Rejected(reason) => Err(CallFailed(reason))
    case Completed(choices) =>
      if |choices| > 0 && choices[0].message.Some? then Ok(MessageText(choices[0].message.value))
      else Err(UnexpectedStructure)
  }

  /** The reply handling of `regenerateSection`, which checks nothing: a missing first
      choice or message makes the property access throw. */
  function ReadSection(reply: Reply): (r: Result<string, ApiError>)
    ensures reply.Rejected? ==> r == Err(CallFailed(reply.reason))
    ensures reply.Completed? ==>
      (r.Ok? <==> |reply.choices| > 0 && reply.choices[0].message.Some?)
    ensures reply.Completed? && r.Err? ==> r.error == TypeError
    ensures r.Ok? ==> Trimmed(r.value)
    ensures r.Ok? ==> reply.Completed? && |reply.choices| > 0 && reply.choices[0].message.Some?
                      && r.value == MessageText(reply.choices[0].message.value)
  {
    match reply
    case Rejected(reason) => Err(CallFailed(reason))
    case Completed(choices) =>
      if |choices| == 0 then Err(TypeError)
      else match choices[0].message
        case None => Err(TypeError)
        case Some(m) => Ok(MessageText(m))
  }

  /** Both readers accept the same replies and give the same text; only the error
      they throw on a malformed reply differs. */
  lemma ReadersAgree(reply: Reply)
    ensures ReadBrief(reply).Ok? <==> ReadSection(reply).Ok?
    ensures ReadBrief(reply).Ok? ==> ReadBrief(reply).value == ReadSection(reply).value
    ensures reply.Rejected? ==> ReadBrief(reply) == ReadSection(reply)
  {
  }

  /** The request `generateBrief` sends: GPT-4, at most 1000 tokens, the prompt as the
      single user message. */
  function BriefRequest(formData: ProjectFormData): Request
  {
    Request("gpt-4", [ChatMessage("user", Prompt(formData))], 1000)
  }

  /** `generateBrief`: it sends its request once; the reply is read as a trimmed brief
      or an error. */
  method GenerateBrief(formData: ProjectFormData, client: Request -> Reply)
    returns (request: Request, result: Result<string, ApiError>)
    ensures request == BriefRequest(formData)
    ensures request.model == "gpt-4" && request.maxTokens == 1000
    ensures request.messages == [ChatMessage("user", Prompt(formData))]
    ensures result == ReadBrief(client(request))
    ensures result.Ok? ==> Trimmed(result.value)
  {
    request := BriefRequest(formData);
    var reply := client(request);
    result := ReadBrief(reply);
  }

  /** The request `regenerateSection` sends: GPT-4, at most 500 tokens, the
      regeneration prompt as the single user message. */
  function SectionRequest(brief: string, sectionName: string): Request
  {
    Request("gpt-4", [ChatMessage("user", RegeneratePrompt(brief, sectionName))], 500)
  }

  /** `regenerateSection`: it sends its request once; the reply is read as trimmed
      text or an error. */
  method RegenerateSection(brief: string, sectionName: string, client: Request -> Reply)
    returns (request: Request, result: Result<string, ApiError>)
    ensures request == SectionRequest(brief, sectionName)
    ensures request.model == "gpt-4" && request.maxTokens == 500
    ensures request.messages == [ChatMessage("user", RegeneratePrompt(brief, sectionName))]
    ensures result == ReadSection(client(request))
    ensures result.Ok? ==> Trimmed(result.value)
  {
    request := SectionRequest(brief, sectionName);
    var reply := client(request);
    result := ReadSection(reply);
  }

  /** The regeneration prompt quotes the section name, then holds the whole brief
      verbatim, then quotes the section name again at the end. */
  lemma RegeneratePromptEmbeds(brief: string, sectionName: string)
    ensures var p := RegeneratePrompt(brief, sectionName);
      var q := |RegenerateLead|;
      var n := |sectionName| + 2;
      var k := q + n + |RegenerateMiddle|;
      && |p| == k + |brief| + |RegenerateTail| + n + |RegenerateEnd|
      && p[q..q + n] == Quoted(sectionName)
      && p[k..k + |brief|] == brief
      && p[|p| - |RegenerateEnd| - n..|p| - |RegenerateEnd|] == Quoted(sectionName)
  {
    PiecesAt(RegenerateLead, Quoted(sectionName), RegenerateMiddle, brief,
             RegenerateTail, Quoted(sectionName), RegenerateEnd);
  }

  /** Where the second, fourth and sixth of seven concatenated pieces sit. */
  lemma PiecesAt(a: string, b: string, c: string, d: string, e: string, f: string, g: string)
    ensures var p := a + b + c + d + e + f + g;
      && |p| == |a| + |b| + |c| + |d| + |e| + |f| + |g|
      && p[|a|..|a| + |b|] == b
      && p[|a| + |b| + |c|..|a| + |b| + |c| + |d|] == d
      && p[|p| - |g| - |f|..|p| - |g|] == f
  {
  }

  /** A quoted name is the name between two double quotes. */
  lemma QuotedParts(s: string)
    ensures |Quoted(s)| == |s| + 2
    ensures Quoted(s)[0] == '"' && Quoted(s)[1..|s| + 1] == s && Quoted(s)[|s| + 1] == '"'
  {
  }

  /** For one section name, different briefs give different prompts. */
  lemma RegeneratePromptDeterminesBrief(brief1: string, brief2: string, sectionName: string)
    requires RegeneratePrompt(brief1, sectionName) == RegeneratePrompt(brief2, sectionName)
    ensures brief1 == brief2
  {
    RegeneratePromptEmbeds(brief1, sectionName);
    RegeneratePromptEmbeds(brief2, sectionName);
  }

  /** For one brief, different section names give different prompts. */
  lemma RegeneratePromptDeterminesSection(brief: string, sectionName1: string, sectionName2: string)
    requires RegeneratePrompt(brief, sectionName1) == RegeneratePrompt(brief, sectionName2)
    ensures sectionName1 == sectionName2
  {
    RegeneratePromptEmbeds(brief, sectionName1);
    RegeneratePromptEmbeds(brief, sectionName2);
    QuotedParts(sectionName1);
    QuotedParts(sectionName2);
  }
}
