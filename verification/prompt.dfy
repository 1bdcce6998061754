/**
 The prompt builder (`build_prompt`): a fixed preamble, optional technique,
 business, perspective and assumptions blocks, the mandatory issue block and
 a fixed closing block, as a list of lines joined with newlines.

 Its partner is `ParseLines`, a positional reader that recovers from the
 lines which optional blocks are present and what they carry; the round-trip
 lemmas below state, block by block, what the builder promises.
 */
module Prompt {
  import opened Wrappers
  import opened Text
  import Tables

  const RoleLine := "You are an expert business strategist and brainstorming facilitator."
  const ApplyPrefix := "Apply the "
  const ApplySuffix := " brainstorming technique to analyze the following business challenge."
  const ContextPrefix := "Technique Context: "
  const BusinessPrefix := "Business Context: Focus on the "
  const BusinessSuffix := " industry/sector."
  const PerspectivePrefix := "Perspective: Approach this challenge as "
  const PerspectiveJoint := " would, "
  const PerspectiveSuffix := "."
  const IssueHeader := "Challenge/Issue:"
  const AssumptionsHeader := "Assumptions and Constraints:"

  /** The fixed instructions on the shape of the answer, always last. */
  const Closing: seq<string> := [
    "Please provide a comprehensive analysis using the specified technique. Structure your response in markdown format with:",
    "1. A brief summary of the challenge",
    "2. Application of the brainstorming technique with detailed analysis",
    "3. Key insights and recommendations",
    "4. Action items or next steps",
    "",
    "Use headers, bullet points, and formatting to make the output clear and actionable."
  ]

  function Preamble(technique: string): seq<string> {
    [RoleLine, ApplyPrefix + technique + ApplySuffix, ""]
  }

  function TechniqueBlock(catalog: Tables.Catalog, technique: string): seq<string> {
    if technique in catalog.contexts then
      [ContextPrefix + catalog.contexts[technique], ""]
    else []
  }

  function BusinessBlock(businessArea: Option<string>): seq<string> {
    if Truthy(businessArea) then [BusinessPrefix + businessArea.value + BusinessSuffix, ""] else []
  }

  /** The clause after "as": the icon's name and its thinking style. */
  function PerspectiveClause(catalog: Tables.Catalog, icon: string): string
    requires icon in catalog.perspectives
  {
    icon + PerspectiveJoint + catalog.perspectives[icon]
  }

  function PerspectiveBlock(catalog: Tables.Catalog, icon: Option<string>): seq<string> {
    if Truthy(icon) && icon.value in catalog.perspectives then
      [PerspectivePrefix + PerspectiveClause(catalog, icon.value) + PerspectiveSuffix, ""]
    else []
  }

  function IssueBlock(issue: string): seq<string> {
    [IssueHeader, issue, ""]
  }

  /** Python's `assumptions and assumptions.strip()`. */
  predicate HasAssumptions(assumptions: Option<string>) {
    assumptions.Some? && Strip(assumptions.value) != ""
  }

  function AssumptionsBlock(assumptions: Option<string>): seq<string> {
    if HasAssumptions(assumptions) then [AssumptionsHeader, assumptions.value, ""] else []
  }

  /** The blocks between the preamble and the closing instructions. */
  function Blocks(catalog: Tables.Catalog, technique: string, businessArea: Option<string>, icon: Option<string>,
                  issue: string, assumptions: Option<string>): seq<string>
  {
    (TechniqueBlock(catalog, technique) + BusinessBlock(businessArea) + PerspectiveBlock(catalog, icon))
    + IssueBlock(issue) + AssumptionsBlock(assumptions)
  }

  /**
   The lines `build_prompt` collects, in order, before joining them: the
   three preamble lines first, the seven closing lines last, and between
   them at least the three lines of the issue block.
   */
  function PromptLines(catalog: Tables.Catalog, technique: string, businessArea: Option<string>, icon: Option<string>,
                       issue: string, assumptions: Option<string>): (lines: seq<string>)
    ensures |lines| >= |Preamble(technique)| + 3 + |Closing|
    ensures lines[..3] == [RoleLine, ApplyPrefix + technique + ApplySuffix, ""]
    ensures lines[|lines| - |Closing|..] == Closing
  {
    Preamble(technique) + Blocks(catalog, technique, businessArea, icon, issue, assumptions) + Closing
  }

  /**
   `build_prompt`: the lines joined with newlines. The text opens with the
   role line and the line naming the technique (known or not), ends with the
   closing block, and carries the issue verbatim under its header.
   */
  function BuildPrompt(catalog: Tables.Catalog, technique: string, businessArea: Option<string>, icon: Option<string>,
                       issue: string, assumptions: Option<string>): (prompt: string)
    ensures Opening(technique) <= prompt
    ensures EndsWith(prompt, [Newline] + Join(Closing))
    ensures IsInfix(IssueText(issue), prompt)
  {
    var head := Preamble(technique);
    var upper := TechniqueBlock(catalog, technique) + BusinessBlock(businessArea) + PerspectiveBlock(catalog, icon);
    var middle := Blocks(catalog, technique, businessArea, icon, issue, assumptions);
    var lines := head + middle + Closing;
    assert |Closing| == 7;
    // the opening
    RegroupMiddle(head, upper, IssueBlock(issue), AssumptionsBlock(assumptions), Closing);
    assert lines == head + (middle + Closing);
    JoinOpening(technique, middle + Closing);
    // the closing
    JoinAppend(head + middle, Closing);
    EndsWithConcat(Join(head + middle), [Newline], Join(Closing));
    // the issue
    assert lines == (head + upper) + IssueBlock(issue) + (AssumptionsBlock(assumptions) + Closing);
    JoinIssue(head + upper, issue, AssumptionsBlock(assumptions) + Closing);
    InfixOfConcat(Join(head + upper), IssueText(issue), Join(AssumptionsBlock(assumptions) + Closing));
    Join(lines)
  }

  lemma JoinThree(a: string, b: string, c: string)
    ensures Join([a, b, c]) == a + [Newline] + b + [Newline] + c
  {
    assert [a, b, c][1..] == [b, c];
    assert [b, c][1..] == [c];
    assert Join([c]) == c;
    assert Join([b, c]) == b + [Newline] + c;
    assert Join([a, b, c]) == a + [Newline] + Join([b, c]);
  }

  /** The first three lines of every prompt, as text. */
  function Opening(technique: string): string {
    RoleLine + [Newline] + (ApplyPrefix + technique + ApplySuffix) + [Newline] + [Newline]
  }

  lemma JoinOpening(technique: string, rest: seq<string>)
    requires |rest| >= 1
    ensures Opening(technique) <= Join(Preamble(technique) + rest)
  {
    OpeningLines(RoleLine, ApplyPrefix + technique + ApplySuffix, rest);
  }

  lemma OpeningLines(first: string, second: string, rest: seq<string>)
    requires |rest| >= 1
    ensures first + [Newline] + second + [Newline] + [Newline] <= Join([first, second, ""] + rest)
  {
    JoinAppend([first, second, ""], rest);
    JoinThree(first, second, "");
  }

  /** The issue block as it sits between its neighbours in the text. */
  function IssueText(issue: string): string {
    [Newline] + IssueHeader + [Newline] + issue + [Newline] + [Newline]
  }

  lemma IssueBlockText(issue: string)
    ensures [Newline] + Join(IssueBlock(issue)) + [Newline] == IssueText(issue)
  {
    JoinThree(IssueHeader, issue, "");
  }

  lemma JoinIssue(before: seq<string>, issue: string, after: seq<string>)
    requires |before| >= 1 && |after| >= 1
    ensures Join(before + IssueBlock(issue) + after) == Join(before) + IssueText(issue) + Join(after)
  {
    var m := IssueBlock(issue);
    JoinAround(before, m, after);
    IssueBlockText(issue);
    var jb, jm, ja := Join(before), Join(m), Join(after);
    RegroupMiddle(jb, [Newline], jm, [Newline], ja);
  }

  lemma OpeningNamesTechnique(technique: string)
    ensures IsInfix(technique, Opening(technique))
  {
    NamedInSecondLine(RoleLine, ApplyPrefix, technique, ApplySuffix);
  }

  lemma NamedInSecondLine(first: string, prefix: string, name: string, suffix: string)
    ensures IsInfix(name, first + [Newline] + (prefix + name + suffix) + [Newline] + [Newline])
  {
    InfixOfConcat(first + [Newline] + prefix, name, suffix + [Newline] + [Newline]);
    assert first + [Newline] + (prefix + name + suffix) + [Newline] + [Newline]
        == first + [Newline] + prefix + name + (suffix + [Newline] + [Newline]);
  }

  lemma IssueTextCarriesIssue(issue: string)
    ensures IsInfix(issue, IssueText(issue))
  {
    InfixOfConcat([Newline] + IssueHeader + [Newline], issue, [Newline] + [Newline]);
    assert IssueText(issue) == [Newline] + IssueHeader + [Newline] + issue + ([Newline] + [Newline]);
  }

  /** The prompt names the technique and carries the issue, both verbatim. */
  lemma PromptMentions(catalog: Tables.Catalog, technique: string, businessArea: Option<string>, icon: Option<string>,
                       issue: string, assumptions: Option<string>)
    ensures IsInfix(technique, BuildPrompt(catalog, technique, businessArea, icon, issue, assumptions))
    ensures IsInfix(issue, BuildPrompt(catalog, technique, businessArea, icon, issue, assumptions))
  {
    var prompt := BuildPrompt(catalog, technique, businessArea, icon, issue, assumptions);
    OpeningNamesTechnique(technique);
    PrefixIsInfix(Opening(technique), prompt);
    InfixTransitive(technique, Opening(technique), prompt);
    IssueTextCarriesIssue(issue);
    InfixTransitive(issue, IssueText(issue), prompt);
  }

  // ----- Reading a prompt back -----

  /** Which blocks a prompt carries, and what each of them says. */
  datatype Layout = Layout(
    technique: string,
    techniqueContext: Option<string>,
    businessArea: Option<string>,
    perspective: Option<string>,
    issue: string,
    assumptions: Option<string>)

  /** The text of `line` between a known prefix and suffix, if it has both. */
  function Between(line: string, prefix: string, suffix: string): (r: Option<string>)
    ensures r.Some? ==> line == prefix + r.value + suffix
  {
    if |prefix| + |suffix| <= |line| && line[..|prefix|] == prefix && line[|line| - |suffix|..] == suffix
    then Some(line[|prefix|..|line| - |suffix|])
    else None
  }

  /** `Between` undoes wrapping a text in a prefix and a suffix. */
  lemma BetweenRecovers(prefix: string, text: string, suffix: string)
    ensures Between(prefix + text + suffix, prefix, suffix) == Some(text)
  {
    var line := prefix + text + suffix;
    assert line[..|prefix|] == prefix;
    assert line[|line| - |suffix|..] == suffix;
    assert line[|prefix|..|line| - |suffix|] == text;
  }

  /** A line whose first character differs from the prefix's is not wrapped by it. */
  lemma BetweenMismatch(line: string, prefix: string, suffix: string)
    requires |prefix| >= 1 && |line| >= 1 && line[0] != prefix[0]
    ensures Between(line, prefix, suffix) == None
  {
    if |prefix| + |suffix| <= |line| {
      assert line[..|prefix|][0] == line[0];
    }
  }

  /** An optional block is a wrapped line and a blank line; read it if it is there. */
  function OptionalBlock(lines: seq<string>, prefix: string, suffix: string): (Option<string>, seq<string>)
  {
    if |lines| >= 2 && lines[1] == "" then
      match Between(lines[0], prefix, suffix)
      case Some(text) => (Some(text), lines[2..])
      case None => (None, lines)
    else (None, lines)
  }

  lemma OptionalPresent(prefix: string, text: string, suffix: string, rest: seq<string>)
    ensures OptionalBlock([prefix + text + suffix, ""] + rest, prefix, suffix) == (Some(text), rest)
  {
    BetweenRecovers(prefix, text, suffix);
    assert ([prefix + text + suffix, ""] + rest)[2..] == rest;
  }

  lemma OptionalAbsent(rest: seq<string>, prefix: string, suffix: string)
    requires |prefix| >= 1 && |rest| >= 1 && |rest[0]| >= 1 && rest[0][0] != prefix[0]
    ensures OptionalBlock(rest, prefix, suffix) == (None, rest)
  {
    BetweenMismatch(rest[0], prefix, suffix);
  }

  /** The three optional blocks after the preamble, each if its line is there. */
  function ParseOptionalBlocks(lines: seq<string>): (Option<string>, Option<string>, Option<string>, seq<string>) {
    var (context, rest1) := OptionalBlock(lines, ContextPrefix, "");
    var (business, rest2) := OptionalBlock(rest1, BusinessPrefix, BusinessSuffix);
    var (perspective, rest3) := OptionalBlock(rest2, PerspectivePrefix, PerspectiveSuffix);
    (context, business, perspective, rest3)
  }

  /** The assumptions block if its header is there, then exactly the closing block. */
  function ParseAssumptionsAndClosing(lines: seq<string>): Option<Option<string>> {
    if |lines| >= 3 && lines[0] == AssumptionsHeader && lines[2] == "" then
      if lines[3..] == Closing then Some(Some(lines[1])) else None
    else if lines == Closing then Some(None)
    else None
  }

  /** The issue block, the assumptions block if its header is there, and the closing block. */
  function ParseTail(lines: seq<string>): Option<(string, Option<string>)> {
    if |lines| < 3 || lines[0] != IssueHeader || lines[2] != "" then None
    else match ParseAssumptionsAndClosing(lines[3..])
      case None => None
      case Some(assumptions) => Some((lines[1], assumptions))
  }

  /**
   Reads the lines of a prompt back into its layout, by position: the
   preamble, then each optional block if its line is there, the issue block,
   the assumptions block if its header is there, and the closing block.
   Anything else is not a prompt.
   */
  function ParseLines(lines: seq<string>): Option<Layout> {
    if |lines| < 3 || lines[0] != RoleLine || lines[2] != "" then None
    else match Between(lines[1], ApplyPrefix, ApplySuffix)
      case None => None
      case Some(technique) =>
        var (context, business, perspective, rest) := ParseOptionalBlocks(lines[3..]);
        match ParseTail(rest)
        case None => None
        case Some((issue, assumptions)) =>
          Some(Layout(technique, context, business, perspective, issue, assumptions))
  }

  function ContextOf(catalog: Tables.Catalog, technique: string): Option<string> {
    if technique in catalog.contexts then Some(catalog.contexts[technique]) else None
  }

  function BusinessOf(businessArea: Option<string>): Option<string> {
    if Truthy(businessArea) then businessArea else None
  }

  function PerspectiveOf(catalog: Tables.Catalog, icon: Option<string>): Option<string> {
    if Truthy(icon) && icon.value in catalog.perspectives then Some(PerspectiveClause(catalog, icon.value)) else None
  }

  function AssumptionsOf(assumptions: Option<string>): Option<string> {
    if HasAssumptions(assumptions) then assumptions else None
  }

  /**
   With tables keyed like the application's, the technique block is there
   exactly for the names of the eight techniques.
   */
  lemma KnownTechniqueBlock(catalog: Tables.Catalog, name: string)
    requires catalog.contexts.Keys == Tables.TechniqueNames
    ensures ContextOf(catalog, name).Some? <==> Tables.TechniqueNamed(name).Some?
  {
  }

  /**
   With tables keyed like the application's, the perspective block is there
   exactly for the names of the seventeen icons.
   */
  lemma KnownPerspectiveBlock(catalog: Tables.Catalog, icon: Option<string>)
    requires catalog.perspectives.Keys == Tables.IconNames
    ensures PerspectiveOf(catalog, icon).Some? <==> icon.Some? && Tables.IconNamed(icon.value).Some?
  {
  }

  /**
   The layout `build_prompt` promises for its inputs: the technique named
   whether known or not; its description exactly when it is a table key;
   the business area exactly when it is a non-empty string (not trimmed);
   the icon's perspective exactly when the icon is a non-empty table key,
   and then in full; the issue verbatim; the assumptions, unstripped,
   exactly when they are not all whitespace.
   */
  function Intended(catalog: Tables.Catalog, technique: string, businessArea: Option<string>, icon: Option<string>,
                    issue: string, assumptions: Option<string>): Layout
  {
    Layout(technique, ContextOf(catalog, technique), BusinessOf(businessArea), PerspectiveOf(catalog, icon),
           issue, AssumptionsOf(assumptions))
  }

  lemma ReadAssumptionsBlock(assumptions: Option<string>)
    ensures ParseAssumptionsAndClosing(AssumptionsBlock(assumptions) + Closing) == Some(AssumptionsOf(assumptions))
  {
    if HasAssumptions(assumptions) {
      ReadPresentAssumptions(assumptions);
    } else {
      ReadNoBlock(AssumptionsBlock(assumptions));
    }
  }

  lemma ReadPresentAssumptions(assumptions: Option<string>)
    requires HasAssumptions(assumptions)
    ensures ParseAssumptionsAndClosing(AssumptionsBlock(assumptions) + Closing) == Some(AssumptionsOf(assumptions))
  {
    assert AssumptionsBlock(assumptions) == [AssumptionsHeader, assumptions.value, ""];
    ReadAssumptionsLines(assumptions.value);
  }

  lemma ReadNoBlock(block: seq<string>)
    requires block == []
    ensures ParseAssumptionsAndClosing(block + Closing) == Some(None)
  {
    assert block + Closing == Closing;
    ReadClosingOnly();
  }

  lemma ReadAssumptionsLines(text: string)
    ensures ParseAssumptionsAndClosing([AssumptionsHeader, text, ""] + Closing) == Some(Some(text))
  {
    ThreeLinesThen(AssumptionsHeader, text, "", [], Closing);
    assert [AssumptionsHeader, text, ""] + [] == [AssumptionsHeader, text, ""];
  }

  lemma ReadClosingOnly()
    ensures ParseAssumptionsAndClosing(Closing) == Some(None)
  {
    assert |Closing[0]| != |AssumptionsHeader|;
  }

  lemma ParseBuiltTail(issue: string, assumptions: Option<string>)
    ensures ParseTail(IssueBlock(issue) + AssumptionsBlock(assumptions) + Closing)
            == Some((issue, AssumptionsOf(assumptions)))
  {
    ThreeLinesThen(IssueHeader, issue, "", AssumptionsBlock(assumptions), Closing);
    ReadAssumptionsBlock(assumptions);
  }

  /** The first three lines of a run that starts with three known lines, and what follows them. */
  lemma ThreeLinesThen(a: string, b: string, c: string, x: seq<string>, y: seq<string>)
    ensures var lines := [a, b, c] + x + y;
            |lines| >= 3 && lines[0] == a && lines[1] == b && lines[2] == c && lines[3..] == x + y
  {
    var lines := [a, b, c] + x + y;
    assert lines[3..] == x + y;
  }

  lemma ReadTechniqueBlock(catalog: Tables.Catalog, technique: string, rest: seq<string>)
    requires |rest| >= 1 && |rest[0]| >= 1 && rest[0][0] in {'B', 'P', 'C'}
    ensures OptionalBlock(TechniqueBlock(catalog, technique) + rest, ContextPrefix, "") == (ContextOf(catalog, technique), rest)
  {
    if technique in catalog.contexts {
      var text := catalog.contexts[technique];
      assert ContextPrefix + text + "" == ContextPrefix + text;
      OptionalPresent(ContextPrefix, catalog.contexts[technique], "", rest);
    } else {
      assert ContextPrefix[0] == 'T';
      assert TechniqueBlock(catalog, technique) + rest == rest;
      OptionalAbsent(rest, ContextPrefix, "");
    }
  }

  lemma ReadBusinessBlock(businessArea: Option<string>, rest: seq<string>)
    requires |rest| >= 1 && |rest[0]| >= 1 && rest[0][0] in {'P', 'C'}
    ensures OptionalBlock(BusinessBlock(businessArea) + rest, BusinessPrefix, BusinessSuffix) == (BusinessOf(businessArea), rest)
    ensures var r := BusinessBlock(businessArea) + rest; |r| >= 1 && |r[0]| >= 1 && r[0][0] in {'B', 'P', 'C'}
  {
    if Truthy(businessArea) {
      OptionalPresent(BusinessPrefix, businessArea.value, BusinessSuffix, rest);
      var r := BusinessBlock(businessArea) + rest;
      assert r[0] == BusinessPrefix + businessArea.value + BusinessSuffix;
    } else {
      assert BusinessPrefix[0] == 'B';
      assert BusinessBlock(businessArea) + rest == rest;
      OptionalAbsent(rest, BusinessPrefix, BusinessSuffix);
    }
  }

  lemma ReadPerspectiveBlock(catalog: Tables.Catalog, icon: Option<string>, rest: seq<string>)
    requires |rest| >= 1 && |rest[0]| >= 1 && rest[0][0] == 'C'
    ensures OptionalBlock(PerspectiveBlock(catalog, icon) + rest, PerspectivePrefix, PerspectiveSuffix) == (PerspectiveOf(catalog, icon), rest)
    ensures var r := PerspectiveBlock(catalog, icon) + rest; |r| >= 1 && |r[0]| >= 1 && r[0][0] in {'P', 'C'}
  {
    if Truthy(icon) && icon.value in catalog.perspectives {
      var clause := PerspectiveClause(catalog, icon.value);
      OptionalPresent(PerspectivePrefix, clause, PerspectiveSuffix, rest);
      var r := PerspectiveBlock(catalog, icon) + rest;
      assert r[0] == PerspectivePrefix + clause + PerspectiveSuffix;
    } else {
      assert PerspectivePrefix[0] == 'P';
      assert PerspectiveBlock(catalog, icon) + rest == rest;
      OptionalAbsent(rest, PerspectivePrefix, PerspectiveSuffix);
    }
  }

  lemma ParseBuiltOptionalBlocks(catalog: Tables.Catalog, technique: string, businessArea: Option<string>, icon: Option<string>,
                                 rest: seq<string>)
    requires |rest| >= 1 && |rest[0]| >= 1 && rest[0][0] == 'C'
    ensures ParseOptionalBlocks(TechniqueBlock(catalog, technique) + BusinessBlock(businessArea) + PerspectiveBlock(catalog, icon) + rest)
            == (ContextOf(catalog, technique), BusinessOf(businessArea), PerspectiveOf(catalog, icon), rest)
  {
    var tb, bb, pb := TechniqueBlock(catalog, technique), BusinessBlock(businessArea), PerspectiveBlock(catalog, icon);
    var r2 := pb + rest;
    var r1 := bb + r2;
    ReadPerspectiveBlock(catalog, icon, rest);
    ReadBusinessBlock(businessArea, r2);
    ReadTechniqueBlock(catalog, technique, r1);
    RegroupFour(tb, bb, pb, rest);
  }

  lemma RegroupFour(a: seq<string>, b: seq<string>, c: seq<string>, d: seq<string>)
    ensures a + b + c + d == a + (b + (c + d))
  {
  }

  lemma RegroupLines(upper: seq<string>, issue: seq<string>, assumptions: seq<string>, closing: seq<string>)
    ensures (upper + issue + assumptions) + closing == upper + (issue + assumptions + closing)
  {
  }

  /** Reading the built lines back yields the promised layout. */
  lemma ParseBuiltLines(catalog: Tables.Catalog, technique: string, businessArea: Option<string>, icon: Option<string>,
                        issue: string, assumptions: Option<string>)
    ensures ParseLines(PromptLines(catalog, technique, businessArea, icon, issue, assumptions))
            == Some(Intended(catalog, technique, businessArea, icon, issue, assumptions))
  {
    var upper := TechniqueBlock(catalog, technique) + BusinessBlock(businessArea) + PerspectiveBlock(catalog, icon);
    var tail := IssueBlock(issue) + AssumptionsBlock(assumptions) + Closing;
    var lines := PromptLines(catalog, technique, businessArea, icon, issue, assumptions);
    var blocks := Blocks(catalog, technique, businessArea, icon, issue, assumptions);
    ThreeLinesThen(RoleLine, ApplyPrefix + technique + ApplySuffix, "", blocks, Closing);
    RegroupLines(upper, IssueBlock(issue), AssumptionsBlock(assumptions), Closing);
    BetweenRecovers(ApplyPrefix, technique, ApplySuffix);
    ThreeLinesThen(IssueHeader, issue, "", AssumptionsBlock(assumptions), Closing);
    ParseBuiltOptionalBlocks(catalog, technique, businessArea, icon, tail);
    ParseBuiltTail(issue, assumptions);
  }

  // ----- Reading prompt text back -----

  /**
   None of the builder's fixed lines and line fragments contains a newline.
   This holds of the constants above; it is kept as a named hypothesis
   because the verifier does not reason about the characters of string
   literals this long.
   */
  predicate FixedTextsSingleLine() {
    && SingleLine(RoleLine) && SingleLine(ApplyPrefix) && SingleLine(ApplySuffix)
    && SingleLine(ContextPrefix) && SingleLine(BusinessPrefix) && SingleLine(BusinessSuffix)
    && SingleLine(PerspectivePrefix) && SingleLine(PerspectiveJoint) && SingleLine(PerspectiveSuffix)
    && SingleLine(IssueHeader) && SingleLine(AssumptionsHeader) && AllSingleLine(Closing)
  }

  /** No technique description, icon name or perspective contains a newline. */
  predicate CatalogSingleLine(catalog: Tables.Catalog) {
    && (forall name :: name in catalog.contexts ==> SingleLine(catalog.contexts[name]))
    && (forall name :: name in catalog.perspectives ==> SingleLine(name) && SingleLine(catalog.perspectives[name]))
  }

  /** The user-supplied texts that end up in the prompt are single lines. */
  predicate InputsSingleLine(technique: string, businessArea: Option<string>, issue: string, assumptions: Option<string>) {
    && SingleLine(technique) && SingleLine(issue)
    && (businessArea.Some? ==> SingleLine(businessArea.value))
    && (assumptions.Some? ==> SingleLine(assumptions.value))
  }

  lemma UpperBlocksSingleLine(catalog: Tables.Catalog, technique: string, businessArea: Option<string>, icon: Option<string>)
    requires FixedTextsSingleLine() && CatalogSingleLine(catalog)
    requires SingleLine(technique) && (businessArea.Some? ==> SingleLine(businessArea.value))
    ensures AllSingleLine(Preamble(technique))
    ensures AllSingleLine(TechniqueBlock(catalog, technique))
    ensures AllSingleLine(BusinessBlock(businessArea))
  {
    SingleLineConcat(ApplyPrefix, technique);
    SingleLineConcat(ApplyPrefix + technique, ApplySuffix);
    if technique in catalog.contexts {
      SingleLineConcat(ContextPrefix, catalog.contexts[technique]);
    }
    if Truthy(businessArea) {
      SingleLineConcat(BusinessPrefix, businessArea.value);
      SingleLineConcat(BusinessPrefix + businessArea.value, BusinessSuffix);
    }
  }

  lemma PerspectiveBlockSingleLine(catalog: Tables.Catalog, icon: Option<string>)
    requires FixedTextsSingleLine() && CatalogSingleLine(catalog)
    ensures AllSingleLine(PerspectiveBlock(catalog, icon))
  {
    if Truthy(icon) && icon.value in catalog.perspectives {
      var name := icon.value;
      SingleLineConcat(name, PerspectiveJoint);
      SingleLineConcat(name + PerspectiveJoint, catalog.perspectives[name]);
      SingleLineConcat(PerspectivePrefix, PerspectiveClause(catalog, name));
      SingleLineConcat(PerspectivePrefix + PerspectiveClause(catalog, name), PerspectiveSuffix);
    }
  }

  lemma PromptLinesSingleLine(catalog: Tables.Catalog, technique: string, businessArea: Option<string>, icon: Option<string>,
                              issue: string, assumptions: Option<string>)
    requires FixedTextsSingleLine() && CatalogSingleLine(catalog)
    requires InputsSingleLine(technique, businessArea, issue, assumptions)
    ensures AllSingleLine(PromptLines(catalog, technique, businessArea, icon, issue, assumptions))
    ensures |PromptLines(catalog, technique, businessArea, icon, issue, assumptions)| >= 1
  {
    UpperBlocksSingleLine(catalog, technique, businessArea, icon);
    PerspectiveBlockSingleLine(catalog, icon);
    LowerBlocksSingleLine(issue, assumptions);
    AllSingleLineLayout(Preamble(technique), TechniqueBlock(catalog, technique), BusinessBlock(businessArea),
                        PerspectiveBlock(catalog, icon), IssueBlock(issue), AssumptionsBlock(assumptions), Closing);
  }

  lemma LowerBlocksSingleLine(issue: string, assumptions: Option<string>)
    requires FixedTextsSingleLine()
    requires SingleLine(issue) && (assumptions.Some? ==> SingleLine(assumptions.value))
    ensures AllSingleLine(IssueBlock(issue)) && AllSingleLine(AssumptionsBlock(assumptions))
    ensures AllSingleLine(Closing)
  {
  }

  lemma AllSingleLineLayout(pre: seq<string>, tb: seq<string>, bb: seq<string>, pb: seq<string>,
                            ib: seq<string>, ab: seq<string>, closing: seq<string>)
    requires AllSingleLine(pre) && AllSingleLine(tb) && AllSingleLine(bb) && AllSingleLine(pb)
    requires AllSingleLine(ib) && AllSingleLine(ab) && AllSingleLine(closing)
    ensures AllSingleLine(pre + ((tb + bb + pb) + ib + ab) + closing)
  {
    AllSingleLineConcat(tb, bb);
    AllSingleLineConcat(tb + bb, pb);
    AllSingleLineConcat(tb + bb + pb, ib);
    AllSingleLineConcat(tb + bb + pb + ib, ab);
    AllSingleLineConcat(pre, tb + bb + pb + ib + ab);
    AllSingleLineConcat(pre + (tb + bb + pb + ib + ab), closing);
  }

  /** Reads prompt text back: split it into lines, then read the lines. */
  function ParsePrompt(prompt: string): Option<Layout> {
    ParseLines(Split(prompt))
  }

  /**
   When every user-supplied text is a single line, the prompt text alone
   determines the promised layout.
   */
  lemma ParseBuiltPrompt(catalog: Tables.Catalog, technique: string, businessArea: Option<string>, icon: Option<string>,
                         issue: string, assumptions: Option<string>)
    requires FixedTextsSingleLine() && CatalogSingleLine(catalog)
    requires InputsSingleLine(technique, businessArea, issue, assumptions)
    ensures ParsePrompt(BuildPrompt(catalog, technique, businessArea, icon, issue, assumptions))
            == Some(Intended(catalog, technique, businessArea, icon, issue, assumptions))
  {
    PromptSplits(catalog, technique, businessArea, icon, issue, assumptions);
    ParseBuiltLines(catalog, technique, businessArea, icon, issue, assumptions);
  }

  /** Splitting the prompt text at its newlines gives back the lines it was joined from. */
  lemma PromptSplits(catalog: Tables.Catalog, technique: string, businessArea: Option<string>, icon: Option<string>,
                     issue: string, assumptions: Option<string>)
    requires FixedTextsSingleLine() && CatalogSingleLine(catalog)
    requires InputsSingleLine(technique, businessArea, issue, assumptions)
    ensures Split(BuildPrompt(catalog, technique, businessArea, icon, issue, assumptions))
            == PromptLines(catalog, technique, businessArea, icon, issue, assumptions)
  {
    PromptLinesSingleLine(catalog, technique, businessArea, icon, issue, assumptions);
    SplitJoin(PromptLines(catalog, technique, businessArea, icon, issue, assumptions));
  }

  /**
   The issue is embedded without escaping: an issue that spans several lines
   can reproduce the assumptions block, so two different requests give the
   same prompt text.
   */
  lemma ForgedIssueText(header: string, issue: string, marker: string, forged: string)
    ensures Join([header, issue + [Newline, Newline] + marker + [Newline] + forged, ""])
            == Join([header, issue, ""] + [marker, forged, ""])
  {
    JoinThree(header, issue + [Newline, Newline] + marker + [Newline] + forged, "");
    JoinAppend([header, issue, ""], [marker, forged, ""]);
    JoinThree(header, issue, "");
    JoinThree(marker, forged, "");
  }

  lemma IssueCanForgeAssumptions(catalog: Tables.Catalog, technique: string, businessArea: Option<string>, icon: Option<string>,
                                 issue: string, forged: string)
    requires HasAssumptions(Some(forged))
    ensures BuildPrompt(catalog, technique, businessArea, icon, issue + [Newline, Newline] + AssumptionsHeader + [Newline] + forged, None)
            == BuildPrompt(catalog, technique, businessArea, icon, issue, Some(forged))
  {
    var forging := issue + [Newline, Newline] + AssumptionsHeader + [Newline] + forged;
    var upper := TechniqueBlock(catalog, technique) + BusinessBlock(businessArea) + PerspectiveBlock(catalog, icon);
    var head := Preamble(technique) + upper;
    var one := IssueBlock(forging);
    var two := IssueBlock(issue) + [AssumptionsHeader, forged, ""];
    RegroupPair(Preamble(technique), upper, one, AssumptionsBlock(None), Closing);
    assert one + AssumptionsBlock(None) == one;
    RegroupPair(Preamble(technique), upper, IssueBlock(issue), AssumptionsBlock(Some(forged)), Closing);
    ForgedIssueText(IssueHeader, issue, AssumptionsHeader, forged);
    JoinAround(head, one, Closing);
    JoinAround(head, two, Closing);
  }
}
