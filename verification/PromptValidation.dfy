/** services/prompts/validation.py: the structural validator of a rendered prompt. */
module PromptValidation {
  import opened Base
  import opened Text

  datatype FieldSpec = FieldSpec(name: string, required: bool)

  datatype Section = Section(heading: string, fields: seq<FieldSpec>)

  /** The parts of a prompt contract that the structural validator reads. */
  datatype Contract = Contract(
    prefix: string,
    sections: seq<Section>,
    instructionLines: seq<string>,
    frameworkItems: seq<string>,
    outputLines: seq<string>)

  datatype Error =
    | Prefix | MissingSection | SectionOrder
    | MissingContextField | ContextFieldOrder
    | DreamLogEmpty | DreamEntryShape(index: nat) | DreamEntryIndex(index: nat)
    | DreamEntryText(index: nat) | DreamEntryTimestamp(index: nat)
    | MissingSummaryField | SummaryFieldOrder
    | Instructions | Framework | OutputFormat

  // str.index on an absent text, and int() on a text that is not a number.
  datatype Exception = ValueError

  const NO_DREAMS := "(no dreams provided)"
  const MARKER := "[DREAM "
  const TEXT := "text: "
  const TIMESTAMP := "timestamp: "

  // ---------------------------------------------------------------- specification

  function SectionBody(prompt: string, heading: string, next: Option<string>): Option<string> {
    match Find(prompt, heading, 0)
    case None => None
    case Some(p) =>
      var start := p + |heading|;
      if next.None? then Some(LStripNewlines(prompt[start..]))
      else
        match Find(prompt, next.value, start)
        case None => None
        case Some(end) => Some(StripNewlines(prompt[start..end]))
  }

  predicate IsLabelChar(c: char) {
    'a' <= c <= 'z' || c == '_'
  }

  function LabelEnd(line: string): (n: nat)
    ensures n <= |line| && (n < |line| ==> !IsLabelChar(line[n]))
    ensures forall i :: 0 <= i < n ==> IsLabelChar(line[i])
  {
    if line == "" || !IsLabelChar(line[0]) then 0 else LabelEnd(line[1..]) + 1
  }

  /** The match of ^([a-z_]+): (.+)$ on one line, as label and value. */
  function ParseField(line: string): Option<(string, string)> {
    var n := LabelEnd(line);
    if 0 < n && n + 2 < |line| && line[n] == ':' && line[n + 1] == ' ' then Some((line[..n], line[n + 2..])) else None
  }

  /** The fields of the lines; a label that comes twice keeps its last value. */
  function FieldsOf(lines: seq<string>): map<string, string> {
    if lines == [] then map[]
    else
      var before := FieldsOf(lines[..|lines| - 1]);
      match ParseField(lines[|lines| - 1])
      case None => before
      case Some(field) => before[field.0 := field.1]
  }

  function NamesOf(lines: seq<string>): seq<string> {
    if lines == [] then []
    else
      var before := NamesOf(lines[..|lines| - 1]);
      match ParseField(lines[|lines| - 1])
      case None => before
      case Some(field) => before + [field.0]
  }

  function Names(specs: seq<FieldSpec>): (r: seq<string>)
    ensures |r| == |specs| && forall i :: 0 <= i < |r| ==> r[i] == specs[i].name
  {
    seq(|specs|, i requires 0 <= i < |specs| => specs[i].name)
  }

  predicate HasRequired(specs: seq<FieldSpec>, fields: map<string, string>) {
    forall i :: 0 <= i < |specs| && specs[i].required ==> specs[i].name in fields
  }

  function FieldErrorOf(
    fields: map<string, string>, names: seq<string>, specs: seq<FieldSpec>, missing: Error, order: Error): Option<Error>
  {
    if !HasRequired(specs, fields) then Some(missing) else if names != Names(specs) then Some(order) else None
  }

  function FieldError(body: string, specs: seq<FieldSpec>, missing: Error, order: Error): Option<Error> {
    FieldErrorOf(FieldsOf(SplitLines(body)), NamesOf(SplitLines(body)), specs, missing, order)
  }

  /** The number in a line that matches ^\[DREAM (\d+)\]$ */
  function MarkerIndex(line: string): Option<nat> {
    if |line| > |MARKER| && line[..|MARKER|] == MARKER && line[|line| - 1] == ']' && '_' !in line
    then Digits(line[|MARKER|..|line| - 1])
    else None
  }

  predicate StartsWith(s: string, prefix: string) {
    |prefix| <= |s| && s[..|prefix|] == prefix
  }

  function BlockError(block: string, index: nat): Option<Error> {
    var lines := SplitLines(block);
    if |lines| != 3 then Some(DreamEntryShape(index))
    else if MarkerIndex(lines[0]) != Some(index) then Some(DreamEntryIndex(index))
    else if !StartsWith(lines[1], TEXT) then Some(DreamEntryText(index))
    else if !StartsWith(lines[2], TIMESTAMP) then Some(DreamEntryTimestamp(index))
    else None
  }

  /** The first error of blocks[k..]; block k is dream k + 1. */
  function BlocksError(blocks: seq<string>, k: nat): Option<Error>
    requires k <= |blocks|
    decreases |blocks| - k
  {
    if k == |blocks| then None
    else if BlockError(blocks[k], k + 1).Some? then BlockError(blocks[k], k + 1)
    else BlocksError(blocks, k + 1)
  }

  function InkedBlocks(chunks: seq<string>): seq<string> {
    if chunks == [] then []
    else
      var before, last := InkedBlocks(chunks[..|chunks| - 1]), Strip(chunks[|chunks| - 1]);
      if last == "" then before else before + [last]
  }

  function DreamError(body: string, dreamCount: int): Option<Error> {
    if dreamCount == 0 then (if body == NO_DREAMS then None else Some(DreamLogEmpty))
    else BlocksError(InkedBlocks(SplitOn(body, "\n\n")), 0)
  }

  function FixedError(body: string, required: seq<string>, code: Error): Option<Error> {
    if exists i :: 0 <= i < |required| && !Contains(body, required[i]) then Some(code) else None
  }

  function Position(prompt: string, heading: string): nat
    requires Find(prompt, heading, 0).Some?
  {
    Find(prompt, heading, 0).value
  }

  predicate AllPresent(prompt: string, sections: seq<Section>) {
    forall i :: 0 <= i < |sections| ==> Find(prompt, sections[i].heading, 0).Some?
  }

  predicate InOrder(prompt: string, sections: seq<Section>)
    requires AllPresent(prompt, sections)
  {
    forall i, j :: 0 <= i < j < |sections| ==>
      Position(prompt, sections[i].heading) <= Position(prompt, sections[j].heading)
  }

  function NextHeading(sections: seq<Section>, k: nat): Option<string> {
    if k + 1 < |sections| then Some(sections[k + 1].heading) else None
  }

  predicate Extracts(prompt: string, sections: seq<Section>) {
    forall k :: 0 <= k < |sections| ==> SectionBody(prompt, sections[k].heading, NextHeading(sections, k)).Some?
  }

  function Body(prompt: string, sections: seq<Section>, k: nat): string
    requires k < |sections| && Extracts(prompt, sections)
  {
    SectionBody(prompt, sections[k].heading, NextHeading(sections, k)).value
  }

  function Listed(e: Option<Error>): seq<Error> {
    if e.Some? then [e.value] else []
  }

  function Collected(
    a: Option<Error>, b: Option<Error>, c: Option<Error>, d: Option<Error>, e: Option<Error>, f: Option<Error>): seq<Error>
  {
    Listed(a) + Listed(b) + Listed(c) + Listed(d) + Listed(e) + Listed(f)
  }

  function DreamCount(body: string): Option<int> {
    var fields := FieldsOf(SplitLines(body));
    if "dream_count" in fields then PyInt(fields["dream_count"]) else Some(0)
  }

  function BodyViolations(bodies: seq<string>, c: Contract): Result<seq<Error>, Exception>
    requires |c.sections| == 6 && |bodies| == 6
  {
    var count := DreamCount(bodies[0]);
    if count.None? then Err(ValueError)
    else
      Ok(Collected(
        FieldError(bodies[0], c.sections[0].fields, MissingContextField, ContextFieldOrder),
        DreamError(bodies[1], count.value),
        FieldError(bodies[2], c.sections[2].fields, MissingSummaryField, SummaryFieldOrder),
        FixedError(bodies[3], c.instructionLines, Instructions),
        FixedError(bodies[4], c.frameworkItems, Framework),
        FixedError(bodies[5], c.outputLines, OutputFormat)))
  }

  /** The violations the validator reports, or the exception that escapes it. */
  function Violations(prompt: string, c: Contract): Result<seq<Error>, Exception>
    requires |c.sections| == 6
  {
    if !StartsWith(prompt, c.prefix) then Ok([Prefix])
    else if !AllPresent(prompt, c.sections) then Ok([MissingSection])
    else if !InOrder(prompt, c.sections) then Ok([SectionOrder])
    else if !Extracts(prompt, c.sections) then Err(ValueError)
    else
      BodyViolations(seq(6, k requires 0 <= k < 6 => Body(prompt, c.sections, k)), c)
  }

  // ---------------------------------------------------------------- the loops

  lemma Init<T>(s: seq<T>, k: nat)
    requires k < |s|
    ensures s[..k + 1][..|s[..k + 1]| - 1] == s[..k] && s[..k + 1][|s[..k + 1]| - 1] == s[k]
  {
  }

  method ParseFieldLines(body: string) returns (fields: map<string, string>)
    ensures fields == FieldsOf(SplitLines(body))
  {
    var lines := SplitLines(body);
    fields := map[];
    for i := 0 to |lines|
      invariant fields == FieldsOf(lines[..i])
    {
      Init(lines, i);
      var match_ := ParseField(lines[i]);
      if match_.Some? { fields := fields[match_.value.0 := match_.value.1]; }
    }
    assert lines[..|lines|] == lines;
  }

  method FieldOrder(body: string) returns (actualOrder: seq<string>)
    ensures actualOrder == NamesOf(SplitLines(body))
  {
    var lines := SplitLines(body);
    actualOrder := [];
    for i := 0 to |lines|
      invariant actualOrder == NamesOf(lines[..i])
    {
      Init(lines, i);
      var match_ := ParseField(lines[i]);
      if match_.Some? { actualOrder := actualOrder + [match_.value.0]; }
    }
    assert lines[..|lines|] == lines;
  }

  method CheckRequired(fields: map<string, string>, specs: seq<FieldSpec>) returns (ok: bool)
    ensures ok == HasRequired(specs, fields)
  {
    for i := 0 to |specs|
      invariant forall j :: 0 <= j < i && specs[j].required ==> specs[j].name in fields
    {
      if specs[i].required && specs[i].name !in fields { return false; }
    }
    ok := true;
  }

  method ValidateFieldSection(body: string, specs: seq<FieldSpec>, missing: Error, order: Error)
    returns (e: Option<Error>)
    ensures e == FieldError(body, specs, missing, order)
  {
    var fields := ParseFieldLines(body);
    var complete := CheckRequired(fields, specs);
    if !complete { return Some(missing); }
    var actualOrder := FieldOrder(body);
    e := if actualOrder != Names(specs) then Some(order) else None;
  }

  method ValidateDreamSection(body: string, dreamCount: int) returns (e: Option<Error>)
    ensures e == DreamError(body, dreamCount)
  {
    if dreamCount == 0 {
      return if body != NO_DREAMS then Some(DreamLogEmpty) else None;
    }
    var chunks := SplitOn(body, "\n\n");
    var blocks: seq<string> := [];
    for i := 0 to |chunks|
      invariant blocks == InkedBlocks(chunks[..i])
    {
      Init(chunks, i);
      if Strip(chunks[i]) != "" { blocks := blocks + [Strip(chunks[i])]; }
    }
    assert chunks[..|chunks|] == chunks;
    for k := 0 to |blocks|
      invariant BlocksError(blocks, 0) == BlocksError(blocks, k)
    {
      var lines := SplitLines(blocks[k]);
      if |lines| != 3 { return Some(DreamEntryShape(k + 1)); }
      if MarkerIndex(lines[0]) != Some(k + 1) { return Some(DreamEntryIndex(k + 1)); }
      if !StartsWith(lines[1], TEXT) { return Some(DreamEntryText(k + 1)); }
      if !StartsWith(lines[2], TIMESTAMP) { return Some(DreamEntryTimestamp(k + 1)); }
    }
    e := None;
  }

  method ValidateFixedSection(body: string, required: seq<string>, code: Error) returns (e: Option<Error>)
    ensures e == FixedError(body, required, code)
  {
    for i := 0 to |required|
      invariant forall j :: 0 <= j < i ==> Contains(body, required[j])
    {
      if !Contains(body, required[i]) { return Some(code); }
    }
    e := None;
  }

  lemma ContainsIsFind(s: string, pat: string)
    ensures Contains(s, pat) <==> Find(s, pat, 0).Some?
  {
    if Find(s, pat, 0).Some? { assert Occurs(pat, s, Find(s, pat, 0).value); }
  }

  method ExtractBodies(prompt: string, sections: seq<Section>) returns (bodies: Result<seq<string>, Exception>)
    ensures bodies.Ok? <==> Extracts(prompt, sections)
    ensures bodies.Ok? ==> |bodies.value| == |sections|
    ensures bodies.Ok? ==> forall k :: 0 <= k < |sections| ==> bodies.value[k] == Body(prompt, sections, k)
  {
    var found: seq<string> := [];
    for k := 0 to |sections|
      invariant |found| == k
      invariant forall i :: 0 <= i < k ==>
        SectionBody(prompt, sections[i].heading, NextHeading(sections, i)) == Some(found[i])
    {
      var body := SectionBody(prompt, sections[k].heading, NextHeading(sections, k));
      if body.None? { return Err(ValueError); }
      found := found + [body.value];
    }
    bodies := Ok(found);
  }

  method ValidateBodies(b: seq<string>, c: Contract) returns (r: Result<seq<Error>, Exception>)
    requires |c.sections| == 6 && |b| == 6
    ensures r == BodyViolations(b, c)
  {
    var contextError := ValidateFieldSection(b[0], c.sections[0].fields, MissingContextField, ContextFieldOrder);
    var errors := Listed(contextError);
    var fields := ParseFieldLines(b[0]);
    var count := if "dream_count" in fields then PyInt(fields["dream_count"]) else Some(0);
    if count.None? { return Err(ValueError); }
    var dreamError := ValidateDreamSection(b[1], count.value);
    errors := errors + Listed(dreamError);
    var summaryError := ValidateFieldSection(b[2], c.sections[2].fields, MissingSummaryField, SummaryFieldOrder);
    errors := errors + Listed(summaryError);
    var instructionsError := ValidateFixedSection(b[3], c.instructionLines, Instructions);
    errors := errors + Listed(instructionsError);
    var frameworkError := ValidateFixedSection(b[4], c.frameworkItems, Framework);
    errors := errors + Listed(frameworkError);
    var outputError := ValidateFixedSection(b[5], c.outputLines, OutputFormat);
    errors := errors + Listed(outputError);
    r := Ok(errors);
  }

  method CheckPresence(prompt: string, sections: seq<Section>) returns (present: bool)
    ensures present == AllPresent(prompt, sections)
  {
    for i := 0 to |sections|
      invariant AllPresent(prompt, sections[..i])
    {
      ContainsIsFind(prompt, sections[i].heading);
      if !Contains(prompt, sections[i].heading) { return false; }
    }
    assert sections[..|sections|] == sections;
    present := true;
  }

  method ValidatePromptStructure(prompt: string, c: Contract) returns (r: Result<seq<Error>, Exception>)
    requires |c.sections| == 6
    ensures r == Violations(prompt, c)
  {
    if !StartsWith(prompt, c.prefix) { return Ok([Prefix]); }
    var present := CheckPresence(prompt, c.sections);
    if !present { return Ok([MissingSection]); }
    if !InOrder(prompt, c.sections) { return Ok([SectionOrder]); }
    var bodies := ExtractBodies(prompt, c.sections);
    if bodies.Err? { return Err(ValueError); }
    assert bodies.value == seq(6, k requires 0 <= k < 6 => Body(prompt, c.sections, k));
    r := ValidateBodies(bodies.value, c);
  }
}
