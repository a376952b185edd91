/** services/prompts/compiler.py: from stored dreams and a session summary to the prompt text. */
module PromptCompiler {
  import opened Base
  import opened Text
  import opened PromptValidation

  datatype Context = Context(
    sessionId: string, userId: int, dreamCount: int, duration: string, lastActivity: string)

  datatype Entry = Entry(index: int, text: string, timestamp: string)

  datatype Summary = Summary(keySymbols: seq<string>, recurring: seq<string>, sample: string)

  /** The intermediate representation of a prompt. */
  datatype Compiled = Compiled(context: Context, dreams: seq<Entry>, summary: Summary)

  /** The fixed lines of the last three sections, read from the prompt asset. */
  datatype Fixed = Fixed(instructions: seq<string>, framework: seq<string>, output: seq<string>)

  // ---------------------------------------------------------------- formatting

  function Separated(values: seq<string>): string {
    if values == [] then ""
    else if |values| == 1 then values[0]
    else values[0] + ", " + Separated(values[1..])
  }

  function FormatList(values: seq<string>): string {
    if values == [] then "[]" else "[" + Separated(values) + "]"
  }

  /** A duration in whole seconds; Python's int() truncates the fraction. */
  function FormatDuration(seconds: Option<int>): string {
    if seconds.None? || seconds.value < 0 then "N/A"
    else
      var n: nat := seconds.value;
      Decimal(n / 3600) + "h " + Decimal(n % 3600 / 60) + "m " + Decimal(n % 3600 % 60) + "s"
  }

  // ---------------------------------------------------------------- compiling

  datatype Dream = Dream(id: DreamId, createdAt: Time, text: string)

  datatype StoredSummary = StoredSummary(
    sessionId: SessionId, userId: UserId, dreamCount: int,
    keySymbols: seq<string>, recurring: seq<string>, sample: Option<string>)

  // Identifiers and instants as the standard library writes them.
  datatype Formats = Formats(uuid: SessionId -> string, date: Time -> string)

  /** The order of _sort_dreams. */
  predicate Before(a: Dream, b: Dream) {
    a.createdAt < b.createdAt || (a.createdAt == b.createdAt && a.id <= b.id)
  }

  function Insert(d: Dream, sorted: seq<Dream>): (r: seq<Dream>)
    ensures multiset(r) == multiset(sorted) + multiset{d}
  {
    if sorted == [] then [d]
    else if Before(d, sorted[0]) then
      assert [sorted[0]] + sorted[1..] == sorted;
      [d] + sorted
    else
      assert [sorted[0]] + sorted[1..] == sorted;
      [sorted[0]] + Insert(d, sorted[1..])
  }

  /** sorted(dreams, key=...) is stable: an equal key keeps its place. */
  function SortDreams(dreams: seq<Dream>): (r: seq<Dream>)
    ensures multiset(r) == multiset(dreams)
  {
    if dreams == [] then []
    else
      assert [dreams[0]] + dreams[1..] == dreams;
      Insert(dreams[0], SortDreams(dreams[1..]))
  }

  function FormatDate(f: Formats, at: Option<Time>): string {
    if at.None? then "N/A" else f.date(at.value)
  }

  function Entries(f: Formats, sorted: seq<Dream>): (r: seq<Entry>)
    ensures |r| == |sorted|
    ensures forall k :: 0 <= k < |r| ==> r[k] == Entry(k + 1, sorted[k].text, f.date(sorted[k].createdAt))
  {
    seq(|sorted|, k requires 0 <= k < |sorted| => Entry(k + 1, sorted[k].text, f.date(sorted[k].createdAt)))
  }

  function Compile(
    f: Formats, s: StoredSummary, dreams: seq<Dream>, lastActivity: Option<Time>, created: Option<Time>): Compiled
  {
    var duration := if lastActivity.Some? && created.Some? then Some(lastActivity.value - created.value) else None;
    Compiled(
      Context(f.uuid(s.sessionId), s.userId, s.dreamCount, FormatDuration(duration), FormatDate(f, lastActivity)),
      Entries(f, SortDreams(dreams)),
      Summary(s.keySymbols, s.recurring, if s.sample.Some? then s.sample.value else "N/A"))
  }

  // ---------------------------------------------------------------- rendering

  function ContextLines(x: Context): seq<string> {
    ["session_id: " + x.sessionId, "user_id: " + Signed(x.userId), "dream_count: " + Signed(x.dreamCount),
     "session_duration: " + x.duration, "last_activity_at: " + x.lastActivity]
  }

  function EntryLines(e: Entry): seq<string> {
    [MARKER + Signed(e.index) + "]", TEXT + e.text, TIMESTAMP + e.timestamp, ""]
  }

  function LogLines(dreams: seq<Entry>): seq<string> {
    if dreams == [] then [] else LogLines(dreams[..|dreams| - 1]) + EntryLines(dreams[|dreams| - 1])
  }

  function DreamLines(dreams: seq<Entry>): seq<string> {
    if dreams == [] then [NO_DREAMS] else LogLines(dreams)
  }

  function SummaryLines(s: Summary): seq<string> {
    ["key_symbols: " + FormatList(s.keySymbols), "recurring_words: " + FormatList(s.recurring),
     "raw_text_sample: " + s.sample]
  }

  /** A heading and the lines under it, up to the next heading. */
  datatype Part = Part(heading: string, lines: seq<string>)

  function Parts(c: Contract, fixed: Fixed, p: Compiled): (r: seq<Part>)
    requires |c.sections| == 6
    ensures |r| == 6
  {
    [Part(c.sections[0].heading, ContextLines(p.context) + [""]),
     Part(c.sections[1].heading, DreamLines(p.dreams)),
     Part(c.sections[2].heading, SummaryLines(p.summary) + [""]),
     Part(c.sections[3].heading, fixed.instructions + [""]),
     Part(c.sections[4].heading, fixed.framework + [""]),
     Part(c.sections[5].heading, fixed.output)]
  }

  function LinesOf(parts: seq<Part>): seq<string> {
    if parts == [] then []
    else
      var last := parts[|parts| - 1];
      LinesOf(parts[..|parts| - 1]) + [last.heading] + last.lines
  }

  /** The prompt as one text: the prefix, a blank line, and the six parts. */
  function Rendered(c: Contract, fixed: Fixed, p: Compiled): string
    requires |c.sections| == 6
  {
    Join([c.prefix, ""] + LinesOf(Parts(c, fixed, p)))
  }

  lemma AddPart(parts: seq<Part>, k: nat)
    requires k < |parts|
    ensures LinesOf(parts[..k + 1]) == LinesOf(parts[..k]) + [parts[k].heading] + parts[k].lines
  {
    Init(parts, k);
  }

  lemma Reach(before: seq<string>, heading: string, lines: seq<string>, next: string)
    ensures before + [heading] + lines + ["", next] == before + [heading] + (lines + [""]) + [next]
  {
    assert lines + ["", next] == (lines + [""]) + [next];
  }

  method RenderDreams(dreams: seq<Entry>) returns (lines: seq<string>)
    ensures lines == DreamLines(dreams)
  {
    if dreams == [] { return [NO_DREAMS]; }
    lines := [];
    for i := 0 to |dreams|
      invariant lines == LogLines(dreams[..i])
    {
      Init(dreams, i);
      var e := dreams[i];
      lines := lines + [MARKER + Signed(e.index) + "]", TEXT + e.text, TIMESTAMP + e.timestamp, ""];
    }
    assert dreams[..|dreams|] == dreams;
  }

  /** What has been printed when part k begins. */
  ghost function Printed(c: Contract, fixed: Fixed, p: Compiled, k: nat): seq<string>
    requires |c.sections| == 6 && k <= 6
  {
    [c.prefix, ""] + LinesOf(Parts(c, fixed, p)[..k])
  }

  lemma PrintPart(c: Contract, fixed: Fixed, p: Compiled, k: nat)
    requires |c.sections| == 6 && k < 6
    ensures Printed(c, fixed, p, k + 1)
         == Printed(c, fixed, p, k) + [Parts(c, fixed, p)[k].heading] + Parts(c, fixed, p)[k].lines
  {
    AddPart(Parts(c, fixed, p), k);
  }

  method RenderHead(c: Contract, x: Context) returns (lines: seq<string>)
    requires |c.sections| == 6
    ensures lines == [c.prefix, ""] + [c.sections[0].heading] + (ContextLines(x) + [""]) + [c.sections[1].heading]
  {
    lines := [c.prefix, "", c.sections[0].heading,
              "session_id: " + x.sessionId,
              "user_id: " + Signed(x.userId),
              "dream_count: " + Signed(x.dreamCount),
              "session_duration: " + x.duration,
              "last_activity_at: " + x.lastActivity,
              "", c.sections[1].heading];
  }

  method RenderCompiledPrompt(c: Contract, fixed: Fixed, p: Compiled) returns (r: string)
    requires |c.sections| == 6
    ensures r == Rendered(c, fixed, p)
  {
    ghost var parts := Parts(c, fixed, p);
    assert parts[..0] == [] && parts[..6] == parts;
    var sections := RenderHead(c, p.context);
    PrintPart(c, fixed, p, 0);
    assert sections == Printed(c, fixed, p, 1) + [parts[1].heading];
    var dreams := RenderDreams(p.dreams);
    sections := sections + dreams;
    PrintPart(c, fixed, p, 1);
    assert sections == Printed(c, fixed, p, 2);
    PrintPart(c, fixed, p, 2);
    Reach(sections, parts[2].heading, SummaryLines(p.summary), parts[3].heading);
    PrintPart(c, fixed, p, 3);
    Reach(Printed(c, fixed, p, 3), parts[3].heading, fixed.instructions, parts[4].heading);
    PrintPart(c, fixed, p, 4);
    Reach(Printed(c, fixed, p, 4), parts[4].heading, fixed.framework, parts[5].heading);
    PrintPart(c, fixed, p, 5);
    sections := sections + [c.sections[2].heading] + SummaryLines(p.summary) + ["", c.sections[3].heading];
    sections := sections + fixed.instructions + ["", c.sections[4].heading];
    sections := sections + fixed.framework + ["", c.sections[5].heading];
    sections := sections + fixed.output;
    r := Join(sections);
  }
}
