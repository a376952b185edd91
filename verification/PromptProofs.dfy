/** Which rendered prompts the validator accepts, and that nothing printed in them is lost. */
module PromptProofs {
  import opened Base
  import opened Text
  import opened PromptValidation
  import opened PromptCompiler
  import opened PromptLayout
  import opened PromptSections
  import opened PromptLog

  const CONTEXT_LABELS := ["session_id", "user_id", "dream_count", "session_duration", "last_activity_at"]
  const SUMMARY_LABELS := ["key_symbols", "recurring_words", "raw_text_sample"]

  // ---------------------------------------------------------------- assumptions

  /** Fixed lines of a section: no '#', and neither the first nor the last is blank. */
  predicate FixedLines(lines: seq<string>) {
    && lines != [] && Trimmed(lines[0]) && Trimmed(lines[|lines| - 1])
    && forall i :: 0 <= i < |lines| ==> '#' !in lines[i]
  }

  predicate Covers(lines: seq<string>, required: seq<string>) {
    forall i :: 0 <= i < |required| ==> exists j :: 0 <= j < |lines| && Contains(lines[j], required[i])
  }

  /** Markdown headings, none inside another one before it. */
  ghost predicate Headings(sections: seq<Section>) {
    && (forall i :: 0 <= i < |sections| ==>
          sections[i].heading != "" && sections[i].heading[0] == '#' && '\n' !in sections[i].heading)
    && (forall i, j :: 0 <= i < j < |sections| ==> !Contains(sections[i].heading, sections[j].heading))
  }

  /** What makes a contract and the fixed lines of its asset fit each other. */
  ghost predicate ContractOk(c: Contract, fixed: Fixed) {
    && |c.sections| == 6 && Headings(c.sections) && '#' !in c.prefix
    && Names(c.sections[0].fields) == CONTEXT_LABELS && Names(c.sections[2].fields) == SUMMARY_LABELS
    && FixedLines(fixed.instructions) && FixedLines(fixed.framework) && FixedLines(fixed.output)
    && Covers(fixed.instructions, c.instructionLines)
    && Covers(fixed.framework, c.frameworkItems)
    && Covers(fixed.output, c.outputLines)
  }

  /** The text contains no heading of the sections from number `from` on. */
  predicate Free(sections: seq<Section>, s: string, from: nat) {
    forall j :: from <= j < |sections| ==> !Contains(s, sections[j].heading)
  }

  /** No printed value contains a heading that is still to come. */
  predicate Headed(c: Contract, p: Compiled) {
    && Free(c.sections, p.context.sessionId, 1)
    && Free(c.sections, p.context.duration, 1)
    && Free(c.sections, p.context.lastActivity, 1)
    && (forall k :: 0 <= k < |p.dreams| ==>
          Free(c.sections, p.dreams[k].text, 2) && Free(c.sections, p.dreams[k].timestamp, 2))
    && Free(c.sections, FormatList(p.summary.keySymbols), 3)
    && Free(c.sections, FormatList(p.summary.recurring), 3)
    && Free(c.sections, p.summary.sample, 3)
  }

  /** Besides, all values but the dream texts and the sample are single lines. */
  predicate Printable(c: Contract, p: Compiled) {
    && Headed(c, p) && AllStamped(p.dreams)
    && SingleLine(p.context.sessionId) && SingleLine(p.context.duration) && SingleLine(p.context.lastActivity)
    && SingleLine(FormatList(p.summary.keySymbols)) && SingleLine(FormatList(p.summary.recurring))
  }

  // ---------------------------------------------------------------- no heading too early

  lemma QuietFree(s: string, h: string)
    requires '#' !in s && h != "" && h[0] == '#'
    ensures !Contains(s, h)
  {
    forall p: nat | p + |h| <= |s| ensures !Occurs(h, s, p) { assert s[p..p + |h|][0] == s[p]; }
  }

  lemma PrefixFree(a: string, s: string, h: string)
    requires '#' !in a && h != "" && h[0] == '#' && !Contains(s, h)
    ensures !Contains(a + s, h)
  {
    var t := a + s;
    forall p: nat | p + |h| <= |t| ensures !Occurs(h, t, p) {
      if p < |a| {
        assert t[p..p + |h|][0] == t[p] == a[p];
      } else {
        assert t[p..p + |h|] == s[p - |a|..p - |a| + |h|];
        assert !Occurs(h, s, p - |a|);
      }
    }
  }

  ghost predicate LinesFree(lines: seq<string>, h: string) {
    forall i :: 0 <= i < |lines| ==> !Contains(lines[i], h)
  }

  lemma FieldsFree(labels: seq<string>, values: seq<string>, h: string)
    requires |labels| == |values| && Labels(labels) && h != "" && h[0] == '#'
    requires LinesFree(values, h)
    ensures LinesFree(FieldLines(labels, values) + [""], h)
  {
    forall i | 0 <= i < |labels| ensures !Contains(FieldLines(labels, values)[i], h) {
      var start := labels[i] + ": ";
      forall k | 0 <= k < |start| ensures start[k] != '#' {
        if k < |labels[i]| { assert start[k] == labels[i][k] && IsLabelChar(labels[i][k]); }
      }
      PrefixFree(start, values[i], h);
      assert start + values[i] == labels[i] + ": " + values[i];
    }
    QuietFree("", h);
  }

  lemma {:induction false} LogFree(dreams: seq<Entry>, h: string)
    requires h != "" && h[0] == '#'
    requires forall k :: 0 <= k < |dreams| ==> !Contains(dreams[k].text, h) && !Contains(dreams[k].timestamp, h)
    ensures LinesFree(LogLines(dreams), h)
  {
    if dreams != [] {
      LogFree(dreams[..|dreams| - 1], h);
      EntryFree(dreams[|dreams| - 1], h);
    }
  }

  lemma EntryFree(e: Entry, h: string)
    requires h != "" && h[0] == '#' && !Contains(e.text, h) && !Contains(e.timestamp, h)
    ensures LinesFree(EntryLines(e), h)
  {
    MarkerIsSingle(e);
    QuietFree(Marker(e), h);
    assert '#' !in TEXT && '#' !in TIMESTAMP;
    PrefixFree(TEXT, e.text, h);
    PrefixFree(TIMESTAMP, e.timestamp, h);
    QuietFree("", h);
  }

  lemma DreamsFree(dreams: seq<Entry>, h: string)
    requires h != "" && h[0] == '#'
    requires forall k :: 0 <= k < |dreams| ==> !Contains(dreams[k].text, h) && !Contains(dreams[k].timestamp, h)
    ensures LinesFree(DreamLines(dreams), h)
  {
    LogFree(dreams, h);
    forall i: nat | i < |NO_DREAMS| ensures NO_DREAMS[i] != '#' { PlaceholderIsSingle(i); }
    QuietFree(NO_DREAMS, h);
  }

  lemma FixedFree(lines: seq<string>, h: string)
    requires forall i :: 0 <= i < |lines| ==> '#' !in lines[i]
    requires h != "" && h[0] == '#'
    ensures LinesFree(lines, h) && LinesFree(lines + [""], h)
  {
    forall i | 0 <= i < |lines| ensures !Contains(lines[i], h) { QuietFree(lines[i], h); }
    QuietFree("", h);
  }

  lemma {:induction false} UptoFree(pre: seq<string>, parts: seq<Part>, k: nat, h: string)
    requires k <= |parts| && LinesFree(pre, h)
    requires forall j :: 0 <= j < k ==> !Contains(parts[j].heading, h) && LinesFree(parts[j].lines, h)
    ensures LinesFree(Upto(pre, parts, k), h)
  {
    if k == 0 {
      assert Upto(pre, parts, 0) == pre;
    } else {
      UptoFree(pre, parts, k - 1, h);
      UptoNext(pre, parts, k - 1);
    }
  }

  function Preamble(c: Contract): seq<string> {
    [c.prefix, ""]
  }

  function ContextValues(x: Context): seq<string> {
    [x.sessionId, Signed(x.userId), Signed(x.dreamCount), x.duration, x.lastActivity]
  }

  function SummaryValues(s: Summary): seq<string> {
    [FormatList(s.keySymbols), FormatList(s.recurring), s.sample]
  }

  lemma LabelsAreLabels()
    ensures Labels(CONTEXT_LABELS) && Labels(SUMMARY_LABELS)
  {
    ContextLabels();
    SummaryLabels();
  }

  lemma ContextLabels()
    ensures Labels(CONTEXT_LABELS)
  {
    assert IsLabel("session_id") && IsLabel("user_id") && IsLabel("dream_count");
    assert IsLabel("session_duration") && IsLabel("last_activity_at");
    var a, b, c, d, e := "session_id", "user_id", "dream_count", "session_duration", "last_activity_at";
    assert |a| == 10 && |b| == 7 && |c| == 11 && |d| == |e| == 16 && d[0] == 's' && e[0] == 'l';
    assert CONTEXT_LABELS == [a, b, c, d, e];
  }

  lemma SummaryLabels()
    ensures Labels(SUMMARY_LABELS)
  {
    assert IsLabel("key_symbols") && IsLabel("recurring_words") && IsLabel("raw_text_sample");
    var a, b, c := "key_symbols", "recurring_words", "raw_text_sample";
    assert |a| == 11 && |b| == |c| == 15 && b[1] == 'e' && c[1] == 'a';
    assert SUMMARY_LABELS == [a, b, c];
  }

  lemma LinesAreFields(p: Compiled)
    ensures ContextLines(p.context) == FieldLines(CONTEXT_LABELS, ContextValues(p.context))
    ensures SummaryLines(p.summary) == FieldLines(SUMMARY_LABELS, SummaryValues(p.summary))
  {
    assert "session_id" + ": " == "session_id: " && "user_id" + ": " == "user_id: ";
    assert "dream_count" + ": " == "dream_count: " && "session_duration" + ": " == "session_duration: ";
    assert "last_activity_at" + ": " == "last_activity_at: " && "key_symbols" + ": " == "key_symbols: ";
    assert "recurring_words" + ": " == "recurring_words: " && "raw_text_sample" + ": " == "raw_text_sample: ";
  }

  /** The lines of part j do not contain the heading of a later part k. */
  lemma PartFree(c: Contract, fixed: Fixed, p: Compiled, j: nat, k: nat)
    requires ContractOk(c, fixed) && Headed(c, p) && j < k < 6
    ensures LinesFree(Parts(c, fixed, p)[j].lines, c.sections[k].heading)
  {
    var h := c.sections[k].heading;
    LinesAreFields(p);
    if j == 0 {
      ContextFree(p.context, h);
    } else if j == 1 {
      DreamsFree(p.dreams, h);
    } else if j == 2 {
      SummaryFree(p.summary, h);
    } else {
      FixedFree(if j == 3 then fixed.instructions else fixed.framework, h);
    }
  }

  lemma ContextFree(x: Context, h: string)
    requires h != "" && h[0] == '#'
    requires !Contains(x.sessionId, h) && !Contains(x.duration, h) && !Contains(x.lastActivity, h)
    ensures LinesFree(FieldLines(CONTEXT_LABELS, ContextValues(x)) + [""], h)
  {
    LabelsAreLabels();
    SignedIsSingle(x.userId);
    SignedIsSingle(x.dreamCount);
    QuietFree(Signed(x.userId), h);
    QuietFree(Signed(x.dreamCount), h);
    FieldsFree(CONTEXT_LABELS, ContextValues(x), h);
  }

  lemma SummaryFree(s: Summary, h: string)
    requires h != "" && h[0] == '#'
    requires !Contains(FormatList(s.keySymbols), h) && !Contains(FormatList(s.recurring), h) && !Contains(s.sample, h)
    ensures LinesFree(FieldLines(SUMMARY_LABELS, SummaryValues(s)) + [""], h)
  {
    LabelsAreLabels();
    FieldsFree(SUMMARY_LABELS, SummaryValues(s), h);
  }

  lemma PartsFree(c: Contract, fixed: Fixed, p: Compiled, k: nat)
    requires ContractOk(c, fixed) && Headed(c, p) && k < 6
    ensures var parts, h := Parts(c, fixed, p), c.sections[k].heading;
      parts[k].heading == h && forall j :: 0 <= j < k ==> !Contains(parts[j].heading, h) && LinesFree(parts[j].lines, h)
  {
    var parts, h := Parts(c, fixed, p), c.sections[k].heading;
    forall j | 0 <= j < k ensures !Contains(parts[j].heading, h) && LinesFree(parts[j].lines, h) {
      assert parts[j].heading == c.sections[j].heading;
      PartFree(c, fixed, p, j, k);
    }
  }

  lemma FreeIsClear(pre: seq<string>, parts: seq<Part>, k: nat, h: string)
    requires k < |parts| && parts[k].heading == h && h != "" && '\n' !in h && LinesFree(pre, h)
    requires forall j :: 0 <= j < k ==> !Contains(parts[j].heading, h) && LinesFree(parts[j].lines, h)
    ensures Clear(pre, parts, k)
  {
    UptoFree(pre, parts, k, h);
  }

  lemma AllClear(c: Contract, fixed: Fixed, p: Compiled, k: nat)
    requires ContractOk(c, fixed) && Headed(c, p) && k < 6
    ensures Clear(Preamble(c), Parts(c, fixed, p), k)
  {
    var h := c.sections[k].heading;
    QuietFree(c.prefix, h);
    QuietFree("", h);
    PartsFree(c, fixed, p, k);
    FreeIsClear(Preamble(c), Parts(c, fixed, p), k, h);
  }

  // ---------------------------------------------------------------- the sections found in a rendered prompt

  lemma RenderedIsText(c: Contract, fixed: Fixed, p: Compiled)
    requires |c.sections| == 6
    ensures Rendered(c, fixed, p) == TextOf(Preamble(c), Parts(c, fixed, p))
    ensures StartsWith(Rendered(c, fixed, p), c.prefix)
  {
    var rest := [""] + LinesOf(Parts(c, fixed, p));
    assert [c.prefix, ""] + LinesOf(Parts(c, fixed, p)) == [c.prefix] + rest;
    JoinAppend([c.prefix], rest);
    assert Flat([c.prefix]) == c.prefix + "\n";
  }

  lemma HeadingFound(c: Contract, fixed: Fixed, p: Compiled, k: nat)
    requires ContractOk(c, fixed) && Headed(c, p) && k < 6
    ensures Find(Rendered(c, fixed, p), c.sections[k].heading, 0) == Some(Start(Preamble(c), Parts(c, fixed, p), k))
  {
    RenderedIsText(c, fixed, p);
    AllClear(c, fixed, p, k);
    HeadingAt(Preamble(c), Parts(c, fixed, p), k, 0);
    assert Parts(c, fixed, p)[k].heading == c.sections[k].heading;
  }

  lemma HeadingsFound(c: Contract, fixed: Fixed, p: Compiled)
    requires ContractOk(c, fixed) && Headed(c, p)
    ensures AllPresent(Rendered(c, fixed, p), c.sections) && InOrder(Rendered(c, fixed, p), c.sections)
  {
    var text := Rendered(c, fixed, p);
    forall k | 0 <= k < 6 ensures Find(text, c.sections[k].heading, 0).Some? { HeadingFound(c, fixed, p, k); }
    forall i, j | 0 <= i < j < 6
      ensures Position(text, c.sections[i].heading) <= Position(text, c.sections[j].heading)
    {
      HeadingFound(c, fixed, p, i);
      HeadingFound(c, fixed, p, j);
      StartsAscend(Preamble(c), Parts(c, fixed, p), i, j);
    }
  }

  /** The body the validator extracts for section k. */
  function PrintedBody(c: Contract, fixed: Fixed, p: Compiled, k: nat): string
    requires |c.sections| == 6 && k < 6
  {
    var lines := Parts(c, fixed, p)[k].lines;
    if k == 5 then LStripNewlines("\n" + Join(lines)) else StripNewlines("\n" + Flat(lines))
  }

  lemma BodyFound(c: Contract, fixed: Fixed, p: Compiled, k: nat)
    requires ContractOk(c, fixed) && Headed(c, p) && k < 6
    ensures SectionBody(Rendered(c, fixed, p), c.sections[k].heading, NextHeading(c.sections, k))
         == Some(PrintedBody(c, fixed, p, k))
  {
    var pre, parts := Preamble(c), Parts(c, fixed, p);
    RenderedIsText(c, fixed, p);
    AllClear(c, fixed, p, k);
    assert parts[k].heading == c.sections[k].heading;
    if k == 5 {
      LastBody(pre, parts);
    } else {
      assert parts[k + 1].heading == c.sections[k + 1].heading;
      AllClear(c, fixed, p, k + 1);
      BodyAt(pre, parts, k);
    }
  }

  lemma BodiesFound(c: Contract, fixed: Fixed, p: Compiled)
    requires ContractOk(c, fixed) && Headed(c, p)
    ensures Extracts(Rendered(c, fixed, p), c.sections)
    ensures forall k :: 0 <= k < 6 ==> Body(Rendered(c, fixed, p), c.sections, k) == PrintedBody(c, fixed, p, k)
  {
    forall k | 0 <= k < 6
      ensures SectionBody(Rendered(c, fixed, p), c.sections[k].heading, NextHeading(c.sections, k))
           == Some(PrintedBody(c, fixed, p, k))
    {
      BodyFound(c, fixed, p, k);
    }
  }

  function PrintedBodies(c: Contract, fixed: Fixed, p: Compiled): (r: seq<string>)
    requires |c.sections| == 6
    ensures |r| == 6 && forall k :: 0 <= k < 6 ==> r[k] == PrintedBody(c, fixed, p, k)
  {
    seq(6, k requires 0 <= k < 6 => PrintedBody(c, fixed, p, k))
  }

  /** The validator sees the sections as they were printed. */
  lemma ViolationsAre(c: Contract, fixed: Fixed, p: Compiled)
    requires ContractOk(c, fixed) && Headed(c, p)
    ensures Violations(Rendered(c, fixed, p), c) == BodyViolations(PrintedBodies(c, fixed, p), c)
  {
    RenderedIsText(c, fixed, p);
    HeadingsFound(c, fixed, p);
    BodiesFound(c, fixed, p);
    var bodies := seq(6, k requires 0 <= k < 6 => Body(Rendered(c, fixed, p), c.sections, k));
    forall k | 0 <= k < 6 ensures bodies[k] == PrintedBodies(c, fixed, p)[k] {
      assert bodies[k] == Body(Rendered(c, fixed, p), c.sections, k) == PrintedBody(c, fixed, p, k);
    }
    assert bodies == PrintedBodies(c, fixed, p);
  }

  // ---------------------------------------------------------------- the fixed sections

  lemma ContainsInJoin(lines: seq<string>, i: nat, pat: string)
    requires i < |lines| && Contains(lines[i], pat)
    ensures Contains(Join(lines), pat)
  {
    var p: nat :| p <= |lines[i]| && Occurs(pat, lines[i], p);
    var a, b := lines[..i], lines[i..];
    assert lines == a + b && b[0] == lines[i];
    JoinAppend(a, b);
    JoinStarts(b);
    OccursInPrefix(pat, lines[i], p, Join(b));
    OccursLater(pat, Join(b), p, Flat(a));
  }

  lemma FixedAccepted(lines: seq<string>, required: seq<string>, code: Error)
    requires FixedLines(lines) && Covers(lines, required)
    ensures StripNewlines("\n" + Flat(lines + [""])) == Join(lines) == LStripNewlines("\n" + Join(lines))
    ensures FixedError(Join(lines), required, code).None?
  {
    JoinTrimmed(lines);
    BlankLineAfter(lines);
    assert ("\n" + Join(lines))[1..] == Join(lines);
    forall i | 0 <= i < |required| ensures Contains(Join(lines), required[i]) {
      var j :| 0 <= j < |lines| && Contains(lines[j], required[i]);
      ContainsInJoin(lines, j, required[i]);
    }
  }

  // ---------------------------------------------------------------- the field sections

  lemma FieldsRead(labels: seq<string>, values: seq<string>, body: string)
    requires labels != [] && |labels| == |values| && Labels(labels) && AllSingle(values)
    requires body == StripNewlines("\n" + Flat(FieldLines(labels, values) + [""]))
    ensures SplitLines(body) == FieldLines(labels, values)
    ensures NamesOf(SplitLines(body)) == labels <==> NoneEmpty(values)
  {
    FieldSection(labels, values);
    NamesOfFields(labels, values);
  }

  lemma SectionAccepted(
    labels: seq<string>, values: seq<string>, body: string, specs: seq<FieldSpec>, missing: Error, order: Error)
    requires labels != [] && |labels| == |values| && Labels(labels) && AllSingle(values) && Names(specs) == labels
    requires body == StripNewlines("\n" + Flat(FieldLines(labels, values) + [""]))
    ensures FieldError(body, specs, missing, order).None? <==> NoneEmpty(values)
  {
    FieldsRead(labels, values, body);
    OrderDecides(body, specs, missing, order);
  }

  lemma SingleValues(c: Contract, p: Compiled)
    requires Printable(c, p)
    ensures AllSingle(ContextValues(p.context)) && AllSingle(SummaryValues(p.summary)[..2])
  {
    SignedIsSingle(p.context.userId);
    SignedIsSingle(p.context.dreamCount);
  }

  lemma CountRead(x: Context, body: string)
    requires AllSingle(ContextValues(x))
    requires body == StripNewlines("\n" + Flat(FieldLines(CONTEXT_LABELS, ContextValues(x)) + [""]))
    ensures DreamCount(body) == Some(x.dreamCount)
  {
    LabelsAreLabels();
    FieldSection(CONTEXT_LABELS, ContextValues(x));
    SignedIsSingle(x.dreamCount);
    ValuesOfFields(CONTEXT_LABELS, ContextValues(x), 2);
    PyIntOfSigned(x.dreamCount);
  }

  predicate ContextComplete(x: Context) {
    x.sessionId != "" && x.duration != "" && x.lastActivity != ""
  }

  lemma ContextFull(x: Context)
    ensures NoneEmpty(ContextValues(x)) <==> ContextComplete(x)
  {
    var values := ContextValues(x);
    SignedIsSingle(x.userId);
    SignedIsSingle(x.dreamCount);
    assert values[0] == x.sessionId && values[3] == x.duration && values[4] == x.lastActivity;
  }

  lemma SummaryFull(s: Summary)
    ensures NoneEmpty(SummaryValues(s)[..2])
  {
    var values := SummaryValues(s)[..2];
    assert values[0] != "" && values[1] != "";
  }

  /** Read as the last field of its section, the sample neither misses its label nor adds another. */
  predicate SampleReads(sample: string) {
    ReadsAs("raw_text_sample", sample)
  }

  lemma SummaryAccepted(s: Summary, body: string, specs: seq<FieldSpec>, missing: Error, order: Error)
    requires AllSingle(SummaryValues(s)[..2]) && Names(specs) == SUMMARY_LABELS
    requires body == StripNewlines("\n" + Flat(FieldLines(SUMMARY_LABELS, SummaryValues(s)) + [""]))
    ensures FieldError(body, specs, missing, order).None? <==> SampleReads(s.sample)
  {
    LabelsAreLabels();
    SummaryFull(s);
    OpenSection(SUMMARY_LABELS, SummaryValues(s), 2);
    OrderDecides(body, specs, missing, order);
  }

  lemma FieldBodies(c: Contract, fixed: Fixed, p: Compiled)
    requires |c.sections| == 6
    ensures PrintedBody(c, fixed, p, 0)
         == StripNewlines("\n" + Flat(FieldLines(CONTEXT_LABELS, ContextValues(p.context)) + [""]))
    ensures PrintedBody(c, fixed, p, 2)
         == StripNewlines("\n" + Flat(FieldLines(SUMMARY_LABELS, SummaryValues(p.summary)) + [""]))
  {
    LinesAreFields(p);
  }

  // ---------------------------------------------------------------- main results

  /** What a caller can check before rendering, apart from the dreams. */
  predicate Complete(p: Compiled) {
    && ContextComplete(p.context)
    && SampleReads(p.summary.sample)
    && (p.context.dreamCount == 0 <==> p.dreams == [])
  }

  /**
   * A rendered prompt passes the structural validator exactly if its representation is complete and its dreams read as
   * entries one after the other; where no text has both a blank line and a timestamp line, exactly if each is one entry.
   */
  lemma RenderedValidates(c: Contract, fixed: Fixed, p: Compiled)
    requires ContractOk(c, fixed) && Printable(c, p)
    ensures Violations(Rendered(c, fixed, p), c).Ok?
    ensures Violations(Rendered(c, fixed, p), c) == Ok([]) <==> Complete(p) && LogReads(p.dreams)
    ensures AllTelling(p.dreams) ==>
      (Violations(Rendered(c, fixed, p), c) == Ok([]) <==> Complete(p) && Numbered(p.dreams))
  {
    ViolationsAre(c, fixed, p);
    BodiesValidate(c, fixed, p, PrintedBodies(c, fixed, p));
    if AllTelling(p.dreams) { TellingLog(p.dreams); }
  }

  lemma BodiesValidate(c: Contract, fixed: Fixed, p: Compiled, bodies: seq<string>)
    requires ContractOk(c, fixed) && Printable(c, p) && |bodies| == 6
    requires forall k :: 0 <= k < 6 ==> bodies[k] == PrintedBody(c, fixed, p, k)
    ensures BodyViolations(bodies, c).Ok?
    ensures BodyViolations(bodies, c) == Ok([]) <==> Complete(p) && LogReads(p.dreams)
  {
    FieldBodies(c, fixed, p);
    FieldBodiesValidate(c, p, bodies[0], bodies[2]);
    assert bodies[1] == DreamBody(p.dreams);
    DreamBodyValidates(c, p);
    FixedBodiesValidate(c, fixed, p, bodies);
    NothingCollected(
      FieldError(bodies[0], c.sections[0].fields, MissingContextField, ContextFieldOrder),
      DreamError(bodies[1], p.context.dreamCount),
      FieldError(bodies[2], c.sections[2].fields, MissingSummaryField, SummaryFieldOrder));
  }

  lemma NothingCollected(a: Option<Error>, b: Option<Error>, c: Option<Error>)
    ensures Collected(a, b, c, None, None, None) == [] <==> a.None? && b.None? && c.None?
  {
  }

  lemma FixedBodiesValidate(c: Contract, fixed: Fixed, p: Compiled, bodies: seq<string>)
    requires ContractOk(c, fixed) && |bodies| == 6
    requires forall k :: 0 <= k < 6 ==> bodies[k] == PrintedBody(c, fixed, p, k)
    ensures FixedError(bodies[3], c.instructionLines, Instructions).None?
    ensures FixedError(bodies[4], c.frameworkItems, Framework).None?
    ensures FixedError(bodies[5], c.outputLines, OutputFormat).None?
  {
    FixedAccepted(fixed.instructions, c.instructionLines, Instructions);
    FixedAccepted(fixed.framework, c.frameworkItems, Framework);
    FixedAccepted(fixed.output, c.outputLines, OutputFormat);
  }

  lemma FieldBodiesValidate(c: Contract, p: Compiled, context: string, summary: string)
    requires |c.sections| == 6 && Printable(c, p)
    requires Names(c.sections[0].fields) == CONTEXT_LABELS && Names(c.sections[2].fields) == SUMMARY_LABELS
    requires context == StripNewlines("\n" + Flat(FieldLines(CONTEXT_LABELS, ContextValues(p.context)) + [""]))
    requires summary == StripNewlines("\n" + Flat(FieldLines(SUMMARY_LABELS, SummaryValues(p.summary)) + [""]))
    ensures DreamCount(context) == Some(p.context.dreamCount)
    ensures FieldError(context, c.sections[0].fields, MissingContextField, ContextFieldOrder).None?
       <==> ContextComplete(p.context)
    ensures FieldError(summary, c.sections[2].fields, MissingSummaryField, SummaryFieldOrder).None?
       <==> SampleReads(p.summary.sample)
  {
    LabelsAreLabels();
    SingleValues(c, p);
    CountRead(p.context, context);
    ContextFull(p.context);
    SectionAccepted(CONTEXT_LABELS, ContextValues(p.context), context, c.sections[0].fields,
                    MissingContextField, ContextFieldOrder);
    SummaryAccepted(p.summary, summary, c.sections[2].fields, MissingSummaryField, SummaryFieldOrder);
  }

  lemma DreamBodyValidates(c: Contract, p: Compiled)
    requires Printable(c, p)
    ensures DreamError(DreamBody(p.dreams), p.context.dreamCount).None?
       <==> (p.context.dreamCount == 0 <==> p.dreams == []) && LogReads(p.dreams)
  {
    LogAccepted(p.dreams, p.context.dreamCount);
  }

  ghost predicate LogFails(dreams: seq<Entry>) {
    forall count :: DreamError(DreamBody(dreams), count).Some?
  }

  lemma BadLogFails(dreams: seq<Entry>)
    requires AllStamped(dreams) && !LogReads(dreams)
    ensures LogFails(dreams)
  {
    forall count ensures DreamError(DreamBody(dreams), count).Some? { LogAccepted(dreams, count); }
  }

  /** A dream log that fails is reported whatever else the prompt holds, as long as the headings are where they belong. */
  lemma BadLogIsRejected(c: Contract, fixed: Fixed, p: Compiled)
    requires ContractOk(c, fixed) && Headed(c, p) && LogFails(p.dreams)
    ensures Violations(Rendered(c, fixed, p), c) != Ok([])
  {
    ViolationsAre(c, fixed, p);
    BadLogBody(c, fixed, p);
  }

  lemma BadLogBody(c: Contract, fixed: Fixed, p: Compiled)
    requires |c.sections| == 6 && LogFails(p.dreams)
    ensures BodyViolations(PrintedBodies(c, fixed, p), c) != Ok([])
  {
    var bodies := PrintedBodies(c, fixed, p);
    assert bodies[1] == DreamBody(p.dreams);
    var count := DreamCount(bodies[0]);
    if count.Some? { assert DreamError(bodies[1], count.value).Some?; }
  }
}
