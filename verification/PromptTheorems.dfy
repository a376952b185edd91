/** What holds of the whole path: compile, render, validate, read back. */
module PromptTheorems {
  import opened Base
  import opened Text
  import opened PromptValidation
  import opened PromptCompiler
  import opened PromptLayout
  import opened PromptSections
  import opened PromptLog
  import opened PromptProofs

  // ---------------------------------------------------------------- what acceptance means for any prompt

  predicate LogConforms(body: string, count: int) {
    if count == 0 then body == NO_DREAMS else EntriesFrom(InkedBlocks(SplitOn(body, "\n\n")), 0)
  }

  predicate HoldsAll(body: string, required: seq<string>) {
    forall i :: 0 <= i < |required| ==> Contains(body, required[i])
  }

  /** The shape of a prompt, told without the order in which faults are looked for. */
  predicate Conforms(bodies: seq<string>, c: Contract)
    requires |c.sections| == 6 && |bodies| == 6
  {
    && DreamCount(bodies[0]).Some?
    && NamesOf(SplitLines(bodies[0])) == Names(c.sections[0].fields)
    && LogConforms(bodies[1], DreamCount(bodies[0]).value)
    && NamesOf(SplitLines(bodies[2])) == Names(c.sections[2].fields)
    && HoldsAll(bodies[3], c.instructionLines)
    && HoldsAll(bodies[4], c.frameworkItems)
    && HoldsAll(bodies[5], c.outputLines)
  }

  lemma LogExactly(body: string, count: int)
    ensures DreamError(body, count).None? <==> LogConforms(body, count)
  {
    var blocks := InkedBlocks(SplitOn(body, "\n\n"));
    EntriesExactly(blocks, 0);
    assert blocks[0..] == blocks;
  }

  lemma FixedExactly(body: string, required: seq<string>, code: Error)
    ensures FixedError(body, required, code).None? <==> HoldsAll(body, required)
  {
  }

  lemma CollectedExactly(
    a: Option<Error>, b: Option<Error>, c: Option<Error>, d: Option<Error>, e: Option<Error>, f: Option<Error>)
    ensures Collected(a, b, c, d, e, f) == [] <==> a.None? && b.None? && c.None? && d.None? && e.None? && f.None?
  {
  }

  lemma BodiesExactly(bodies: seq<string>, c: Contract)
    requires |c.sections| == 6 && |bodies| == 6
    ensures BodyViolations(bodies, c) == Ok([]) <==> Conforms(bodies, c)
  {
    var count := DreamCount(bodies[0]);
    if count.Some? {
      OrderDecides(bodies[0], c.sections[0].fields, MissingContextField, ContextFieldOrder);
      LogExactly(bodies[1], count.value);
      OrderDecides(bodies[2], c.sections[2].fields, MissingSummaryField, SummaryFieldOrder);
      FixedExactly(bodies[3], c.instructionLines, Instructions);
      FixedExactly(bodies[4], c.frameworkItems, Framework);
      FixedExactly(bodies[5], c.outputLines, OutputFormat);
      CollectedExactly(
        FieldError(bodies[0], c.sections[0].fields, MissingContextField, ContextFieldOrder),
        DreamError(bodies[1], count.value),
        FieldError(bodies[2], c.sections[2].fields, MissingSummaryField, SummaryFieldOrder),
        FixedError(bodies[3], c.instructionLines, Instructions),
        FixedError(bodies[4], c.frameworkItems, Framework),
        FixedError(bodies[5], c.outputLines, OutputFormat));
    }
  }

  function Bodies(prompt: string, c: Contract): (r: seq<string>)
    requires |c.sections| == 6 && Extracts(prompt, c.sections)
    ensures |r| == 6
  {
    seq(6, k requires 0 <= k < 6 => Body(prompt, c.sections, k))
  }

  /** Any prompt whatever is accepted exactly if it has the prefix, the headings in order and conforming sections. */
  lemma AcceptedExactly(prompt: string, c: Contract)
    requires |c.sections| == 6
    ensures Violations(prompt, c) == Ok([])
       <==> c.prefix <= prompt && AllPresent(prompt, c.sections) && InOrder(prompt, c.sections)
            && Extracts(prompt, c.sections) && Conforms(Bodies(prompt, c), c)
  {
    if Extracts(prompt, c.sections) { BodiesExactly(Bodies(prompt, c), c); }
  }

  // ---------------------------------------------------------------- reading back

  /** The fields hold exactly these values under exactly these labels. */
  predicate FieldsAre(fields: map<string, string>, labels: seq<string>, values: seq<string>)
    requires |labels| == |values|
  {
    && (forall l :: l in fields ==> l in labels)
    && (forall i :: 0 <= i < |labels| ==> labels[i] in fields && fields[labels[i]] == values[i])
  }

  function ReadEntry(block: string): (string, string) {
    var lines := SplitLines(block);
    if |lines| == 3 && StartsWith(lines[1], TEXT) && StartsWith(lines[2], TIMESTAMP)
    then (lines[1][|TEXT|..], lines[2][|TIMESTAMP|..])
    else ("", "")
  }

  /** The dreams in a log, split as the validator splits them. */
  function ReadLog(body: string): (r: seq<(string, string)>)
    ensures body != NO_DREAMS ==> |r| == |InkedBlocks(SplitOn(body, "\n\n"))|
  {
    if body == NO_DREAMS then []
    else
      var blocks := InkedBlocks(SplitOn(body, "\n\n"));
      seq(|blocks|, k requires 0 <= k < |blocks| => ReadEntry(blocks[k]))
  }

  predicate Verbatim(e: Entry) {
    SingleLine(e.text) && RStrip(e.timestamp) == e.timestamp
  }

  lemma EntryRead(e: Entry)
    requires SingleLine(e.timestamp) && Verbatim(e) && HasInk(e.timestamp)
    ensures ReadEntry(Strip(Block(e))) == (e.text, e.timestamp)
  {
    BlockLines(e);
    LastLineIs(e);
    assert (TEXT + e.text)[|TEXT|..] == e.text && (TEXT + e.text)[..|TEXT|] == TEXT;
    assert (TIMESTAMP + e.timestamp)[|TIMESTAMP|..] == e.timestamp;
  }

  lemma LogRead(dreams: seq<Entry>)
    requires AllStamped(dreams) && Numbered(dreams)
    requires forall k :: 0 <= k < |dreams| ==> Verbatim(dreams[k])
    ensures |ReadLog(DreamBody(dreams))| == |dreams|
    ensures forall k :: 0 <= k < |dreams| ==> ReadLog(DreamBody(dreams))[k] == (dreams[k].text, dreams[k].timestamp)
  {
    if dreams == [] {
      EmptyBody();
    } else {
      forall k | 0 <= k < |dreams| ensures Loggable(dreams[k]) { OneLineIsWhole(dreams[k].text); }
      BlocksRead(dreams);
      forall k | 0 <= k < |dreams|
        ensures ReadLog(DreamBody(dreams))[k] == (dreams[k].text, dreams[k].timestamp)
      {
        assert Passes(dreams[k], k + 1);
        EntryRead(dreams[k]);
      }
    }
  }

  lemma FieldsReadBack(labels: seq<string>, values: seq<string>, body: string)
    requires labels != [] && |labels| == |values| && Labels(labels) && AllSingle(values) && NoneEmpty(values)
    requires body == StripNewlines("\n" + Flat(FieldLines(labels, values) + [""]))
    ensures FieldsAre(FieldsOf(SplitLines(body)), labels, values)
  {
    FieldSection(labels, values);
    OnlyLabels(labels, values);
    forall i | 0 <= i < |labels|
      ensures labels[i] in FieldsOf(SplitLines(body)) && FieldsOf(SplitLines(body))[labels[i]] == values[i]
    {
      ValuesOfFields(labels, values, i);
    }
  }

  predicate Readable(c: Contract, p: Compiled) {
    && Printable(c, p) && ContextComplete(p.context) && (p.context.dreamCount == 0 <==> p.dreams == [])
    && p.summary.sample != "" && SingleLine(p.summary.sample)
    && Numbered(p.dreams) && forall k :: 0 <= k < |p.dreams| ==> Verbatim(p.dreams[k])
  }

  /** The text holds exactly the values of p, where the validator looks for them. */
  ghost predicate Holds(text: string, c: Contract, p: Compiled)
    requires |c.sections| == 6
  {
    && Extracts(text, c.sections)
    && FieldsAre(FieldsOf(SplitLines(Body(text, c.sections, 0))), CONTEXT_LABELS, ContextValues(p.context))
    && ReadLog(Body(text, c.sections, 1)) == LogOf(p)
    && FieldsAre(FieldsOf(SplitLines(Body(text, c.sections, 2))), SUMMARY_LABELS, SummaryValues(p.summary))
  }

  function LogOf(p: Compiled): (r: seq<(string, string)>)
    ensures |r| == |p.dreams|
    ensures forall k :: 0 <= k < |r| ==> r[k] == (p.dreams[k].text, p.dreams[k].timestamp)
  {
    seq(|p.dreams|, k requires 0 <= k < |p.dreams| => (p.dreams[k].text, p.dreams[k].timestamp))
  }

  /** Printing and reading back gives the five context fields, the dreams and the three summary fields. */
  lemma RoundTrip(c: Contract, fixed: Fixed, p: Compiled)
    requires ContractOk(c, fixed) && Readable(c, p)
    ensures Holds(Rendered(c, fixed, p), c, p)
  {
    BodiesFound(c, fixed, p);
    FieldsPrinted(c, fixed, p);
    LogPrinted(c, p);
    assert PrintedBody(c, fixed, p, 1) == DreamBody(p.dreams);
  }

  lemma FieldsPrinted(c: Contract, fixed: Fixed, p: Compiled)
    requires ContractOk(c, fixed) && Readable(c, p)
    ensures FieldsAre(FieldsOf(SplitLines(PrintedBody(c, fixed, p, 0))), CONTEXT_LABELS, ContextValues(p.context))
    ensures FieldsAre(FieldsOf(SplitLines(PrintedBody(c, fixed, p, 2))), SUMMARY_LABELS, SummaryValues(p.summary))
  {
    FieldBodies(c, fixed, p);
    LabelsAreLabels();
    SingleValues(c, p);
    ContextFull(p.context);
    SummaryFull(p.summary);
    AllSummaryValues(p.summary);
    FieldsReadBack(CONTEXT_LABELS, ContextValues(p.context), PrintedBody(c, fixed, p, 0));
    FieldsReadBack(SUMMARY_LABELS, SummaryValues(p.summary), PrintedBody(c, fixed, p, 2));
  }

  lemma AllSummaryValues(s: Summary)
    requires AllSingle(SummaryValues(s)[..2]) && NoneEmpty(SummaryValues(s)[..2]) && SingleLine(s.sample) && s.sample != ""
    ensures AllSingle(SummaryValues(s)) && NoneEmpty(SummaryValues(s))
  {
    var values := SummaryValues(s);
    assert values[0] == values[..2][0] && values[1] == values[..2][1];
  }

  lemma LogPrinted(c: Contract, p: Compiled)
    requires Readable(c, p)
    ensures ReadLog(DreamBody(p.dreams)) == LogOf(p)
  {
    LogRead(p.dreams);
  }

  lemma SameFields(fields: map<string, string>, labels: seq<string>, a: seq<string>, b: seq<string>)
    requires |labels| == |a| == |b| && FieldsAre(fields, labels, a) && FieldsAre(fields, labels, b)
    ensures a == b
  {
  }

  lemma SignedIsInjective(m: int, n: int)
    requires Signed(m) == Signed(n)
    ensures m == n
  {
    PyIntOfSigned(m);
    PyIntOfSigned(n);
  }

  /** So two representations with the same prompt agree in everything but how their lists were split. */
  lemma NothingIsLost(c: Contract, fixed: Fixed, p: Compiled, q: Compiled)
    requires ContractOk(c, fixed) && Readable(c, p) && Readable(c, q)
    requires Rendered(c, fixed, p) == Rendered(c, fixed, q)
    ensures p.context == q.context && p.dreams == q.dreams
    ensures SummaryValues(p.summary) == SummaryValues(q.summary)
  {
    RoundTrip(c, fixed, p);
    RoundTrip(c, fixed, q);
    var text := Rendered(c, fixed, p);
    var context, summary := FieldsOf(SplitLines(Body(text, c.sections, 0))), FieldsOf(SplitLines(Body(text, c.sections, 2)));
    SameFields(context, CONTEXT_LABELS, ContextValues(p.context), ContextValues(q.context));
    SameFields(summary, SUMMARY_LABELS, SummaryValues(p.summary), SummaryValues(q.summary));
    SameContext(p.context, q.context);
    SameLog(p, q);
  }

  lemma SameContext(x: Context, y: Context)
    requires ContextValues(x) == ContextValues(y)
    ensures x == y
  {
    var a, b := ContextValues(x), ContextValues(y);
    assert a[0] == b[0] && a[1] == b[1] && a[2] == b[2] && a[3] == b[3] && a[4] == b[4];
    SignedIsInjective(x.userId, y.userId);
    SignedIsInjective(x.dreamCount, y.dreamCount);
  }

  lemma SameLog(p: Compiled, q: Compiled)
    requires LogOf(p) == LogOf(q) && Numbered(p.dreams) && Numbered(q.dreams)
    ensures p.dreams == q.dreams
  {
    assert |p.dreams| == |LogOf(p)| == |q.dreams|;
    forall k | 0 <= k < |p.dreams| ensures p.dreams[k] == q.dreams[k] {
      assert Passes(p.dreams[k], k + 1) && Passes(q.dreams[k], k + 1);
      assert LogOf(p)[k] == LogOf(q)[k];
    }
  }

  // ---------------------------------------------------------------- the order of the dreams

  predicate Ordered(dreams: seq<Dream>) {
    forall i, j :: 0 <= i < j < |dreams| ==> Before(dreams[i], dreams[j])
  }

  lemma {:induction false} InsertOrdered(d: Dream, sorted: seq<Dream>)
    requires Ordered(sorted)
    ensures Ordered(Insert(d, sorted))
  {
    if sorted != [] && !Before(d, sorted[0]) {
      var rest := Insert(d, sorted[1..]);
      InsertOrdered(d, sorted[1..]);
      forall i | 0 <= i < |rest| ensures Before(sorted[0], rest[i]) {
        assert rest[i] in multiset(rest);
        assert rest[i] == d || rest[i] in sorted[1..];
      }
    }
  }

  lemma {:induction false} SortIsOrdered(dreams: seq<Dream>)
    ensures Ordered(SortDreams(dreams))
  {
    if dreams != [] {
      SortIsOrdered(dreams[1..]);
      InsertOrdered(dreams[0], SortDreams(dreams[1..]));
    }
  }

  /** Rows with the same creation time and key are one row. */
  predicate KeysIdentify(dreams: seq<Dream>) {
    forall x, y :: x in dreams && y in dreams && x.createdAt == y.createdAt && x.id == y.id ==> x == y
  }

  lemma TailOf(a: seq<Dream>)
    requires a != []
    ensures multiset(a) == multiset{a[0]} + multiset(a[1..])
  {
    assert a == [a[0]] + a[1..];
  }

  /** A least element stands first in both of two sorted arrangements. */
  lemma SameHead(a: seq<Dream>, b: seq<Dream>)
    requires a != [] && b != [] && multiset(a) == multiset(b) && Ordered(a) && Ordered(b) && KeysIdentify(a)
    ensures a[0] == b[0]
  {
    assert a[0] in multiset(b) && b[0] in multiset(a);
    var i :| 0 <= i < |b| && b[i] == a[0];
    var j :| 0 <= j < |a| && a[j] == b[0];
    assert i > 0 ==> Before(b[0], b[i]);
    assert j > 0 ==> Before(a[0], a[j]);
  }

  lemma {:induction false} OrderedIsUnique(a: seq<Dream>, b: seq<Dream>)
    requires multiset(a) == multiset(b) && Ordered(a) && Ordered(b) && KeysIdentify(a)
    ensures a == b
  {
    assert |a| == |multiset(a)| == |multiset(b)| == |b|;
    if a != [] {
      SameHead(a, b);
      TailOf(a);
      TailOf(b);
      assert multiset(a[1..]) == multiset(a) - multiset{a[0]} == multiset(b[1..]);
      OrderedIsUnique(a[1..], b[1..]);
    }
  }

  lemma SortIgnoresOrder(a: seq<Dream>, b: seq<Dream>)
    requires multiset(a) == multiset(b) && KeysIdentify(a)
    ensures SortDreams(a) == SortDreams(b)
  {
    SortIsOrdered(a);
    SortIsOrdered(b);
    forall x ensures x in SortDreams(a) <==> x in a { assert x in multiset(SortDreams(a)) <==> x in multiset(a); }
    assert KeysIdentify(SortDreams(a));
    OrderedIsUnique(SortDreams(a), SortDreams(b));
  }

  /** The order in which the dreams were loaded does not reach the prompt. */
  lemma CompileIgnoresOrder(
    f: Formats, s: StoredSummary, a: seq<Dream>, b: seq<Dream>, lastActivity: Option<Time>, created: Option<Time>)
    requires multiset(a) == multiset(b) && KeysIdentify(a)
    ensures Compile(f, s, a, lastActivity, created) == Compile(f, s, b, lastActivity, created)
  {
    SortIgnoresOrder(a, b);
  }

  // ---------------------------------------------------------------- stored data to verdict

  predicate PlainText(s: string) {
    s != "" && SingleLine(s) && HasInk(s) && '#' !in s
  }

  ghost predicate FormatsOk(f: Formats) {
    (forall s :: PlainText(f.uuid(s))) && (forall t :: PlainText(f.date(t)))
  }

  /** Stored texts do not contain the headings printed after them. */
  predicate StoredOk(c: Contract, s: StoredSummary, dreams: seq<Dream>) {
    && (forall d :: d in dreams ==> Free(c.sections, d.text, 2))
    && Free(c.sections, FormatList(s.keySymbols), 3) && Free(c.sections, FormatList(s.recurring), 3)
    && (s.sample.Some? ==> Free(c.sections, s.sample.value, 3))
  }

  predicate PlainLists(s: StoredSummary) {
    SingleLine(FormatList(s.keySymbols)) && SingleLine(FormatList(s.recurring))
  }

  lemma PlainIsFree(sections: seq<Section>, s: string, from: nat)
    requires Headings(sections) && '#' !in s
    ensures Free(sections, s, from)
  {
    forall j | from <= j < |sections| ensures !Contains(s, sections[j].heading) { QuietFree(s, sections[j].heading); }
  }

  lemma DurationIsPlain(seconds: Option<int>)
    ensures PlainText(FormatDuration(seconds))
  {
    if seconds.Some? && seconds.value >= 0 {
      var n: nat := seconds.value;
      var h, m, s := Decimal(n / 3600), Decimal(n % 3600 / 60), Decimal(n % 3600 % 60);
      PlainAppend(h, "h ");
      PlainAppend(h + "h ", m);
      PlainAppend(h + "h " + m, "m ");
      PlainAppend(h + "h " + m + "m ", s);
      PlainAppend(h + "h " + m + "m " + s, "s");
    } else {
      assert PlainText("N/A") by { assert "N/A"[0] == 'N'; }
    }
  }

  predicate PlainChars(s: string) {
    forall i :: 0 <= i < |s| ==> IsDigit(s[i]) || s[i] == 'h' || s[i] == 'm' || s[i] == 's' || s[i] == ' '
  }

  lemma PlainAppend(a: string, b: string)
    requires a != "" && !IsSpace(a[0]) && PlainChars(a) && PlainChars(b)
    ensures PlainChars(a + b) && PlainText(a + b) && !IsSpace((a + b)[0])
  {
    var s := a + b;
    forall i | 0 <= i < |s| ensures IsDigit(s[i]) || s[i] == 'h' || s[i] == 'm' || s[i] == 's' || s[i] == ' ' {
      if i < |a| { assert s[i] == a[i]; } else { assert s[i] == b[i - |a|]; }
    }
    assert s[0] == a[0];
  }

  lemma CompiledEntries(c: Contract, f: Formats, s: StoredSummary, dreams: seq<Dream>)
    requires Headings(c.sections) && FormatsOk(f) && StoredOk(c, s, dreams)
    ensures |SortDreams(dreams)| == |dreams|
    ensures AllStamped(Entries(f, SortDreams(dreams)))
    ensures forall k :: 0 <= k < |dreams| ==>
      var e := Entries(f, SortDreams(dreams))[k]; Free(c.sections, e.text, 2) && Free(c.sections, e.timestamp, 2)
  {
    var sorted := SortDreams(dreams);
    var entries := Entries(f, sorted);
    SortKeepsDreams(dreams);
    forall k | 0 <= k < |sorted|
      ensures SingleLine(entries[k].timestamp)
      ensures Free(c.sections, entries[k].text, 2) && Free(c.sections, entries[k].timestamp, 2)
    {
      assert sorted[k] in sorted;
      assert PlainText(f.date(sorted[k].createdAt));
      PlainIsFree(c.sections, entries[k].timestamp, 2);
    }
  }

  lemma SortKeepsDreams(dreams: seq<Dream>)
    ensures |SortDreams(dreams)| == |dreams|
    ensures forall d :: d in SortDreams(dreams) <==> d in dreams
  {
    var sorted := SortDreams(dreams);
    assert |sorted| == |multiset(sorted)| == |multiset(dreams)|;
    forall d ensures d in sorted <==> d in dreams { assert d in multiset(sorted) <==> d in multiset(dreams); }
  }

  /** All dreams but the last are one line each, and the last one, with its date, reads as entries from its number on. */
  predicate ToldApart(f: Formats, sorted: seq<Dream>) {
    sorted == [] || (
      var n := |sorted| - 1;
      && (forall k :: 0 <= k < n ==> OneLine(sorted[k].text))
      && Reads(Block(Entries(f, sorted)[n]), n))
  }

  /** The last dream's text has no blank line, or no line that begins as a timestamp line does. */
  predicate LastTelling(sorted: seq<Dream>) {
    sorted == [] || Telling(sorted[|sorted| - 1].text)
  }

  predicate AllOneLine(dreams: seq<Dream>) {
    forall k :: 0 <= k < |dreams| ==> OneLine(dreams[k].text)
  }

  lemma EntriesPass(f: Formats, sorted: seq<Dream>)
    requires FormatsOk(f)
    ensures AllStamped(Entries(f, sorted)) && InSequence(Entries(f, sorted))
    ensures forall k :: 0 <= k < |sorted| ==> (Passes(Entries(f, sorted)[k], k + 1) <==> OneLine(sorted[k].text))
  {
    forall k | 0 <= k < |sorted| ensures PlainText(Entries(f, sorted)[k].timestamp) {
      assert PlainText(f.date(sorted[k].createdAt));
    }
  }

  lemma EntriesBut(f: Formats, sorted: seq<Dream>, n: nat)
    requires FormatsOk(f) && n <= |sorted|
    ensures NumberedBut(Entries(f, sorted), n) <==> forall k :: 0 <= k < n ==> OneLine(sorted[k].text)
  {
    EntriesPass(f, sorted);
    var entries := Entries(f, sorted);
    if NumberedBut(entries, n) {
      forall k | 0 <= k < n ensures OneLine(sorted[k].text) { assert Passes(entries[k], k + 1); }
    }
  }

  lemma EntriesRead(f: Formats, sorted: seq<Dream>)
    requires FormatsOk(f)
    ensures AllStamped(Entries(f, sorted))
    ensures LogReads(Entries(f, sorted)) <==> ToldApart(f, sorted)
  {
    EntriesPass(f, sorted);
    if sorted == [] {
      assert BlocksOf(Entries(f, sorted)) == [];
    } else {
      SequenceLog(Entries(f, sorted));
      EntriesBut(f, sorted, |sorted| - 1);
    }
  }

  lemma LastIsOneLine(f: Formats, sorted: seq<Dream>)
    requires FormatsOk(f) && LastTelling(sorted)
    ensures ToldApart(f, sorted) <==> AllOneLine(sorted)
  {
    if sorted != [] {
      var n := |sorted| - 1;
      EntriesPass(f, sorted);
      TellingReads(Entries(f, sorted)[n], n);
    }
  }

  lemma BreakNotTold(f: Formats, sorted: seq<Dream>, k: nat)
    requires FormatsOk(f) && k < |sorted| && !OneLine(sorted[k].text)
    requires k + 1 < |sorted| || Telling(sorted[k].text)
    ensures !ToldApart(f, sorted)
  {
    if k + 1 == |sorted| { LastIsOneLine(f, sorted); }
  }

  lemma NotAvailable()
    ensures PlainText("N/A")
  {
    assert "N/A"[0] == 'N';
  }

  lemma CompiledContext(
    c: Contract, f: Formats, s: StoredSummary, lastActivity: Option<Time>, created: Option<Time>, x: Context)
    requires Headings(c.sections) && FormatsOk(f) && x == Compile(f, s, [], lastActivity, created).context
    ensures PlainText(x.sessionId) && PlainText(x.duration) && PlainText(x.lastActivity)
    ensures Free(c.sections, x.sessionId, 1) && Free(c.sections, x.duration, 1) && Free(c.sections, x.lastActivity, 1)
  {
    NotAvailable();
    DurationIsPlain(if lastActivity.Some? && created.Some? then Some(lastActivity.value - created.value) else None);
    assert PlainText(x.sessionId) && PlainText(x.duration) && PlainText(x.lastActivity);
    PlainIsFree(c.sections, x.sessionId, 1);
    PlainIsFree(c.sections, x.duration, 1);
    PlainIsFree(c.sections, x.lastActivity, 1);
  }

  lemma CompiledHeaded(
    c: Contract, f: Formats, s: StoredSummary, dreams: seq<Dream>, lastActivity: Option<Time>, created: Option<Time>)
    requires Headings(c.sections) && FormatsOk(f) && StoredOk(c, s, dreams)
    ensures var p := Compile(f, s, dreams, lastActivity, created);
      Headed(c, p) && AllStamped(p.dreams) && ContextComplete(p.context)
    ensures PlainLists(s) ==> Printable(c, Compile(f, s, dreams, lastActivity, created))
  {
    var p := Compile(f, s, dreams, lastActivity, created);
    CompiledEntries(c, f, s, dreams);
    CompiledContext(c, f, s, lastActivity, created, p.context);
    NotAvailable();
    PlainIsFree(c.sections, "N/A", 3);
  }

  /** What the sample becomes in the prompt. */
  predicate StoredSampleReads(s: StoredSummary) {
    s.sample.Some? ==> SampleReads(s.sample.value)
  }

  lemma NoSampleReads()
    ensures SampleReads("N/A")
  {
    var s := "N/A";
    assert s[0] == 'N' && s[1] == '/' && s[2] == 'A';
    LineEndIs(s, "");
    assert s + "" == s;
  }

  /**
   * Whatever the texts, a prompt built from stored data passes the validator exactly if the summary counts dreams when
   * there are some, its sample reads as one field, every dream but the last is one line and the last reads as entries;
   * that is one line too, unless it has both a blank line and a timestamp line.
   */
  lemma CompiledValidates(
    c: Contract, fixed: Fixed, f: Formats, s: StoredSummary, dreams: seq<Dream>,
    lastActivity: Option<Time>, created: Option<Time>)
    requires ContractOk(c, fixed) && FormatsOk(f) && StoredOk(c, s, dreams) && PlainLists(s)
    ensures Violations(Rendered(c, fixed, Compile(f, s, dreams, lastActivity, created)), c) == Ok([])
       <==> (s.dreamCount == 0 <==> dreams == []) && StoredSampleReads(s) && ToldApart(f, SortDreams(dreams))
    ensures LastTelling(SortDreams(dreams)) ==> (ToldApart(f, SortDreams(dreams)) <==> AllOneLine(dreams))
  {
    var p := Compile(f, s, dreams, lastActivity, created);
    CompiledHeaded(c, f, s, dreams, lastActivity, created);
    SortKeepsDreams(dreams);
    EntriesRead(f, SortDreams(dreams));
    NoSampleReads();
    RenderedValidates(c, fixed, p);
    if LastTelling(SortDreams(dreams)) { LastIsOneLine(f, SortDreams(dreams)); }
    OneLinersSorted(dreams);
  }

  lemma OneLinersSorted(dreams: seq<Dream>)
    ensures AllOneLine(SortDreams(dreams)) <==> AllOneLine(dreams)
  {
    var sorted := SortDreams(dreams);
    SortKeepsDreams(dreams);
    if AllOneLine(sorted) {
      forall k | 0 <= k < |dreams| ensures OneLine(dreams[k].text) { assert dreams[k] in sorted; }
    }
    if AllOneLine(dreams) {
      forall k | 0 <= k < |sorted| ensures OneLine(sorted[k].text) { assert sorted[k] in dreams; }
    }
  }

  /**
   * A dream that is not told in one line makes the validator reject the whole prompt, whatever the summary, unless it is
   * the last and its text has both a blank line and a timestamp line.
   */
  lemma LineBreakRejects(
    c: Contract, fixed: Fixed, f: Formats, s: StoredSummary, dreams: seq<Dream>,
    lastActivity: Option<Time>, created: Option<Time>, k: nat)
    requires ContractOk(c, fixed) && FormatsOk(f) && StoredOk(c, s, dreams)
    requires k < |SortDreams(dreams)| && !OneLine(SortDreams(dreams)[k].text)
    requires k + 1 < |SortDreams(dreams)| || Telling(SortDreams(dreams)[k].text)
    ensures Violations(Rendered(c, fixed, Compile(f, s, dreams, lastActivity, created)), c) != Ok([])
  {
    CompiledHeaded(c, f, s, dreams, lastActivity, created);
    BreakNotTold(f, SortDreams(dreams), k);
    EntriesRead(f, SortDreams(dreams));
    BadLogFails(Compile(f, s, dreams, lastActivity, created).dreams);
    BadLogIsRejected(c, fixed, Compile(f, s, dreams, lastActivity, created));
  }

  /** All dreams but the last are one line each, and that one imitates the end of its entry and another entry. */
  predicate LastForged(f: Formats, sorted: seq<Dream>, a: string, b: string) {
    var n := |sorted| - 1;
    n >= 0 && AllOneLine(sorted[..n]) && sorted[n].text == Forged(a, f.date(sorted[n].createdAt), n + 2, b)
  }

  lemma ForgedEntryReads(e: Entry, n: nat, a: string, b: string)
    requires e.index == n + 1 && e.text == Forged(a, e.timestamp, n + 2, b)
    requires OneLine(a) && OneLine(b) && SingleLine(e.timestamp) && HasInk(e.timestamp)
    ensures Reads(Block(e), n) && !OneLine(e.text)
  {
    ForgedReads(n + 1, a, e.timestamp, b, e.timestamp);
    ForgedIsNotOneLine(a, e.timestamp, n + 2, b);
    assert e == Entry(n + 1, Forged(a, e.timestamp, n + 2, b), e.timestamp);
  }

  lemma ForgedIsTold(f: Formats, sorted: seq<Dream>, a: string, b: string)
    requires FormatsOk(f) && OneLine(a) && OneLine(b) && LastForged(f, sorted, a, b)
    ensures ToldApart(f, sorted) && !AllOneLine(sorted)
  {
    var n := |sorted| - 1;
    assert PlainText(f.date(sorted[n].createdAt));
    ForgedEntryReads(Entries(f, sorted)[n], n, a, b);
    forall k | 0 <= k < n ensures OneLine(sorted[k].text) { assert sorted[..n][k] == sorted[k]; }
  }

  /** A last dream that imitates the end of its entry and another entry is accepted, though it is not told in one line. */
  lemma ForgedDreamPasses(
    c: Contract, fixed: Fixed, f: Formats, s: StoredSummary, dreams: seq<Dream>,
    lastActivity: Option<Time>, created: Option<Time>, a: string, b: string)
    requires ContractOk(c, fixed) && FormatsOk(f) && StoredOk(c, s, dreams) && PlainLists(s) && StoredSampleReads(s)
    requires dreams != [] && s.dreamCount != 0 && OneLine(a) && OneLine(b)
    requires LastForged(f, SortDreams(dreams), a, b)
    ensures !AllOneLine(dreams)
    ensures Violations(Rendered(c, fixed, Compile(f, s, dreams, lastActivity, created)), c) == Ok([])
  {
    ForgedIsTold(f, SortDreams(dreams), a, b);
    OneLinersSorted(dreams);
    CompiledValidates(c, fixed, f, s, dreams, lastActivity, created);
  }

  /** Its prompt is that of a representation with one dream more. */
  lemma ForgedPrompt(
    c: Contract, fixed: Fixed, p: Compiled, before: seq<Entry>, a: string, at: string, b: string, timestamp: string)
    requires |c.sections| == 6
    requires p.dreams == before + [Entry(|before| + 1, Forged(a, at, |before| + 2, b), timestamp)]
    ensures var q := p.(dreams := before + [Entry(|before| + 1, a, at), Entry(|before| + 2, b, timestamp)]);
      |q.dreams| == |p.dreams| + 1 && Rendered(c, fixed, q) == Rendered(c, fixed, p)
  {
    var q := p.(dreams := before + [Entry(|before| + 1, a, at), Entry(|before| + 2, b, timestamp)]);
    ForgedLog(before, |before| + 1, a, at, b, timestamp);
    var x, y := Parts(c, fixed, p), Parts(c, fixed, q);
    assert x == [x[0], x[1]] + x[2..] && y == [x[0], y[1]] + x[2..];
    RestHasLines(x[2..]);
    SameText(Preamble(c), x[0], x[1], y[1], x[2..]);
  }

  lemma RestHasLines(parts: seq<Part>)
    requires parts != []
    ensures LinesOf(parts) != []
  {
  }
}
