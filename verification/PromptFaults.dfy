/** Which fault codes the validator reports for which prompts. */
module PromptFaults {
  import opened Base
  import opened Text
  import opened PromptValidation
  import opened PromptLog
  import opened PromptTheorems

  // ---------------------------------------------------------------- the dream log

  /** What is wrong with a block that should be the n-th entry; later tests presuppose earlier ones. */
  predicate EntryFault(block: string, n: nat, e: Error) {
    var lines := SplitLines(block);
    match e
    case DreamEntryShape(k) => k == n && |lines| != 3
    case DreamEntryIndex(k) => k == n && |lines| == 3 && MarkerIndex(lines[0]) != Some(n)
    case DreamEntryText(k) => k == n && |lines| == 3 && MarkerIndex(lines[0]) == Some(n) && !(TEXT <= lines[1])
    case DreamEntryTimestamp(k) =>
      k == n && |lines| == 3 && MarkerIndex(lines[0]) == Some(n) && TEXT <= lines[1] && !(TIMESTAMP <= lines[2])
    case _ => false
  }

  /** Block k is the first that is not the entry it should be, and e says why. */
  predicate FirstFault(blocks: seq<string>, k: nat, e: Error) {
    k < |blocks| && EntriesFrom(blocks[..k], 0) && EntryFault(blocks[k], k + 1, e)
  }

  predicate DreamFault(body: string, count: int, e: Error) {
    if count == 0 then e == DreamLogEmpty && body != NO_DREAMS
    else FaultFrom(InkedBlocks(SplitOn(body, "\n\n")), 0, e)
  }

  lemma BlockErrorIs(block: string, n: nat, e: Error)
    ensures BlockError(block, n) == Some(e) <==> EntryFault(block, n, e)
    ensures EntryFault(block, n, e) ==> !IsEntry(block, n)
  {
  }

  lemma NextEntry(blocks: seq<string>, k: nat)
    requires k < |blocks|
    ensures EntriesFrom(blocks[..k + 1], 0) <==> EntriesFrom(blocks[..k], 0) && IsEntry(blocks[k], k + 1)
  {
    assert blocks[..k + 1] == blocks[..k] + [blocks[k]];
    EntriesAppend(blocks[..k], [blocks[k]], 0);
    OneEntry(blocks[k], k);
  }

  lemma EarlierEntries(blocks: seq<string>, k: nat, j: nat)
    requires k < j <= |blocks| && EntriesFrom(blocks[..j], 0)
    ensures IsEntry(blocks[k], k + 1)
  {
    assert IsEntry(blocks[..j][k], 0 + k + 1);
  }

  /** From block k on there is a first fault, and it is e. */
  predicate FaultFrom(blocks: seq<string>, k: nat, e: Error) {
    exists j :: k <= j < |blocks| && FirstFault(blocks, j, e)
  }

  lemma FaultLater(blocks: seq<string>, k: nat, e: Error)
    requires k < |blocks| && IsEntry(blocks[k], k + 1)
    ensures FaultFrom(blocks, k, e) <==> FaultFrom(blocks, k + 1, e)
  {
    BlockErrorIs(blocks[k], k + 1, e);
    if j :| k <= j < |blocks| && FirstFault(blocks, j, e) { assert j != k; }
  }

  lemma FaultHere(blocks: seq<string>, k: nat, e: Error)
    requires k < |blocks| && EntriesFrom(blocks[..k], 0) && !IsEntry(blocks[k], k + 1)
    ensures EntryFault(blocks[k], k + 1, e) <==> FaultFrom(blocks, k, e)
  {
    if EntryFault(blocks[k], k + 1, e) { assert FirstFault(blocks, k, e); }
    if j :| k <= j < |blocks| && FirstFault(blocks, j, e) {
      if k < j { EarlierEntries(blocks, k, j); }
    }
  }

  lemma {:induction false} BlocksErrorIs(blocks: seq<string>, k: nat, e: Error)
    requires k <= |blocks| && EntriesFrom(blocks[..k], 0)
    ensures BlocksError(blocks, k) == Some(e) <==> FaultFrom(blocks, k, e)
    decreases |blocks| - k
  {
    if k < |blocks| {
      IsEntryExactly(blocks[k], k + 1);
      if BlockError(blocks[k], k + 1).None? {
        NextEntry(blocks, k);
        FaultLater(blocks, k, e);
        BlocksErrorIs(blocks, k + 1, e);
      } else {
        BlockErrorIs(blocks[k], k + 1, e);
        FaultHere(blocks, k, e);
      }
    }
  }

  lemma DreamErrorIs(body: string, count: int, e: Error)
    ensures DreamError(body, count) == Some(e) <==> DreamFault(body, count, e)
  {
    var blocks := InkedBlocks(SplitOn(body, "\n\n"));
    assert blocks[..0] == [];
    BlocksErrorIs(blocks, 0, e);
  }

  // ---------------------------------------------------------------- the field sections

  /** Every required name is a field of the section. */
  predicate RequiredPresent(body: string, specs: seq<FieldSpec>) {
    forall i :: 0 <= i < |specs| && specs[i].required ==> specs[i].name in NamesOf(SplitLines(body))
  }

  lemma {:induction false} FieldsAreNames(lines: seq<string>)
    ensures forall l :: l in FieldsOf(lines) <==> l in NamesOf(lines)
  {
    if lines != [] { FieldsAreNames(lines[..|lines| - 1]); }
  }

  lemma FieldErrorIs(body: string, specs: seq<FieldSpec>, missing: Error, order: Error, e: Error)
    requires missing != order
    ensures FieldError(body, specs, missing, order) == Some(e)
       <==> (e == missing && !RequiredPresent(body, specs))
            || (e == order && RequiredPresent(body, specs) && NamesOf(SplitLines(body)) != Names(specs))
  {
    FieldsAreNames(SplitLines(body));
  }

  // ---------------------------------------------------------------- the report

  /** The fault e of the six section bodies. */
  predicate IsFault(bodies: seq<string>, c: Contract, count: int, e: Error)
    requires |c.sections| == 6 && |bodies| == 6
  {
    match e
    case MissingContextField => !RequiredPresent(bodies[0], c.sections[0].fields)
    case ContextFieldOrder =>
      RequiredPresent(bodies[0], c.sections[0].fields) && NamesOf(SplitLines(bodies[0])) != Names(c.sections[0].fields)
    case MissingSummaryField => !RequiredPresent(bodies[2], c.sections[2].fields)
    case SummaryFieldOrder =>
      RequiredPresent(bodies[2], c.sections[2].fields) && NamesOf(SplitLines(bodies[2])) != Names(c.sections[2].fields)
    case Instructions => !HoldsAll(bodies[3], c.instructionLines)
    case Framework => !HoldsAll(bodies[4], c.frameworkItems)
    case OutputFormat => !HoldsAll(bodies[5], c.outputLines)
    case Prefix => false
    case MissingSection => false
    case SectionOrder => false
    case _ => DreamFault(bodies[1], count, e)
  }

  /** The number of the section a fault is in. */
  function SectionOf(e: Error): nat {
    match e
    case MissingContextField => 0
    case ContextFieldOrder => 0
    case MissingSummaryField => 2
    case SummaryFieldOrder => 2
    case Instructions => 3
    case Framework => 4
    case OutputFormat => 5
    case _ => 1
  }

  lemma ListedHas(errors: seq<Error>, e: Option<Error>, x: Error)
    ensures x in errors + Listed(e) <==> x in errors || e == Some(x)
  {
  }

  lemma CollectedHas(
    a: Option<Error>, b: Option<Error>, c: Option<Error>, d: Option<Error>, e: Option<Error>, f: Option<Error>, x: Error)
    ensures x in Collected(a, b, c, d, e, f)
       <==> a == Some(x) || b == Some(x) || c == Some(x) || d == Some(x) || e == Some(x) || f == Some(x)
  {
    var one := Listed(a);
    var two := one + Listed(b);
    ListedHas(one, b, x);
    var three := two + Listed(c);
    ListedHas(two, c, x);
    var four := three + Listed(d);
    ListedHas(three, d, x);
    var five := four + Listed(e);
    ListedHas(four, e, x);
    ListedHas(five, f, x);
  }

  predicate InSection(e: Option<Error>, n: nat) {
    e.Some? ==> SectionOf(e.value) == n
  }

  predicate Ascending(errors: seq<Error>) {
    forall i, j :: 0 <= i < j < |errors| ==> SectionOf(errors[i]) < SectionOf(errors[j])
  }

  /** The errors are in ascending sections below n. */
  predicate AscendBelow(errors: seq<Error>, n: nat) {
    Ascending(errors) && forall i :: 0 <= i < |errors| ==> SectionOf(errors[i]) < n
  }

  lemma ListedAscends(errors: seq<Error>, e: Option<Error>, n: nat)
    requires AscendBelow(errors, n) && InSection(e, n)
    ensures AscendBelow(errors + Listed(e), n + 1)
  {
  }

  lemma CollectedAscends(
    a: Option<Error>, b: Option<Error>, c: Option<Error>, d: Option<Error>, e: Option<Error>, f: Option<Error>)
    requires InSection(a, 0) && InSection(b, 1) && InSection(c, 2) && InSection(d, 3) && InSection(e, 4) && InSection(f, 5)
    ensures Ascending(Collected(a, b, c, d, e, f))
  {
    var one := Listed(a);
    assert AscendBelow(one, 1);
    var two := one + Listed(b);
    ListedAscends(one, b, 1);
    var three := two + Listed(c);
    ListedAscends(two, c, 2);
    var four := three + Listed(d);
    ListedAscends(three, d, 3);
    var five := four + Listed(e);
    ListedAscends(four, e, 4);
    ListedAscends(five, f, 5);
  }

  lemma BodyFaults(bodies: seq<string>, c: Contract)
    requires |c.sections| == 6 && |bodies| == 6 && DreamCount(bodies[0]).Some?
    ensures var report := BodyViolations(bodies, c);
      && report.Ok? && Ascending(report.value)
      && forall e :: e in report.value <==> IsFault(bodies, c, DreamCount(bodies[0]).value, e)
  {
    var count := DreamCount(bodies[0]).value;
    var context := FieldError(bodies[0], c.sections[0].fields, MissingContextField, ContextFieldOrder);
    var dreams := DreamError(bodies[1], count);
    var summary := FieldError(bodies[2], c.sections[2].fields, MissingSummaryField, SummaryFieldOrder);
    var x := FixedError(bodies[3], c.instructionLines, Instructions);
    var y := FixedError(bodies[4], c.frameworkItems, Framework);
    var z := FixedError(bodies[5], c.outputLines, OutputFormat);
    forall e ensures e in Collected(context, dreams, summary, x, y, z) <==> IsFault(bodies, c, count, e) {
      CollectedHas(context, dreams, summary, x, y, z, e);
      FaultsOf(bodies, c, count, e);
    }
    if dreams.Some? { DreamErrorIs(bodies[1], count, dreams.value); }
    CollectedAscends(context, dreams, summary, x, y, z);
  }

  /** The six section validators find e exactly if it is a fault. */
  lemma FaultsOf(bodies: seq<string>, c: Contract, count: int, e: Error)
    requires |c.sections| == 6 && |bodies| == 6
    ensures IsFault(bodies, c, count, e)
       <==> FieldError(bodies[0], c.sections[0].fields, MissingContextField, ContextFieldOrder) == Some(e)
            || DreamError(bodies[1], count) == Some(e)
            || FieldError(bodies[2], c.sections[2].fields, MissingSummaryField, SummaryFieldOrder) == Some(e)
            || FixedError(bodies[3], c.instructionLines, Instructions) == Some(e)
            || FixedError(bodies[4], c.frameworkItems, Framework) == Some(e)
            || FixedError(bodies[5], c.outputLines, OutputFormat) == Some(e)
  {
    FieldErrorIs(bodies[0], c.sections[0].fields, MissingContextField, ContextFieldOrder, e);
    DreamErrorIs(bodies[1], count, e);
    FieldErrorIs(bodies[2], c.sections[2].fields, MissingSummaryField, SummaryFieldOrder, e);
  }

  /**
   * What is reported of any prompt: a wrong start, a missing heading or a wrong order of headings alone; else every fault of
   * the six sections and nothing else, in the order of the sections, unless the count is no number.
   */
  lemma ReportsExactly(prompt: string, c: Contract)
    requires |c.sections| == 6
    ensures var report := Violations(prompt, c);
      if !(c.prefix <= prompt) then report == Ok([Prefix])
      else if !AllPresent(prompt, c.sections) then report == Ok([MissingSection])
      else if !InOrder(prompt, c.sections) then report == Ok([SectionOrder])
      else if !Extracts(prompt, c.sections) || DreamCount(Bodies(prompt, c)[0]).None? then report == Err(ValueError)
      else
        && report.Ok? && Ascending(report.value)
        && forall e :: e in report.value <==>
             IsFault(Bodies(prompt, c), c, DreamCount(Bodies(prompt, c)[0]).value, e)
  {
    if Extracts(prompt, c.sections) && DreamCount(Bodies(prompt, c)[0]).Some? { BodyFaults(Bodies(prompt, c), c); }
  }
}
