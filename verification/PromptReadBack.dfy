/** From stored data through the printed prompt and back: every field shows the stored value it is labelled with. */
module PromptReadBack {
  import opened Base
  import opened Text
  import opened PromptValidation
  import opened PromptCompiler
  import opened PromptSections
  import opened PromptLog
  import opened PromptProofs
  import opened PromptTheorems

  // ---------------------------------------------------------------- lists of words

  /** The words between the brackets of a printed list. */
  function ReadList(text: string): seq<string> {
    if |text| <= 2 then [] else SplitOn(text[1..|text| - 1], ", ")
  }

  /** Words that a comma does not divide. */
  predicate Listable(words: seq<string>) {
    forall k :: 0 <= k < |words| ==> words[k] != "" && ',' !in words[k]
  }

  lemma NoCommaBefore(word: string, tail: string, p: nat)
    requires ',' !in word && p < |word|
    ensures !Occurs(", ", word + tail, p)
  {
    var s := word + tail;
    assert s[p] == word[p];
    assert p + 2 <= |s| ==> s[p..p + 2][0] == s[p];
  }

  lemma {:induction false} SeparatedSplits(words: seq<string>)
    requires words != [] && Listable(words)
    ensures SplitOn(Separated(words), ", ") == words && Separated(words) != ""
  {
    var w := words[0];
    if |words| == 1 {
      forall p: nat | p <= |w| ensures !Occurs(", ", w, p) {
        if p < |w| { NoCommaBefore(w, "", p); }
        assert w + "" == w;
      }
    } else {
      var rest := Separated(words[1..]);
      var s := w + (", " + rest);
      assert s == Separated(words);
      assert s[|w|..|w| + 2] == ", ";
      forall p: nat | p < |w| ensures !Occurs(", ", s, p) { NoCommaBefore(w, ", " + rest, p); }
      FindIs(s, ", ", 0, |w|);
      assert s[..|w|] == w && s[|w| + 2..] == rest;
      SeparatedSplits(words[1..]);
    }
  }

  /** A printed list gives its words back, in order. */
  lemma ListReadsBack(words: seq<string>)
    requires Listable(words)
    ensures ReadList(FormatList(words)) == words
  {
    if words != [] {
      var text := FormatList(words);
      SeparatedSplits(words);
      assert text[1..|text| - 1] == Separated(words);
    }
  }

  // ---------------------------------------------------------------- durations

  /** The text says so many seconds, as hours, minutes below sixty and seconds below sixty. */
  ghost predicate ShowsDuration(text: string, seconds: nat) {
    exists h: nat, m: nat, s: nat :: ShowsParts(text, h, m, s) && m < 60 && s < 60 && 3600 * h + 60 * m + s == seconds
  }

  predicate ShowsParts(text: string, h: nat, m: nat, s: nat) {
    text == Decimal(h) + ("h " + (Decimal(m) + ("m " + (Decimal(s) + "s"))))
  }

  /** A duration is printed exactly if there is one and it is not negative, and then in full. */
  lemma DurationShows(seconds: Option<int>)
    ensures seconds.Some? && seconds.value >= 0 ==> ShowsDuration(FormatDuration(seconds), seconds.value)
    ensures seconds.None? || seconds.value < 0 ==> FormatDuration(seconds) == "N/A"
  {
    if seconds.Some? && seconds.value >= 0 {
      var n: nat := seconds.value;
      var h, m, s := n / 3600, n % 3600 / 60, n % 3600 % 60;
      assert ShowsParts(FormatDuration(seconds), h, m, s) by { JoinParts(Decimal(h), "h ", Decimal(m), "m ", Decimal(s), "s"); }
    }
  }

  lemma JoinParts(a: string, b: string, c: string, d: string, e: string, f: string)
    ensures a + b + c + d + e + f == a + (b + (c + (d + (e + f))))
  {
    Assoc(a + b + c + d, e, f);
    Assoc(a + b + c, d, e + f);
    Assoc(a + b, c, d + (e + f));
    Assoc(a, b, c + (d + (e + f)));
  }

  function LeadingDigits(s: string): nat {
    if s == "" || !IsDigit(s[0]) then 0 else LeadingDigits(s[1..]) + 1
  }

  lemma {:induction false} LeadingIs(a: string, x: string)
    requires (forall i :: 0 <= i < |a| ==> IsDigit(a[i])) && x != "" && !IsDigit(x[0])
    ensures LeadingDigits(a + x) == |a|
  {
    if a == "" {
      assert a + x == x;
    } else {
      assert (a + x)[1..] == a[1..] + x && (a + x)[0] == a[0];
      LeadingIs(a[1..], x);
    }
  }

  lemma DigitsThen(a: string, x: string, b: string, y: string)
    requires (forall i :: 0 <= i < |a| ==> IsDigit(a[i])) && (forall i :: 0 <= i < |b| ==> IsDigit(b[i]))
    requires x != "" && y != "" && !IsDigit(x[0]) && !IsDigit(y[0]) && a + x == b + y
    ensures a == b && x == y
  {
    LeadingIs(a, x);
    LeadingIs(b, y);
    assert (a + x)[..|a|] == a && (b + y)[..|b|] == b && (a + x)[|a|..] == x && (b + y)[|b|..] == y;
  }

  lemma SameDecimal(m: nat, x: string, n: nat, y: string)
    requires x != "" && y != "" && !IsDigit(x[0]) && !IsDigit(y[0]) && Decimal(m) + x == Decimal(n) + y
    ensures m == n && x == y
  {
    DigitsThen(Decimal(m), x, Decimal(n), y);
    DigitsOfDecimal(m);
    DigitsOfDecimal(n);
  }

  lemma SameParts(text: string, h: nat, m: nat, s: nat, h': nat, m': nat, s': nat)
    requires ShowsParts(text, h, m, s) && ShowsParts(text, h', m', s')
    ensures h == h' && m == m' && s == s'
  {
    var x, y := Decimal(m) + ("m " + (Decimal(s) + "s")), Decimal(m') + ("m " + (Decimal(s') + "s"));
    SameDecimal(h, "h " + x, h', "h " + y);
    assert ("h " + x)[2..] == x && ("h " + y)[2..] == y;
    SameDecimal(m, "m " + (Decimal(s) + "s"), m', "m " + (Decimal(s') + "s"));
    assert ("m " + (Decimal(s) + "s"))[2..] == Decimal(s) + "s" && ("m " + (Decimal(s') + "s"))[2..] == Decimal(s') + "s";
    SameDecimal(s, "s", s', "s");
  }

  /** No text shows two durations. */
  lemma DurationIsUnique(text: string, a: nat, b: nat)
    requires ShowsDuration(text, a) && ShowsDuration(text, b)
    ensures a == b
  {
    var h: nat, m: nat, s: nat :| ShowsParts(text, h, m, s) && m < 60 && s < 60 && 3600 * h + 60 * m + s == a;
    var h': nat, m': nat, s': nat :| ShowsParts(text, h', m', s') && m' < 60 && s' < 60 && 3600 * h' + 60 * m' + s' == b;
    SameParts(text, h, m, s, h', m', s');
  }

  // ---------------------------------------------------------------- the whole prompt

  /** Dates end in no white space. */
  ghost predicate DatesEnd(f: Formats) {
    forall t :: RStrip(f.date(t)) == f.date(t)
  }

  /** Every text is one line, there is a sample or none, the word lists can be read, and the count says if there are dreams. */
  predicate Plainly(s: StoredSummary, dreams: seq<Dream>) {
    && (forall k :: 0 <= k < |dreams| ==> SingleLine(dreams[k].text))
    && (s.sample.Some? ==> s.sample.value != "" && SingleLine(s.sample.value))
    && Listable(s.keySymbols) && Listable(s.recurring)
    && (s.dreamCount == 0 <==> dreams == [])
  }

  /** The context fields of the prompt show the stored values. */
  ghost predicate ShowsContext(
    fields: map<string, string>, f: Formats, s: StoredSummary, lastActivity: Option<Time>, created: Option<Time>)
  {
    && fields.Keys == {"session_id", "user_id", "dream_count", "session_duration", "last_activity_at"}
    && fields["session_id"] == f.uuid(s.sessionId)
    && PyInt(fields["user_id"]) == Some(s.userId)
    && PyInt(fields["dream_count"]) == Some(s.dreamCount)
    && fields["last_activity_at"] == (if lastActivity.Some? then f.date(lastActivity.value) else "N/A")
    && (if lastActivity.Some? && created.Some? && created.value <= lastActivity.value
        then ShowsDuration(fields["session_duration"], lastActivity.value - created.value)
        else fields["session_duration"] == "N/A")
  }

  /** The summary fields show the stored lists, word by word, and the sample. */
  predicate ShowsSummary(fields: map<string, string>, s: StoredSummary) {
    && fields.Keys == {"key_symbols", "recurring_words", "raw_text_sample"}
    && ReadList(fields["key_symbols"]) == s.keySymbols
    && ReadList(fields["recurring_words"]) == s.recurring
    && fields["raw_text_sample"] == (if s.sample.Some? then s.sample.value else "N/A")
  }

  /** The log shows the dreams, earliest first and those of one instant by key, each with its text and date. */
  ghost predicate ShowsDreams(log: seq<(string, string)>, f: Formats, sorted: seq<Dream>, dreams: seq<Dream>) {
    && multiset(sorted) == multiset(dreams)
    && (forall i, j :: 0 <= i < j < |sorted| ==>
          sorted[i].createdAt < sorted[j].createdAt
          || (sorted[i].createdAt == sorted[j].createdAt && sorted[i].id <= sorted[j].id))
    && |log| == |sorted|
    && forall k :: 0 <= k < |log| ==> log[k] == (sorted[k].text, f.date(sorted[k].createdAt))
  }

  lemma CompiledIsReadable(
    c: Contract, f: Formats, s: StoredSummary, dreams: seq<Dream>, lastActivity: Option<Time>, created: Option<Time>)
    requires Headings(c.sections) && FormatsOk(f) && DatesEnd(f) && StoredOk(c, s, dreams) && PlainLists(s)
    requires Plainly(s, dreams)
    ensures Readable(c, Compile(f, s, dreams, lastActivity, created))
  {
    var sorted := SortDreams(dreams);
    CompiledHeaded(c, f, s, dreams, lastActivity, created);
    SortKeepsDreams(dreams);
    EntriesPass(f, sorted);
    NotAvailable();
    forall k | 0 <= k < |sorted| ensures SingleLine(sorted[k].text) { assert sorted[k] in dreams; }
  }

  lemma ContextFields(fields: map<string, string>, x: Context)
    requires FieldsAre(fields, CONTEXT_LABELS, ContextValues(x))
    ensures fields.Keys == {"session_id", "user_id", "dream_count", "session_duration", "last_activity_at"}
    ensures fields["session_id"] == x.sessionId && fields["user_id"] == Signed(x.userId)
    ensures fields["dream_count"] == Signed(x.dreamCount)
    ensures fields["session_duration"] == x.duration && fields["last_activity_at"] == x.lastActivity
  {
    var l, v := CONTEXT_LABELS, ContextValues(x);
    assert l[0] == "session_id" && l[1] == "user_id" && l[2] == "dream_count" && l[3] == "session_duration";
    assert l[4] == "last_activity_at";
    assert fields[l[0]] == v[0] && fields[l[1]] == v[1] && fields[l[2]] == v[2] && fields[l[3]] == v[3] && fields[l[4]] == v[4];
    forall k ensures k in fields.Keys <==> k in {l[0], l[1], l[2], l[3], l[4]} { }
  }

  lemma ContextShows(
    f: Formats, s: StoredSummary, dreams: seq<Dream>, lastActivity: Option<Time>, created: Option<Time>,
    fields: map<string, string>)
    requires FieldsAre(fields, CONTEXT_LABELS, ContextValues(Compile(f, s, dreams, lastActivity, created).context))
    ensures ShowsContext(fields, f, s, lastActivity, created)
  {
    ContextFields(fields, Compile(f, s, dreams, lastActivity, created).context);
    PyIntOfSigned(s.userId);
    PyIntOfSigned(s.dreamCount);
    DurationShows(if lastActivity.Some? && created.Some? then Some(lastActivity.value - created.value) else None);
  }

  lemma SummaryFields(fields: map<string, string>, x: Summary)
    requires FieldsAre(fields, SUMMARY_LABELS, SummaryValues(x))
    ensures fields.Keys == {"key_symbols", "recurring_words", "raw_text_sample"}
    ensures fields["key_symbols"] == FormatList(x.keySymbols) && fields["recurring_words"] == FormatList(x.recurring)
    ensures fields["raw_text_sample"] == x.sample
  {
    var l, v := SUMMARY_LABELS, SummaryValues(x);
    assert l[0] == "key_symbols" && l[1] == "recurring_words" && l[2] == "raw_text_sample";
    assert fields[l[0]] == v[0] && fields[l[1]] == v[1] && fields[l[2]] == v[2];
    forall k ensures k in fields.Keys <==> k in {l[0], l[1], l[2]} { }
  }

  lemma SummaryShows(
    f: Formats, s: StoredSummary, dreams: seq<Dream>, lastActivity: Option<Time>, created: Option<Time>,
    fields: map<string, string>)
    requires Listable(s.keySymbols) && Listable(s.recurring)
    requires FieldsAre(fields, SUMMARY_LABELS, SummaryValues(Compile(f, s, dreams, lastActivity, created).summary))
    ensures ShowsSummary(fields, s)
  {
    SummaryFields(fields, Compile(f, s, dreams, lastActivity, created).summary);
    ListReadsBack(s.keySymbols);
    ListReadsBack(s.recurring);
  }

  lemma DreamsShow(
    f: Formats, s: StoredSummary, dreams: seq<Dream>, lastActivity: Option<Time>, created: Option<Time>)
    ensures ShowsDreams(LogOf(Compile(f, s, dreams, lastActivity, created)), f, SortDreams(dreams), dreams)
  {
    var sorted := SortDreams(dreams);
    SortIsOrdered(dreams);
    forall i, j | 0 <= i < j < |sorted|
      ensures sorted[i].createdAt < sorted[j].createdAt
              || (sorted[i].createdAt == sorted[j].createdAt && sorted[i].id <= sorted[j].id)
    {
      assert Before(sorted[i], sorted[j]);
    }
  }

  /**
   * What is stored is what the prompt says: the validator's own extraction and parsing give back, label by label, the
   * stored identifiers, count, dates, duration, dreams, word lists and sample.
   */
  lemma StoredReadsBack(
    c: Contract, fixed: Fixed, f: Formats, s: StoredSummary, dreams: seq<Dream>,
    lastActivity: Option<Time>, created: Option<Time>) returns (sorted: seq<Dream>)
    requires ContractOk(c, fixed) && FormatsOk(f) && DatesEnd(f) && StoredOk(c, s, dreams) && PlainLists(s)
    requires Plainly(s, dreams)
    ensures var text := Rendered(c, fixed, Compile(f, s, dreams, lastActivity, created));
      && Extracts(text, c.sections)
      && ShowsContext(FieldsOf(SplitLines(Body(text, c.sections, 0))), f, s, lastActivity, created)
      && ShowsDreams(ReadLog(Body(text, c.sections, 1)), f, sorted, dreams)
      && ShowsSummary(FieldsOf(SplitLines(Body(text, c.sections, 2))), s)
  {
    var p := Compile(f, s, dreams, lastActivity, created);
    var text := Rendered(c, fixed, p);
    sorted := SortDreams(dreams);
    CompiledIsReadable(c, f, s, dreams, lastActivity, created);
    RoundTrip(c, fixed, p);
    ContextShows(f, s, dreams, lastActivity, created, FieldsOf(SplitLines(Body(text, c.sections, 0))));
    SummaryShows(f, s, dreams, lastActivity, created, FieldsOf(SplitLines(Body(text, c.sections, 2))));
    DreamsShow(f, s, dreams, lastActivity, created);
  }
}
