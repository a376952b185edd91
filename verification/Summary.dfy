/** services/session_summary_service.py: the deterministic summary of a session's dreams. */
module Summary {
  import opened Base
  import opened Text
  import opened PromptCompiler
  import opened PromptSections
  import PromptProofs
  import PromptTheorems
  import PromptValidation

  type Tokens = seq<string>

  const MAX_KEY_SYMBOLS := 10
  const RAW_TEXT_DREAM_LIMIT := 5
  const RAW_TEXT_CHAR_LIMIT := 1000

  // ---------------------------------------------------------------- what is counted

  function Sum(dreams: seq<Tokens>, f: Tokens -> nat): nat {
    if dreams == [] then 0 else Sum(dreams[..|dreams| - 1], f) + f(dreams[|dreams| - 1])
  }

  function Occurrences(w: string): Tokens -> nat {
    tokens => multiset(tokens)[w]
  }

  function Presence(w: string): Tokens -> nat {
    tokens => if w in tokens then 1 else 0
  }

  /** How often the word occurs in all dreams together. */
  function Total(dreams: seq<Tokens>, w: string): nat {
    Sum(dreams, Occurrences(w))
  }

  /** In how many dreams the word occurs. */
  function Spread(dreams: seq<Tokens>, w: string): nat {
    Sum(dreams, Presence(w))
  }

  /** The first n dreams that have the word. */
  function DreamsWith(dreams: seq<Tokens>, w: string, n: nat): set<nat>
    requires n <= |dreams|
  {
    set k: nat | k < n && w in dreams[k]
  }

  lemma NextWith(dreams: seq<Tokens>, w: string, n: nat)
    requires n < |dreams|
    ensures DreamsWith(dreams, w, n + 1) == DreamsWith(dreams, w, n) + if w in dreams[n] then {n} else {}
  {
  }

  /** The spread of a word is the number of dreams that have it. */
  lemma {:induction false} SpreadCounts(dreams: seq<Tokens>, w: string, n: nat)
    requires n <= |dreams|
    ensures Spread(dreams[..n], w) == |DreamsWith(dreams, w, n)|
  {
    if n > 0 {
      SpreadCounts(dreams, w, n - 1);
      NextWith(dreams, w, n - 1);
      assert dreams[..n][..n - 1] == dreams[..n - 1];
    }
  }

  function AllTokens(dreams: seq<Tokens>): Tokens {
    if dreams == [] then [] else dreams[0] + AllTokens(dreams[1..])
  }

  /** The total of a word is how often it stands in all the tokens. */
  lemma {:induction false} TotalCounts(dreams: seq<Tokens>, w: string)
    ensures Total(dreams, w) == multiset(AllTokens(dreams))[w]
  {
    if dreams != [] {
      var n := |dreams| - 1;
      TotalCounts(dreams[..n], w);
      LastTokens(dreams);
    }
  }

  lemma {:induction false} LastTokens(dreams: seq<Tokens>)
    requires dreams != []
    ensures AllTokens(dreams) == AllTokens(dreams[..|dreams| - 1]) + dreams[|dreams| - 1]
  {
    var n := |dreams| - 1;
    if n == 0 {
      assert dreams[1..] == [] && dreams[..0] == [];
    } else {
      LastTokens(dreams[1..]);
      assert dreams[1..][..n - 1] == dreams[..n][1..] && dreams[1..][n - 1] == dreams[n];
      Assoc(dreams[0], AllTokens(dreams[1..][..n - 1]), dreams[n]);
    }
  }

  // ---------------------------------------------------------------- the order of words

  /** Python's < on strings: by code points, a proper prefix first. */
  predicate Less(a: string, b: string) {
    b != "" && (a == "" || a[0] < b[0] || (a[0] == b[0] && Less(a[1..], b[1..])))
  }

  lemma {:induction false} LessIsTotal(a: string, b: string)
    ensures a == b || Less(a, b) || Less(b, a)
    ensures !(Less(a, b) && Less(b, a)) && !Less(a, a)
  {
    if a != "" && b != "" {
      LessIsTotal(a[1..], b[1..]);
      assert a == [a[0]] + a[1..] && b == [b[0]] + b[1..];
    }
    if a != "" { LessIsTotal(a[1..], a[1..]); }
  }

  lemma {:induction false} LessExactly(a: string, b: string)
    ensures Less(a, b)
       <==> exists k: nat :: k <= |a| && k < |b| && a[..k] == b[..k] && (k == |a| || a[k] < b[k])
  {
    if Less(a, b) {
      var k := FirstDifference(a, b);
    }
    if k: nat :| k <= |a| && k < |b| && a[..k] == b[..k] && (k == |a| || a[k] < b[k]) {
      LessAt(a, b, k);
    }
  }

  lemma {:induction false} FirstDifference(a: string, b: string) returns (k: nat)
    requires Less(a, b)
    ensures k <= |a| && k < |b| && a[..k] == b[..k] && (k == |a| || a[k] < b[k])
  {
    if a == "" || a[0] < b[0] {
      k := 0;
    } else {
      var j := FirstDifference(a[1..], b[1..]);
      k := j + 1;
      assert a[..k] == [a[0]] + a[1..][..j] && b[..k] == [b[0]] + b[1..][..j];
    }
  }

  lemma {:induction false} LessAt(a: string, b: string, k: nat)
    requires k <= |a| && k < |b| && a[..k] == b[..k] && (k == |a| || a[k] < b[k])
    ensures Less(a, b)
  {
    if k > 0 {
      assert a[0] == a[..k][0] == b[..k][0] == b[0];
      assert a[1..][..k - 1] == a[..k][1..] && b[1..][..k - 1] == b[..k][1..];
      LessAt(a[1..], b[1..], k - 1);
    }
  }

  lemma {:induction false} LessIsTransitive(a: string, b: string, c: string)
    requires Less(a, b) && Less(b, c)
    ensures Less(a, c)
  {
    if a != "" && a[0] == b[0] == c[0] { LessIsTransitive(a[1..], b[1..], c[1..]); }
  }

  /** The sort key (-count, word). */
  predicate Precedes(count: string -> nat, a: string, b: string) {
    count(a) > count(b) || (count(a) == count(b) && Less(a, b))
  }

  predicate Ranked(count: string -> nat, words: seq<string>) {
    forall i, j :: 0 <= i < j < |words| ==> Precedes(count, words[i], words[j])
  }

  lemma PrecedesIsTotal(count: string -> nat, a: string, b: string)
    ensures a == b || Precedes(count, a, b) || Precedes(count, b, a)
    ensures !(Precedes(count, a, b) && Precedes(count, b, a)) && !Precedes(count, a, a)
  {
    LessIsTotal(a, b);
    LessIsTotal(a, a);
  }

  lemma PrecedesIsTransitive(count: string -> nat, a: string, b: string, c: string)
    requires Precedes(count, a, b) && Precedes(count, b, c)
    ensures Precedes(count, a, c)
  {
    if count(a) == count(b) == count(c) { LessIsTransitive(a, b, c); }
  }

  /** A ranking is determined by which words it lists. */
  lemma {:induction false} RankingIsUnique(count: string -> nat, a: seq<string>, b: seq<string>)
    requires Ranked(count, a) && Ranked(count, b)
    requires forall w :: w in a <==> w in b
    ensures a == b
  {
    assert a != [] ==> a[0] in a;
    assert b != [] ==> b[0] in b;
    if a != [] && b != [] {
      FirstIsSame(count, a, b);
      forall w ensures w in a[1..] <==> w in b[1..] {
        RestOf(count, a, w);
        RestOf(count, b, w);
      }
      RankingIsUnique(count, a[1..], b[1..]);
      assert a == [a[0]] + a[1..] && b == [b[0]] + b[1..];
    }
  }

  lemma RestOf(count: string -> nat, a: seq<string>, w: string)
    requires a != [] && Ranked(count, a)
    ensures w in a[1..] <==> w in a && w != a[0]
  {
    PrecedesIsTotal(count, a[0], a[0]);
    assert forall j :: 0 < j < |a| ==> a[j] != a[0] by {
      forall j | 0 < j < |a| ensures a[j] != a[0] { assert Precedes(count, a[0], a[j]); }
    }
  }

  lemma FirstIsSame(count: string -> nat, a: seq<string>, b: seq<string>)
    requires Ranked(count, a) && Ranked(count, b) && a != [] && b != []
    requires forall w :: w in a <==> w in b
    ensures a[0] == b[0]
  {
    forall k | 0 < k < |a| ensures Precedes(count, a[0], a[k]) { }
    forall k | 0 < k < |b| ensures Precedes(count, b[0], b[k]) { }
    assert a[0] in b && b[0] in a;
    PrecedesIsTotal(count, a[0], b[0]);
  }

  // ---------------------------------------------------------------- the loops

  function Count(counter: map<string, nat>): string -> nat {
    w => if w in counter then counter[w] else 0
  }

  /** Counter.update over a set: every word of the set counts once. */
  function UpdatedBySet(counter: map<string, nat>, words: set<string>): map<string, nat> {
    map w | w in counter.Keys + words :: Count(counter)(w) + if w in words then 1 else 0
  }

  function InsertWord(count: string -> nat, w: string, words: seq<string>): (r: seq<string>)
    ensures forall v :: v in r <==> v == w || v in words
  {
    if words == [] then [w]
    else if Precedes(count, w, words[0]) then [w] + words
    else [words[0]] + InsertWord(count, w, words[1..])
  }

  lemma {:induction false} InsertKeepsRanking(count: string -> nat, w: string, words: seq<string>)
    requires Ranked(count, words) && w !in words
    ensures Ranked(count, InsertWord(count, w, words))
  {
    if words != [] {
      PrecedesIsTotal(count, w, words[0]);
      if Precedes(count, w, words[0]) {
        forall j | 0 < j < |words| ensures Precedes(count, w, words[j]) {
          PrecedesIsTransitive(count, w, words[0], words[j]);
        }
      } else {
        var rest := InsertWord(count, w, words[1..]);
        InsertKeepsRanking(count, w, words[1..]);
        forall j | 0 <= j < |rest| ensures Precedes(count, words[0], rest[j]) {
          assert rest[j] in rest;
          assert rest[j] == w || rest[j] in words[1..];
        }
      }
    }
  }

  /** sorted(counter.items(), key=...), reduced to its words. */
  method RankWords(counter: map<string, nat>) returns (words: seq<string>)
    ensures Ranked(Count(counter), words)
    ensures forall w :: w in words <==> w in counter
    ensures |words| == |counter|
  {
    var rest := counter.Keys;
    words := [];
    while rest != {}
      invariant rest <= counter.Keys && |words| + |rest| == |counter|
      invariant Ranked(Count(counter), words)
      invariant forall w :: w in words <==> w in counter.Keys - rest
      decreases |rest|
    {
      var w :| w in rest;
      InsertKeepsRanking(Count(counter), w, words);
      InsertLength(Count(counter), w, words);
      words := InsertWord(Count(counter), w, words);
      rest := rest - {w};
    }
  }

  lemma {:induction false} InsertLength(count: string -> nat, w: string, words: seq<string>)
    ensures |InsertWord(count, w, words)| == |words| + 1
  {
    if words != [] { InsertLength(count, w, words[1..]); }
  }

  /** Counter(tokens) */
  method CountWords(tokens: seq<string>) returns (counter: map<string, nat>)
    ensures forall w :: w in counter <==> w in tokens
    ensures forall w :: w in counter ==> counter[w] == multiset(tokens)[w]
  {
    counter := map[];
    for i := 0 to |tokens|
      invariant forall w :: w in counter <==> w in tokens[..i]
      invariant forall w :: w in counter ==> counter[w] == multiset(tokens[..i])[w]
    {
      var w := tokens[i];
      assert tokens[..i + 1] == tokens[..i] + [w];
      assert w !in tokens[..i] ==> multiset(tokens[..i])[w] == 0;
      counter := counter[w := Count(counter)(w) + 1];
    }
    assert tokens[..|tokens|] == tokens;
  }

  lemma InitTokens(dreams: seq<Tokens>, k: nat)
    requires k < |dreams|
    ensures dreams[..k + 1][..k] == dreams[..k] && dreams[..k + 1][k] == dreams[k]
  {
  }

  /** The loop over the dreams: all tokens in order, and per word the number of dreams that have it. */
  method CollectTokens(dreams: seq<Tokens>) returns (all: seq<string>, perDream: map<string, nat>)
    ensures forall w :: multiset(all)[w] == Total(dreams, w)
    ensures forall w :: Count(perDream)(w) == Spread(dreams, w)
  {
    all, perDream := [], map[];
    for k := 0 to |dreams|
      invariant forall w :: multiset(all)[w] == Total(dreams[..k], w)
      invariant forall w :: Count(perDream)(w) == Spread(dreams[..k], w)
    {
      InitTokens(dreams, k);
      var tokens := dreams[k];
      all := all + tokens;
      perDream := UpdatedBySet(perDream, set w | w in tokens);
    }
    assert dreams[..|dreams|] == dreams;
  }

  // ---------------------------------------------------------------- the summary

  function Totals(dreams: seq<Tokens>): string -> nat {
    w => Total(dreams, w)
  }

  /** The first ten words by total count: no word left out comes before one listed. */
  ghost predicate IsTop(dreams: seq<Tokens>, symbols: seq<string>) {
    && Ranked(Totals(dreams), symbols) && |symbols| <= MAX_KEY_SYMBOLS
    && (forall w :: w in symbols ==> Total(dreams, w) > 0)
    && (forall w :: w !in symbols && Total(dreams, w) > 0 ==> |symbols| == MAX_KEY_SYMBOLS)
    && (forall w, v :: w !in symbols && Total(dreams, w) > 0 && v in symbols ==> Precedes(Totals(dreams), v, w))
  }

  /** Exactly the words that occur in two dreams or more. */
  ghost predicate IsRecurring(dreams: seq<Tokens>, words: seq<string>) {
    && Ranked(Totals(dreams), words)
    && forall w :: w in words <==> Spread(dreams, w) >= 2
  }

  lemma RankedAlike(f: string -> nat, g: string -> nat, words: seq<string>)
    requires Ranked(f, words) && forall w :: w in words ==> f(w) == g(w)
    ensures Ranked(g, words)
  {
    forall i, j | 0 <= i < j < |words| ensures Precedes(g, words[i], words[j]) {
      assert Precedes(f, words[i], words[j]);
      assert words[i] in words && words[j] in words;
    }
  }

  method KeySymbols(dreams: seq<Tokens>, counts: map<string, nat>) returns (symbols: seq<string>)
    requires forall w :: Count(counts)(w) == Total(dreams, w)
    requires forall w :: w in counts ==> counts[w] > 0
    ensures IsTop(dreams, symbols)
  {
    var ranked := RankWords(counts);
    RankedAlike(Count(counts), Totals(dreams), ranked);
    symbols := if |ranked| > MAX_KEY_SYMBOLS then ranked[..MAX_KEY_SYMBOLS] else ranked;
    forall k | 0 <= k < |symbols| ensures symbols[k] == ranked[k] && symbols[k] in symbols { }
    forall w | w in symbols ensures Total(dreams, w) > 0 { assert w in ranked && Count(counts)(w) > 0; }
    forall w | w !in symbols && Total(dreams, w) > 0
      ensures |symbols| == MAX_KEY_SYMBOLS && forall v :: v in symbols ==> Precedes(Totals(dreams), v, w)
    {
      assert Count(counts)(w) > 0 && w in ranked;
      var i :| 0 <= i < |ranked| && ranked[i] == w;
      assert i >= |symbols|;
      forall v | v in symbols ensures Precedes(Totals(dreams), v, w) {
        var j :| 0 <= j < |symbols| && symbols[j] == v;
        assert ranked[j] == v && j < i;
      }
    }
  }

  method RecurringWords(dreams: seq<Tokens>, counts: map<string, nat>, perDream: map<string, nat>)
    returns (words: seq<string>)
    requires forall w :: Count(counts)(w) == Total(dreams, w)
    requires forall w :: Count(perDream)(w) == Spread(dreams, w)
    ensures IsRecurring(dreams, words)
  {
    var counter := map w | w in perDream && perDream[w] > 1 :: Count(counts)(w);
    words := RankWords(counter);
    forall w | w in words ensures Count(counter)(w) == Total(dreams, w) {
      assert w in counter && Count(counts)(w) == Total(dreams, w);
    }
    RankedAlike(Count(counter), Totals(dreams), words);
    forall w ensures w in words <==> Spread(dreams, w) >= 2 {
      assert Count(perDream)(w) == Spread(dreams, w);
    }
  }

  // ---------------------------------------------------------------- building

  datatype DreamRow = DreamRow(sessionId: SessionId, dream: Dream)

  datatype BuildError = SessionNotFound

  function InSession(rows: seq<DreamRow>, sessionId: SessionId): seq<Dream> {
    if rows == [] then []
    else if rows[0].sessionId == sessionId then [rows[0].dream] + InSession(rows[1..], sessionId)
    else InSession(rows[1..], sessionId)
  }

  /** select(Dream).where(session).order_by(created_at, id) */
  function DreamsOf(rows: seq<DreamRow>, sessionId: SessionId): seq<Dream> {
    SortDreams(InSession(rows, sessionId))
  }

  function Tokenized(dreams: seq<Dream>, tokenize: string -> Tokens): (r: seq<Tokens>)
    ensures |r| == |dreams| && forall k :: 0 <= k < |r| ==> r[k] == tokenize(dreams[k].text)
  {
    seq(|dreams|, k requires 0 <= k < |dreams| => tokenize(dreams[k].text))
  }

  function Texts(dreams: seq<Dream>): seq<string> {
    seq(|dreams|, k requires 0 <= k < |dreams| => dreams[k].text)
  }

  function Sample(dreams: seq<Dream>): Option<string> {
    var first := if |dreams| > RAW_TEXT_DREAM_LIMIT then dreams[..RAW_TEXT_DREAM_LIMIT] else dreams;
    var text := Spaced(Texts(first));
    if text == "" then None
    else Some(if |text| > RAW_TEXT_CHAR_LIMIT then text[..RAW_TEXT_CHAR_LIMIT] else text)
  }

  /** The sample is what fits in 1000 characters of the first five texts joined by spaces, if that is anything. */
  lemma SampleIs(dreams: seq<Dream>)
    ensures var texts := Texts(if |dreams| <= 5 then dreams else dreams[..5]);
      && (Sample(dreams).None? <==> Spaced(texts) == "")
      && (Sample(dreams).Some? ==>
            && Sample(dreams).value <= Spaced(texts)
            && |Sample(dreams).value| == if |Spaced(texts)| < 1000 then |Spaced(texts)| else 1000)
  {
  }

  /** What a summary says of a session's dreams: its words with their totals and spreads, in their order. */
  ghost predicate Describes(s: StoredSummary, dreams: seq<Dream>, tokenize: string -> Tokens) {
    var tokens := Tokenized(dreams, tokenize);
    && s.dreamCount == |dreams| && s.sample == Sample(dreams)
    && |s.keySymbols| <= 10 && InOrder(tokens, s.keySymbols) && InOrder(tokens, s.recurring)
    && (forall w :: w in s.keySymbols ==> w in AllTokens(tokens))
    && (forall w :: w in AllTokens(tokens) && w !in s.keySymbols ==>
          |s.keySymbols| == 10 && forall v :: v in s.keySymbols ==>
            multiset(AllTokens(tokens))[v] >= multiset(AllTokens(tokens))[w])
    && (forall w :: w in s.recurring <==> |DreamsWith(tokens, w, |tokens|)| >= 2)
  }

  /** By falling number of occurrences, and among equally frequent words alphabetically. */
  predicate InOrder(tokens: seq<Tokens>, words: seq<string>) {
    var all := multiset(AllTokens(tokens));
    forall i, j :: 0 <= i < j < |words| ==>
      all[words[i]] > all[words[j]] || (all[words[i]] == all[words[j]] && Less(words[i], words[j]))
  }

  lemma RankedInOrder(tokens: seq<Tokens>, words: seq<string>)
    requires Ranked(Totals(tokens), words)
    ensures InOrder(tokens, words)
  {
    forall w ensures Total(tokens, w) == multiset(AllTokens(tokens))[w] { TotalCounts(tokens, w); }
    forall i, j | 0 <= i < j < |words|
      ensures var all := multiset(AllTokens(tokens));
        all[words[i]] > all[words[j]] || (all[words[i]] == all[words[j]] && Less(words[i], words[j]))
    {
      assert Precedes(Totals(tokens), words[i], words[j]);
    }
  }

  /** A summary built as specified describes the dreams, told without sums and ranks. */
  lemma SummaryDescribes(
    s: StoredSummary, sessionId: SessionId, userId: UserId, dreams: seq<Dream>, tokenize: string -> Tokens)
    requires IsSummary(s, sessionId, userId, dreams, tokenize)
    ensures Describes(s, dreams, tokenize)
  {
    var tokens := Tokenized(dreams, tokenize);
    RankedInOrder(tokens, s.keySymbols);
    RankedInOrder(tokens, s.recurring);
    forall w ensures Total(tokens, w) == multiset(AllTokens(tokens))[w] { TotalCounts(tokens, w); }
    assert tokens[..|tokens|] == tokens;
    forall w ensures Spread(tokens, w) == |DreamsWith(tokens, w, |tokens|)| { SpreadCounts(tokens, w, |tokens|); }
    forall w | w in s.keySymbols ensures w in AllTokens(tokens) { assert Total(tokens, w) > 0; }
    forall w, v | w in AllTokens(tokens) && w !in s.keySymbols && v in s.keySymbols
      ensures multiset(AllTokens(tokens))[v] >= multiset(AllTokens(tokens))[w]
    {
      assert Total(tokens, w) > 0;
      assert Precedes(Totals(tokens), v, w);
    }
    forall w | w in AllTokens(tokens) && w !in s.keySymbols ensures |s.keySymbols| == 10 { assert Total(tokens, w) > 0; }
  }

  ghost predicate IsSummary(
    s: StoredSummary, sessionId: SessionId, userId: UserId, dreams: seq<Dream>, tokenize: string -> Tokens)
  {
    && s.sessionId == sessionId && s.userId == userId && s.dreamCount == |dreams| && s.sample == Sample(dreams)
    && IsTop(Tokenized(dreams, tokenize), s.keySymbols) && IsRecurring(Tokenized(dreams, tokenize), s.recurring)
  }

  method BuildSessionSummary(
    sessions: map<SessionId, UserId>, rows: seq<DreamRow>, sessionId: SessionId, tokenize: string -> Tokens)
    returns (r: Result<StoredSummary, BuildError>)
    ensures r.Ok? <==> sessionId in sessions
    ensures r.Ok? ==> IsSummary(r.value, sessionId, sessions[sessionId], DreamsOf(rows, sessionId), tokenize)
    ensures r.Ok? ==> Describes(r.value, DreamsOf(rows, sessionId), tokenize)
  {
    if sessionId !in sessions { return Err(SessionNotFound); }
    var dreams := DreamsOf(rows, sessionId);
    var tokens := Tokenized(dreams, tokenize);
    var all, perDream := CollectTokens(tokens);
    var counts := CountWords(all);
    forall w ensures Count(counts)(w) == Total(tokens, w) { assert w in all <==> multiset(all)[w] > 0; }
    forall w | w in counts ensures counts[w] > 0 { assert w in all; }
    var symbols := KeySymbols(tokens, counts);
    var recurring := RecurringWords(tokens, counts, perDream);
    r := Ok(StoredSummary(sessionId, sessions[sessionId], |dreams|, symbols, recurring, Sample(dreams)));
    SummaryDescribes(r.value, sessionId, sessions[sessionId], dreams, tokenize);
  }

  // ---------------------------------------------------------------- what determines a summary

  lemma Without(s: seq<Tokens>, i: nat)
    requires i < |s|
    ensures multiset(s) == multiset(s[..i] + s[i + 1..]) + multiset{s[i]}
  {
    assert s == s[..i] + [s[i]] + s[i + 1..];
  }

  lemma {:induction false} SumWithout(s: seq<Tokens>, i: nat, f: Tokens -> nat)
    requires i < |s|
    ensures Sum(s, f) == Sum(s[..i] + s[i + 1..], f) + f(s[i])
  {
    var n := |s| - 1;
    if i == n {
      assert s[..i] + s[i + 1..] == s[..n];
    } else {
      SumWithout(s[..n], i, f);
      var t := s[..i] + s[i + 1..];
      assert t[..n - 1] == s[..n][..i] + s[..n][i + 1..] && t[n - 1] == s[n];
    }
  }

  /** A sum over dreams does not depend on their order. */
  lemma {:induction false} SumIgnoresOrder(a: seq<Tokens>, b: seq<Tokens>, f: Tokens -> nat)
    requires multiset(a) == multiset(b)
    ensures Sum(a, f) == Sum(b, f)
  {
    assert |a| == |multiset(a)| == |multiset(b)| == |b|;
    if a != [] {
      var n := |a| - 1;
      var i := Partner(a, b);
      SumIgnoresOrder(a[..n], b[..i] + b[i + 1..], f);
      SumWithout(b, i, f);
    }
  }

  /** The last dream of one order has a place in the other, and the rest are the same dreams. */
  lemma Partner(a: seq<Tokens>, b: seq<Tokens>) returns (i: nat)
    requires a != [] && multiset(a) == multiset(b)
    ensures i < |b| && b[i] == a[|a| - 1]
    ensures multiset(a[..|a| - 1]) == multiset(b[..i] + b[i + 1..])
  {
    var n := |a| - 1;
    assert a[n] in multiset(b);
    i :| 0 <= i < |b| && b[i] == a[n];
    Without(a, n);
    Without(b, i);
    assert a[..n] + a[n + 1..] == a[..n];
    assert multiset(a[..n]) == multiset(a) - multiset{a[n]} == multiset(b[..i] + b[i + 1..]);
  }

  /** Lists are the same words wherever the tokens are the same up to the order of the dreams. */
  lemma SymbolsIgnoreOrder(
    a: seq<Tokens>, b: seq<Tokens>, topA: seq<string>, topB: seq<string>, recA: seq<string>, recB: seq<string>)
    requires multiset(a) == multiset(b)
    requires IsTop(a, topA) && IsTop(b, topB) && IsRecurring(a, recA) && IsRecurring(b, recB)
    ensures topA == topB && recA == recB
  {
    forall w ensures Total(a, w) == Total(b, w) && Spread(a, w) == Spread(b, w) {
      SumIgnoresOrder(a, b, Occurrences(w));
      SumIgnoresOrder(a, b, Presence(w));
    }
    RankedAlike(Totals(b), Totals(a), recB);
    RankingIsUnique(Totals(a), recA, recB);
    RankedAlike(Totals(b), Totals(a), topB);
    assert IsTop(a, topB) by {
      forall w, v | w !in topB && Total(a, w) > 0 && v in topB ensures Precedes(Totals(a), v, w) {
        assert Total(b, w) > 0 && Precedes(Totals(b), v, w);
      }
    }
    TopIsUnique(a, topA, topB);
  }

  lemma DistinctRanked(count: string -> nat, words: seq<string>)
    requires Ranked(count, words)
    ensures |set w | w in words| == |words|
  {
    forall i, j | 0 <= i < j < |words| ensures words[i] != words[j] {
      PrecedesIsTotal(count, words[i], words[i]);
      assert Precedes(count, words[i], words[j]);
    }
    DistinctSize(words);
  }

  lemma {:induction false} DistinctSize(words: seq<string>)
    requires forall i, j :: 0 <= i < j < |words| ==> words[i] != words[j]
    ensures |set w | w in words| == |words|
  {
    if words != [] {
      DistinctSize(words[1..]);
      assert (set w | w in words) == (set w | w in words[1..]) + {words[0]};
    }
  }

  /** Two top lists of the same dreams list the same words. */
  lemma TopIsUnique(dreams: seq<Tokens>, a: seq<string>, b: seq<string>)
    requires IsTop(dreams, a) && IsTop(dreams, b)
    ensures a == b
  {
    forall w ensures w in a <==> w in b {
      if w in a { TopIncludes(dreams, a, b, w); }
      if w in b { TopIncludes(dreams, b, a, w); }
    }
    RankingIsUnique(Totals(dreams), a, b);
  }

  lemma TopIncludes(dreams: seq<Tokens>, a: seq<string>, b: seq<string>, w: string)
    requires IsTop(dreams, a) && IsTop(dreams, b) && w in a
    ensures w in b
  {
    // Otherwise b is full, and a lists all of b and w besides, which is too many.
    DistinctRanked(Totals(dreams), a);
    DistinctRanked(Totals(dreams), b);
    var inA, inB := set x | x in a, set x | x in b;
    forall v | v in b && w !in b ensures v in a {
      PrecedesIsTotal(Totals(dreams), v, w);
      assert Total(dreams, v) > 0 && Total(dreams, w) > 0;
    }
    assert w in inA && (w !in b ==> w !in inB && inB <= inA);
    if w !in b { Smaller(inB, inA); }
  }

  lemma Smaller(a: set<string>, b: set<string>)
    requires a < b
    ensures |a| < |b|
  {
    assert b == a + (b - a);
  }

  /** The stored rows determine the summary, in whatever order the table holds them. */
  lemma SummaryIgnoresOrder(
    a: seq<DreamRow>, b: seq<DreamRow>, s: StoredSummary, t: StoredSummary,
    sessionId: SessionId, userId: UserId, tokenize: string -> Tokens)
    requires multiset(a) == multiset(b) && PromptTheorems.KeysIdentify(InSession(a, sessionId))
    requires IsSummary(s, sessionId, userId, DreamsOf(a, sessionId), tokenize)
    requires IsSummary(t, sessionId, userId, DreamsOf(b, sessionId), tokenize)
    ensures s == t
  {
    InSessionIgnoresOrder(a, b, sessionId);
    PromptTheorems.SortIgnoresOrder(InSession(a, sessionId), InSession(b, sessionId));
    var tokens := Tokenized(DreamsOf(a, sessionId), tokenize);
    SymbolsIgnoreOrder(tokens, tokens, s.keySymbols, t.keySymbols, s.recurring, t.recurring);
  }

  lemma {:induction false} CountInSession(rows: seq<DreamRow>, sessionId: SessionId, d: Dream)
    ensures multiset(InSession(rows, sessionId))[d] == multiset(rows)[DreamRow(sessionId, d)]
  {
    if rows != [] {
      CountInSession(rows[1..], sessionId, d);
      assert rows == [rows[0]] + rows[1..];
    }
  }

  lemma InSessionIgnoresOrder(a: seq<DreamRow>, b: seq<DreamRow>, sessionId: SessionId)
    requires multiset(a) == multiset(b)
    ensures multiset(InSession(a, sessionId)) == multiset(InSession(b, sessionId))
  {
    forall d: Dream ensures multiset(InSession(a, sessionId))[d] == multiset(InSession(b, sessionId))[d] {
      CountInSession(a, sessionId, d);
      CountInSession(b, sessionId, d);
    }
  }

  // ---------------------------------------------------------------- from stored dreams to a valid prompt

  lemma {:induction false} SpacedIsFolded(texts: seq<string>)
    requires forall k :: 0 <= k < |texts| ==> OneLine(texts[k])
    ensures Folded(Spaced(texts))
  {
    if |texts| == 1 {
      OneLineIsFolded(texts[0], "");
      assert texts[0] + "" == texts[0];
    } else if |texts| > 1 {
      SpacedIsFolded(texts[1..]);
      OneLineIsFolded(texts[0], " " + Spaced(texts[1..]));
      assert texts[0] + (" " + Spaced(texts[1..])) == Spaced(texts);
    }
  }

  lemma OneLineBreaksLast(text: string)
    requires OneLine(text)
    ensures forall i :: 0 <= i < |text| - 1 ==> !IsBreak(text[i])
    ensures text != "" && IsBreak(text[|text| - 1]) ==> text[|text| - 1] == '\r'
  {
    forall i | 0 <= i < |text| - 1 ensures !IsBreak(text[i]) { assert text[..|text| - 1][i] == text[i]; }
  }

  lemma OneLineIsFolded(text: string, rest: string)
    requires OneLine(text) && (rest == "" || (rest[0] == ' ' && Folded(rest[1..])))
    ensures Folded(text + rest)
  {
    var s := text + rest;
    OneLineBreaksLast(text);
    forall i | 0 <= i < |s| && IsBreak(s[i]) ensures s[i] == '\r' && (i + 1 < |s| ==> s[i + 1] == ' ') {
      if i < |text| {
        assert s[i] == text[i];
      } else {
        assert s[i] == rest[i - |text|];
        assert i > |text| ==> rest[1..][i - |text| - 1] == s[i];
      }
    }
  }

  lemma PrefixIsFolded(s: string, n: nat)
    requires Folded(s) && n <= |s|
    ensures Folded(s[..n])
  {
  }

  /** The sample of one-line dreams is folded; its first line is empty only if the first dream is a lone return. */
  lemma SampleOfOneLiners(dreams: seq<Dream>)
    requires forall d :: d in dreams ==> OneLine(d.text)
    ensures Sample(dreams).Some? ==> Folded(Sample(dreams).value)
    ensures Sample(dreams).Some? ==> (Begins(Sample(dreams).value) <==> dreams[0].text != "\r")
  {
    var first := if |dreams| > RAW_TEXT_DREAM_LIMIT then dreams[..RAW_TEXT_DREAM_LIMIT] else dreams;
    var texts := Texts(first);
    forall k | 0 <= k < |texts| ensures OneLine(texts[k]) { assert first[k] == dreams[k]; }
    SpacedIsFolded(texts);
    var text := Spaced(texts);
    PrefixIsFolded(text, if |text| > RAW_TEXT_CHAR_LIMIT then RAW_TEXT_CHAR_LIMIT else |text|);
    if text != "" {
      assert texts[0] == dreams[0].text;
      assert text[..|text|] == text;
      assert texts[0] != "" ==> text[0] == texts[0][0];
      BreakFirst(texts[0]);
    }
  }

  lemma BreakFirst(text: string)
    requires OneLine(text)
    ensures text != "" && IsBreak(text[0]) <==> text == "\r"
  {
    OneLineBreaksLast(text);
  }

  /** Tokens are letters: they have no break and no heading sign. */
  ghost predicate PlainTokens(tokenize: string -> Tokens) {
    forall text, w :: w in tokenize(text) ==> SingleLine(w) && '#' !in w
  }

  lemma {:induction false} CountedOccurs(dreams: seq<Tokens>, w: string)
    requires Total(dreams, w) > 0 || Spread(dreams, w) > 0
    ensures exists k :: 0 <= k < |dreams| && w in dreams[k]
  {
    var n := |dreams| - 1;
    if w !in dreams[n] {
      assert multiset(dreams[n])[w] == 0;
      CountedOccurs(dreams[..n], w);
      var k :| 0 <= k < n && w in dreams[..n][k];
      assert w in dreams[k];
    }
  }

  lemma ListedWordsArePlain(dreams: seq<Dream>, tokenize: string -> Tokens, words: seq<string>)
    requires PlainTokens(tokenize)
    requires forall w :: w in words ==> Total(Tokenized(dreams, tokenize), w) > 0 || Spread(Tokenized(dreams, tokenize), w) > 0
    ensures SingleLine(FormatList(words)) && '#' !in FormatList(words)
  {
    forall w | w in words ensures SingleLine(w) && '#' !in w {
      CountedOccurs(Tokenized(dreams, tokenize), w);
      var k :| 0 <= k < |dreams| && w in Tokenized(dreams, tokenize)[k];
    }
    ListIsPlain(words);
  }

  lemma {:induction false} SeparatedIsPlain(words: seq<string>)
    requires forall w :: w in words ==> SingleLine(w) && '#' !in w
    ensures SingleLine(Separated(words)) && '#' !in Separated(words)
  {
    if |words| > 1 {
      SeparatedIsPlain(words[1..]);
      PlainJoin(words[0], ", ");
      PlainJoin(words[0] + ", ", Separated(words[1..]));
    } else if |words| == 1 {
      assert words[0] in words;
    }
  }

  lemma PlainJoin(a: string, b: string)
    requires SingleLine(a) && '#' !in a && SingleLine(b) && '#' !in b
    ensures SingleLine(a + b) && '#' !in a + b
  {
    forall i | 0 <= i < |a + b| ensures !IsBreak((a + b)[i]) { assert (a + b)[i] == if i < |a| then a[i] else b[i - |a|]; }
  }

  lemma ListIsPlain(words: seq<string>)
    requires forall w :: w in words ==> SingleLine(w) && '#' !in w
    ensures SingleLine(FormatList(words)) && '#' !in FormatList(words)
  {
    SeparatedIsPlain(words);
    PlainJoin("[", Separated(words));
    PlainJoin("[" + Separated(words), "]");
  }

  /** No text of the session has a later heading, and neither has their sample. */
  predicate TextsOk(c: PromptValidation.Contract, rows: seq<DreamRow>, sessionId: SessionId) {
    && (forall d :: d in InSession(rows, sessionId) ==> PromptProofs.Free(c.sections, d.text, 2))
    && (var sample := Sample(DreamsOf(rows, sessionId)); sample.Some? ==> PromptProofs.Free(c.sections, sample.value, 3))
  }

  lemma BuiltIsStorable(
    c: PromptValidation.Contract, rows: seq<DreamRow>, s: StoredSummary, sessionId: SessionId, userId: UserId,
    tokenize: string -> Tokens)
    requires PromptProofs.Headings(c.sections) && PlainTokens(tokenize) && TextsOk(c, rows, sessionId)
    requires IsSummary(s, sessionId, userId, DreamsOf(rows, sessionId), tokenize)
    ensures PromptTheorems.StoredOk(c, s, InSession(rows, sessionId))
    ensures SingleLine(FormatList(s.keySymbols)) && SingleLine(FormatList(s.recurring))
  {
    ListedWordsArePlain(DreamsOf(rows, sessionId), tokenize, s.keySymbols);
    ListedWordsArePlain(DreamsOf(rows, sessionId), tokenize, s.recurring);
    PromptTheorems.PlainIsFree(c.sections, FormatList(s.keySymbols), 3);
    PromptTheorems.PlainIsFree(c.sections, FormatList(s.recurring), 3);
  }

  predicate FirstBegins(dreams: seq<Dream>) {
    dreams == [] || dreams[0].text != "\r"
  }

  lemma OneLinersRead(dreams: seq<Dream>)
    requires PromptTheorems.AllOneLine(dreams)
    ensures Sample(dreams).Some? ==> (PromptProofs.SampleReads(Sample(dreams).value) <==> FirstBegins(dreams))
    ensures !FirstBegins(dreams) ==> Sample(dreams).Some?
  {
    SampleOfOneLiners(dreams);
    LoneReturnIsSampled(dreams);
    if Sample(dreams).Some? { FoldedReads("raw_text_sample", Sample(dreams).value); }
  }

  /**
   * Summarised, compiled and rendered, the dreams of a session pass the validator exactly if they read as entries and
   * their sample as one field; unless the last text has both a blank line and a timestamp line, this is exactly if each is
   * told in one line and the earliest is not a lone carriage return.
   */
  lemma BuiltPromptValidates(
    c: PromptValidation.Contract, fixed: Fixed, f: Formats, rows: seq<DreamRow>, s: StoredSummary,
    sessionId: SessionId, userId: UserId, tokenize: string -> Tokens, lastActivity: Option<Time>, created: Option<Time>)
    requires PromptProofs.ContractOk(c, fixed) && PromptTheorems.FormatsOk(f) && PlainTokens(tokenize)
    requires IsSummary(s, sessionId, userId, DreamsOf(rows, sessionId), tokenize) && TextsOk(c, rows, sessionId)
    ensures var dreams := DreamsOf(rows, sessionId);
      var prompt := Rendered(c, fixed, Compile(f, s, InSession(rows, sessionId), lastActivity, created));
      var accepted := PromptValidation.Violations(prompt, c) == Ok([]);
      && (accepted <==> PromptTheorems.ToldApart(f, dreams) && PromptTheorems.StoredSampleReads(s))
      && (PromptTheorems.LastTelling(dreams) ==>
            (accepted <==> PromptTheorems.AllOneLine(dreams) && FirstBegins(dreams)))
  {
    var stored, dreams := InSession(rows, sessionId), DreamsOf(rows, sessionId);
    PromptTheorems.SortKeepsDreams(stored);
    BuiltIsStorable(c, rows, s, sessionId, userId, tokenize);
    PromptTheorems.CompiledValidates(c, fixed, f, s, stored, lastActivity, created);
    PromptTheorems.OneLinersSorted(stored);
    if PromptTheorems.AllOneLine(dreams) { OneLinersRead(dreams); }
  }

  lemma LoneReturnIsSampled(dreams: seq<Dream>)
    ensures dreams != [] && dreams[0].text == "\r" ==> Sample(dreams).Some?
  {
    if dreams != [] && dreams[0].text == "\r" {
      var first := if |dreams| > RAW_TEXT_DREAM_LIMIT then dreams[..RAW_TEXT_DREAM_LIMIT] else dreams;
      assert Texts(first)[0] == "\r";
      assert Spaced(Texts(first))[0] == '\r';
    }
  }
}
