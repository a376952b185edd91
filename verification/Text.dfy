/** The string operations the prompt code relies on, and how they act on text built from lines. */
module Text {
  import opened Base

  // ---------------------------------------------------------------- characters

  /** Characters at which str.splitlines breaks. */
  predicate IsBreak(c: char) {
    c == '\n' || c == '\r' || c == '\U{0B}' || c == '\U{0C}' || c == '\U{1C}' || c == '\U{1D}' || c == '\U{1E}'
    || c == '\U{85}' || c == '\U{2028}' || c == '\U{2029}'
  }

  /** Characters that str.strip and str.split() treat as white space. */
  predicate IsSpace(c: char) {
    IsBreak(c) || c == ' ' || c == '\t' || c == '\U{1F}' || c == '\U{A0}' || c == '\U{1680}'
    || '\U{2000}' <= c <= '\U{200A}' || c == '\U{202F}' || c == '\U{205F}' || c == '\U{3000}'
  }

  predicate IsDigit(c: char) {
    '0' <= c <= '9'
  }

  predicate SingleLine(s: string) {
    forall i :: 0 <= i < |s| ==> !IsBreak(s[i])
  }

  predicate HasInk(s: string) {
    exists i :: 0 <= i < |s| && !IsSpace(s[i])
  }

  // ---------------------------------------------------------------- searching

  predicate Occurs(pat: string, s: string, p: nat) {
    p + |pat| <= |s| && s[p..p + |pat|] == pat
  }

  predicate Contains(s: string, pat: string) {
    exists p: nat :: p <= |s| && Occurs(pat, s, p)
  }

  /** str.index: the first occurrence at or after from. */
  function Find(s: string, pat: string, from: nat): (r: Option<nat>)
    ensures r.Some? ==> r.value >= from && Occurs(pat, s, r.value)
    ensures r.Some? ==> forall p :: from <= p < r.value ==> !Occurs(pat, s, p)
    ensures r.None? ==> forall p :: from <= p <= |s| ==> !Occurs(pat, s, p)
    decreases |s| - from
  {
    if from + |pat| > |s| then None
    else if Occurs(pat, s, from) then Some(from)
    else Find(s, pat, from + 1)
  }

  lemma FindIs(s: string, pat: string, from: nat, p: nat)
    requires from <= p && Occurs(pat, s, p)
    requires forall q :: from <= q < p ==> !Occurs(pat, s, q)
    ensures Find(s, pat, from) == Some(p)
  {
  }

  lemma OccursLater(pat: string, s: string, p: nat, before: string)
    requires Occurs(pat, s, p)
    ensures Occurs(pat, before + s, |before| + p)
  {
    var t := before + s;
    assert t[|before| + p..|before| + p + |pat|] == s[p..p + |pat|];
  }

  lemma OccursInPrefix(pat: string, s: string, p: nat, t: string)
    requires Occurs(pat, s, p) && s <= t
    ensures Occurs(pat, t, p)
  {
    assert t[p..p + |pat|] == s[p..p + |pat|];
  }

  /** str.split(sep) for a non-empty separator. */
  function SplitOn(s: string, sep: string): seq<string>
    requires sep != ""
    decreases |s|
  {
    match Find(s, sep, 0)
    case None => [s]
    case Some(p) => [s[..p]] + SplitOn(s[p + |sep|..], sep)
  }

  // ---------------------------------------------------------------- stripping

  function LStripNewlines(s: string): string {
    if s != "" && s[0] == '\n' then LStripNewlines(s[1..]) else s
  }

  function RStripNewlines(s: string): string {
    if s != "" && s[|s| - 1] == '\n' then RStripNewlines(s[..|s| - 1]) else s
  }

  function StripNewlines(s: string): string {
    RStripNewlines(LStripNewlines(s))
  }

  function LStrip(s: string): string {
    if s != "" && IsSpace(s[0]) then LStrip(s[1..]) else s
  }

  function RStrip(s: string): (r: string)
    ensures r <= s
    ensures r != "" ==> !IsSpace(r[|r| - 1])
    ensures forall i :: |r| <= i < |s| ==> IsSpace(s[i])
  {
    if s != "" && IsSpace(s[|s| - 1]) then RStrip(s[..|s| - 1]) else s
  }

  function Strip(s: string): string {
    RStrip(LStrip(s))
  }

  /** text does not begin or end with a newline. */
  predicate Trimmed(s: string) {
    s != "" && s[0] != '\n' && s[|s| - 1] != '\n'
  }

  lemma LStripNewline(s: string)
    ensures LStripNewlines("\n" + s) == LStripNewlines(s)
  {
    assert ("\n" + s)[1..] == s;
  }

  lemma RStripNewline(s: string)
    ensures RStripNewlines(s + "\n") == RStripNewlines(s)
  {
    assert (s + "\n")[..|s|] == s;
  }

  lemma StripAround(s: string)
    requires Trimmed(s)
    ensures StripNewlines("\n" + s + "\n") == s && StripNewlines("\n" + s + "\n\n") == s
  {
    assert "\n" + s + "\n" == "\n" + (s + "\n") && "\n" + s + "\n\n" == "\n" + (s + "\n\n");
    LStripNewline(s + "\n");
    LStripNewline(s + "\n\n");
    assert s + "\n\n" == (s + "\n") + "\n";
    RStripNewline(s);
    RStripNewline(s + "\n");
  }

  lemma {:induction false} RStripOfAppend(a: string, b: string)
    ensures RStrip(a + b) == if RStrip(b) != "" then a + RStrip(b) else RStrip(a)
  {
    if b == "" {
      assert a + b == a;
    } else {
      var s := a + b;
      assert s[|s| - 1] == b[|b| - 1];
      if IsSpace(b[|b| - 1]) {
        assert s[..|s| - 1] == a + b[..|b| - 1];
        RStripOfAppend(a, b[..|b| - 1]);
      } else {
        assert RStrip(s) == s && RStrip(b) == b;
      }
    }
  }

  lemma RStripInk(s: string)
    ensures RStrip(s) != "" <==> HasInk(s)
  {
    if HasInk(s) {
      var i :| 0 <= i < |s| && !IsSpace(s[i]);
      assert i < |RStrip(s)|;
    }
    if RStrip(s) != "" { assert !IsSpace(s[|RStrip(s)| - 1]); }
  }

  // ---------------------------------------------------------------- lines

  /** Every line followed by its newline. */
  function Flat(lines: seq<string>): string {
    if lines == [] then "" else lines[0] + "\n" + Flat(lines[1..])
  }

  /** "\n".join(lines) */
  function Join(lines: seq<string>): string {
    if lines == [] then "" else Flat(lines[..|lines| - 1]) + lines[|lines| - 1]
  }

  lemma {:induction false} FlatAppend(a: seq<string>, b: seq<string>)
    ensures Flat(a + b) == Flat(a) + Flat(b)
  {
    if a == [] {
      assert a + b == b;
    } else {
      assert (a + b)[1..] == a[1..] + b;
      FlatAppend(a[1..], b);
    }
  }

  lemma FlatOne(line: string)
    ensures Flat([line]) == line + "\n"
  {
    assert [line][1..] == [];
    assert line + "\n" + "" == line + "\n";
  }

  lemma JoinIsFlat(lines: seq<string>)
    requires lines != []
    ensures Join(lines) + "\n" == Flat(lines)
  {
    var init, last := lines[..|lines| - 1], lines[|lines| - 1];
    assert init + [last] == lines;
    FlatAppend(init, [last]);
    FlatOne(last);
    Assoc(Flat(init), last, "\n");
  }

  lemma InitOfAppend(a: seq<string>, b: seq<string>)
    requires b != []
    ensures (a + b)[..|a + b| - 1] == a + b[..|b| - 1] && (a + b)[|a + b| - 1] == b[|b| - 1]
  {
  }

  lemma JoinAppend(a: seq<string>, b: seq<string>)
    requires b != []
    ensures Join(a + b) == Flat(a) + Join(b)
  {
    InitOfAppend(a, b);
    FlatAppend(a, b[..|b| - 1]);
    Assoc(Flat(a), Flat(b[..|b| - 1]), b[|b| - 1]);
  }

  /** A text without newlines occurs in a block of lines only inside one of them. */
  lemma {:induction false} OccursInLine(lines: seq<string>, tail: string, pat: string, p: nat)
    requires '\n' !in pat && pat != ""
    requires p < |Flat(lines)| && Occurs(pat, Flat(lines) + tail, p)
    ensures exists i :: 0 <= i < |lines| && Contains(lines[i], pat)
  {
    var l, rest := lines[0], Flat(lines[1..]) + tail;
    var s := Flat(lines) + tail;
    assert s == l + "\n" + rest;
    forall m | p <= m < p + |pat| ensures s[m] != '\n' { assert s[m] == s[p..p + |pat|][m - p]; }
    assert s[|l|] == '\n';
    if p + |pat| <= |l| {
      assert l[p..p + |pat|] == s[p..p + |pat|];
      assert Occurs(pat, l, p);
      assert Contains(lines[0], pat);
    } else {
      var q := p - |l| - 1;
      assert rest[q..q + |pat|] == s[p..p + |pat|];
      OccursInLine(lines[1..], tail, pat, q);
      var i :| 0 <= i < |lines[1..]| && Contains(lines[1..][i], pat);
      assert Contains(lines[i + 1], pat);
    }
  }

  /** So the first line equal to a newline-free text, in lines that do not contain it before, is where index finds it. */
  lemma FindLine(before: seq<string>, pat: string, tail: string, from: nat)
    requires '\n' !in pat && pat != "" && from <= |Flat(before)|
    requires forall i :: 0 <= i < |before| ==> !Contains(before[i], pat)
    ensures Find(Flat(before) + pat + tail, pat, from) == Some(|Flat(before)|)
  {
    var s := Flat(before) + pat + tail;
    assert s == Flat(before) + (pat + tail);
    assert Occurs(pat, s, |Flat(before)|);
    forall q | from <= q < |Flat(before)| ensures !Occurs(pat, s, q) {
      if Occurs(pat, s, q) { OccursInLine(before, pat + tail, pat, q); }
    }
    FindIs(s, pat, from, |Flat(before)|);
  }

  /** str.splitlines */
  function SplitLines(s: string): seq<string>
    decreases |s|
  {
    var n := LineEnd(s);
    if s == "" then []
    else if n == |s| then [s]
    else if s[n] == '\r' && n + 1 < |s| && s[n + 1] == '\n' then [s[..n]] + SplitLines(s[n + 2..])
    else [s[..n]] + SplitLines(s[n + 1..])
  }

  function LineEnd(s: string): (n: nat)
    ensures n <= |s| && (n < |s| ==> IsBreak(s[n]))
    ensures forall i :: 0 <= i < n ==> !IsBreak(s[i])
  {
    if s == "" || IsBreak(s[0]) then 0 else LineEnd(s[1..]) + 1
  }

  lemma LineEndIs(l: string, tail: string)
    requires SingleLine(l) && (tail == "" || IsBreak(tail[0]))
    ensures LineEnd(l + tail) == |l|
  {
    var s := l + tail;
    forall i | 0 <= i < |l| ensures !IsBreak(s[i]) { assert s[i] == l[i]; }
    assert tail != "" ==> s[|l|] == tail[0];
  }

  /** Joined single lines split back into themselves, if the last one is not empty. */
  lemma {:induction false} SplitJoin(lines: seq<string>)
    requires lines != [] && lines[|lines| - 1] != ""
    requires forall i :: 0 <= i < |lines| ==> SingleLine(lines[i])
    ensures SplitLines(Join(lines)) == lines
  {
    if |lines| == 1 {
      assert Join(lines) == lines[0];
      LineEndIs(lines[0], "");
      assert lines[0] + "" == lines[0];
    } else {
      var l, rest := lines[0], lines[1..];
      assert lines == [l] + rest;
      JoinAppend([l], rest);
      assert Flat([l]) == l + "\n";
      var s := Join(lines);
      assert s == l + ("\n" + Join(rest));
      LineEndIs(l, "\n" + Join(rest));
      assert s[|l|] == '\n' && s[..|l|] == l && s[|l| + 1..] == Join(rest);
      SplitJoin(rest);
    }
  }

  /** The last of some joined lines may itself have breaks. */
  lemma {:induction false} SplitJoinLast(init: seq<string>, last: string)
    requires last != "" && forall i :: 0 <= i < |init| ==> SingleLine(init[i])
    ensures SplitLines(Join(init + [last])) == init + SplitLines(last)
  {
    if init == [] {
      assert init + [last] == [last] && [last][..0] == [];
      assert Join([last]) == last;
    } else {
      var first, middle := [init[0]], init[1..];
      assert init == first + middle;
      Assoc(first, middle, [last]);
      JoinAppend(first, middle + [last]);
      FlatOne(init[0]);
      FirstLine(init[0], Join(middle + [last]));
      SplitJoinLast(middle, last);
      Assoc(first, middle, SplitLines(last));
    }
  }

  /** Whether a text followed by a newline reads as one line: splitlines takes a final "\r\n" for one break. */
  predicate OneLine(s: string) {
    SingleLine(s) || (s != "" && s[|s| - 1] == '\r' && SingleLine(s[..|s| - 1]))
  }

  function WithoutReturn(s: string): string
    requires OneLine(s)
  {
    if SingleLine(s) then s else s[..|s| - 1]
  }

  /** The first line of a text, and what is left after its break. */
  function AfterLine(s: string): (next: nat)
    requires LineEnd(s) < |s|
    ensures LineEnd(s) < next <= |s|
  {
    var n := LineEnd(s);
    if s[n] == '\r' && n + 1 < |s| && s[n + 1] == '\n' then n + 2 else n + 1
  }

  lemma SplitFirst(s: string)
    requires LineEnd(s) < |s|
    ensures SplitLines(s) == [s[..LineEnd(s)]] + SplitLines(s[AfterLine(s)..])
  {
  }

  lemma FirstLineOfTwo(s: string, last: string)
    ensures LineEnd(s + "\n" + last) == LineEnd(s)
  {
    var n := LineEnd(s);
    LineEndIs(s[..n], s[n..] + "\n" + last);
    assert s[..n] + (s[n..] + "\n" + last) == s + "\n" + last;
  }

  lemma SingleLines(s: string)
    requires s != "" && SingleLine(s)
    ensures SplitLines(s) == [s]
  {
    LineEndIs(s, "");
    assert s + "" == s;
  }

  lemma FirstLine(line: string, rest: string)
    requires SingleLine(line)
    ensures SplitLines(line + "\n" + rest) == [line] + SplitLines(rest)
  {
    var all := line + ("\n" + rest);
    assert all == line + "\n" + rest;
    LineEndIs(line, "\n" + rest);
    SplitFirst(all);
    assert all[|line|] == '\n' && all[..|line|] == line && all[|line| + 1..] == rest;
  }

  /** Concatenation is associative. */
  lemma Assoc<T>(a: seq<T>, b: seq<T>, c: seq<T>)
    ensures a + b + c == a + (b + c)
  {
  }

  lemma AtLeastTwoLines(s: string, last: string)
    requires last != ""
    ensures |SplitLines(s + "\n" + last)| >= 2
  {
    var all := s + "\n" + last;
    FirstLineOfTwo(s, last);
    assert all[|s|] == '\n';
    SplitFirst(all);
    assert AfterLine(all) <= |s| + 1;
    assert all[AfterLine(all)..] != "";
  }

  /** A text and a line after it make two lines exactly if the text is one line. */
  lemma TwoLines(s: string, last: string)
    requires last != "" && SingleLine(last)
    ensures OneLine(s) ==> SplitLines(s + "\n" + last) == [WithoutReturn(s), last]
    ensures !OneLine(s) ==> |SplitLines(s + "\n" + last)| > 2
  {
    if OneLine(s) { ExactlyTwoLines(s, last); } else { MoreThanTwoLines(s, last); }
  }

  lemma ExactlyTwoLines(s: string, last: string)
    requires last != "" && SingleLine(last) && OneLine(s)
    ensures SplitLines(s + "\n" + last) == [WithoutReturn(s), last]
  {
    var all := s + "\n" + last;
    FirstLineOfTwo(s, last);
    SplitFirst(all);
    OneLineEnds(s);
    var n, next := LineEnd(s), AfterLine(all);
    assert all[..n] == s[..n] && all[|s|] == '\n';
    assert n < |s| ==> all[n] == s[n];
    assert all[|s| + 1..] == last;
    assert next == |s| + 1;
    SingleLines(last);
  }

  lemma MoreThanTwoLines(s: string, last: string)
    requires last != "" && !OneLine(s)
    ensures |SplitLines(s + "\n" + last)| > 2
  {
    var all := s + "\n" + last;
    FirstLineOfTwo(s, last);
    SplitFirst(all);
    NotOneLineGoesOn(s);
    var n, next := LineEnd(s), AfterLine(all);
    assert all[n] == s[n] && (n + 1 < |s| ==> all[n + 1] == s[n + 1]);
    assert next <= |s|;
    assert all[next..] == s[next..] + "\n" + last;
    AtLeastTwoLines(s[next..], last);
  }

  lemma OneLineEnds(s: string)
    requires OneLine(s)
    ensures s[..LineEnd(s)] == WithoutReturn(s)
    ensures LineEnd(s) == |s| || (LineEnd(s) == |s| - 1 && s[|s| - 1] == '\r')
  {
    if SingleLine(s) {
      LineEndIs(s, "");
      assert s + "" == s && s[..|s|] == s;
    } else {
      LineEndIs(s[..|s| - 1], s[|s| - 1..]);
      assert s[..|s| - 1] + s[|s| - 1..] == s;
    }
  }

  lemma NotOneLineGoesOn(s: string)
    requires !OneLine(s)
    ensures LineEnd(s) + 1 < |s| || (LineEnd(s) + 1 == |s| && s[LineEnd(s)] != '\r')
  {
  }

  // ---------------------------------------------------------------- blank-line blocks

  predicate NoBlankLine(s: string) {
    forall i :: 0 <= i < |s| - 1 ==> !(s[i] == '\n' && s[i + 1] == '\n')
  }

  function JoinBlocks(blocks: seq<string>): string {
    if blocks == [] then "" else if |blocks| == 1 then blocks[0] else blocks[0] + "\n\n" + JoinBlocks(blocks[1..])
  }

  lemma OneBlock(b: string)
    requires Trimmed(b) && NoBlankLine(b)
    ensures SplitOn(b, "\n\n") == [b]
  {
    forall p | 0 <= p <= |b| ensures !Occurs("\n\n", b, p) {
      assert p + 2 <= |b| ==> b[p..p + 2][0] == b[p] && b[p..p + 2][1] == b[p + 1];
    }
  }

  lemma OccursBefore(a: string, tail: string, p: nat)
    requires a != "" && a[|a| - 1] != '\n' && p < |a| && Occurs("\n\n", a + tail, p)
    ensures Occurs("\n\n", a, p)
  {
    var s := a + tail;
    assert s[p] == s[p..p + 2][0] && a[p] == s[p];
    assert s[p + 1] == s[p..p + 2][1];
    assert p + 2 <= |a|;
    assert a[p..p + 2] == s[p..p + 2];
  }

  /** A text that does not end in a newline is split by itself, whatever follows it after a blank line. */
  lemma {:induction false} SplitAcross(a: string, b: string)
    requires a != "" && a[|a| - 1] != '\n'
    ensures SplitOn(a + "\n\n" + b, "\n\n") == SplitOn(a, "\n\n") + SplitOn(b, "\n\n")
    decreases |a|
  {
    var tail := "\n\n" + b;
    var s := a + tail;
    assert s == a + "\n\n" + b;
    var p := Find(a, "\n\n", 0);
    var n := if p.Some? then p.value else |a|;
    forall q | 0 <= q < n ensures !Occurs("\n\n", s, q) {
      if Occurs("\n\n", s, q) { OccursBefore(a, tail, q); }
    }
    if p.None? {
      assert s[n..n + 2] == "\n\n";
      FindIs(s, "\n\n", 0, n);
      assert s[..n] == a && s[n + 2..] == b;
    } else {
      OccursInPrefix("\n\n", a, n, s);
      FindIs(s, "\n\n", 0, n);
      assert a[n + 1] == a[n..n + 2][1];
      var rest := a[n + 2..];
      assert s[..n] == a[..n] && s[n + 2..] == rest + "\n\n" + b;
      SplitAcross(rest, b);
      Assoc([a[..n]], SplitOn(rest, "\n\n"), SplitOn(b, "\n\n"));
    }
  }

  lemma OccursIs(s: string, p: nat)
    ensures Occurs("\n\n", s, p) ==> p + 1 < |s| && s[p] == '\n' && s[p + 1] == '\n'
  {
    if Occurs("\n\n", s, p) { assert s[p] == s[p..p + 2][0] && s[p + 1] == s[p..p + 2][1]; }
  }

  lemma NoBlankBefore(head: string, tail: string, q: nat, i: nat)
    requires NoBlankLine(head) && head != "" && head[|head| - 1] != '\n' && i < |head| + q
    requires forall k :: 0 <= k < q ==> !Occurs("\n\n", tail, k)
    ensures !Occurs("\n\n", head + tail, i)
  {
    var s := head + tail;
    OccursIs(s, i);
    if i < |head| {
      assert s[i] == head[i];
      if i + 1 < |head| { assert s[i + 1] == head[i + 1]; }
    } else {
      var k := i - |head|;
      assert !Occurs("\n\n", tail, k);
      assert i + 2 <= |s| ==> tail[k..k + 2] == s[i..i + 2];
    }
  }

  lemma FirstInPrefix(body: string, last: string, q: nat)
    requires Find(body, "\n\n", 0) == Some(q)
    ensures Occurs("\n\n", body + last, q)
    ensures forall k :: 0 <= k < q ==> !Occurs("\n\n", body + last, k)
  {
    var tail := body + last;
    OccursInPrefix("\n\n", body, q, tail);
    forall k | 0 <= k < q ensures !Occurs("\n\n", tail, k) {
      assert !Occurs("\n\n", body, k);
      assert body[k..k + 2] == tail[k..k + 2];
    }
  }

  /** After a start without blank lines, a text is first cut where the rest of it has its first one. */
  lemma SplitLater(head: string, body: string, last: string, q: nat)
    requires NoBlankLine(head) && head != "" && head[|head| - 1] != '\n'
    requires Find(body, "\n\n", 0) == Some(q)
    ensures SplitOn(head + (body + last), "\n\n") == [head + body[..q]] + SplitOn(body[q + 2..] + last, "\n\n")
  {
    var tail := body + last;
    FirstInPrefix(body, last, q);
    FoundAfter(head, tail, q);
    assert tail[..q] == body[..q] && tail[q + 2..] == body[q + 2..] + last;
  }

  lemma FoundAfter(head: string, tail: string, q: nat)
    requires NoBlankLine(head) && head != "" && head[|head| - 1] != '\n' && Occurs("\n\n", tail, q)
    requires forall k :: 0 <= k < q ==> !Occurs("\n\n", tail, k)
    ensures SplitOn(head + tail, "\n\n") == [head + tail[..q]] + SplitOn(tail[q + 2..], "\n\n")
  {
    var s, n := head + tail, |head| + q;
    OccursLater("\n\n", tail, q, head);
    forall i | 0 <= i < n ensures !Occurs("\n\n", s, i) { NoBlankBefore(head, tail, q, i); }
    FindIs(s, "\n\n", 0, n);
    CutLater(head, tail, q);
  }

  lemma CutLater(head: string, tail: string, q: nat)
    requires q + 2 <= |tail|
    ensures var s, n := head + tail, |head| + q; s[..n] == head + tail[..q] && s[n + 2..] == tail[q + 2..]
  {
  }

  /** Blocks separated by blank lines come back whole. */
  lemma {:induction false} SplitBlocks(blocks: seq<string>)
    requires blocks != []
    requires forall i :: 0 <= i < |blocks| ==> Trimmed(blocks[i]) && NoBlankLine(blocks[i])
    ensures SplitOn(JoinBlocks(blocks), "\n\n") == blocks
  {
    OneBlock(blocks[0]);
    if |blocks| > 1 {
      SplitBlocks(blocks[1..]);
      SplitAcross(blocks[0], JoinBlocks(blocks[1..]));
    }
  }

  // ---------------------------------------------------------------- words

  /** " ".join(words) */
  function Spaced(words: seq<string>): string {
    if words == [] then ""
    else if |words| == 1 then words[0]
    else words[0] + " " + Spaced(words[1..])
  }

  // ---------------------------------------------------------------- decimal numbers

  const DIGITS := "0123456789"

  function Decimal(n: nat): (s: string)
    ensures s != "" && forall i :: 0 <= i < |s| ==> IsDigit(s[i])
  {
    if n < 10 then [DIGITS[n]] else Decimal(n / 10) + [DIGITS[n % 10]]
  }

  /** str(n) */
  function Signed(n: int): string {
    if n < 0 then "-" + Decimal(-n) else Decimal(n)
  }

  /** The digits int() accepts, where single underscores may stand between two digits. */
  function Digits(s: string): Option<nat> {
    if s == "" || !IsDigit(s[|s| - 1]) then None
    else
      var last: nat := s[|s| - 1] as int - '0' as int;
      if |s| == 1 then Some(last)
      else
        var head := if s[|s| - 2] == '_' then s[..|s| - 2] else s[..|s| - 1];
        match Digits(head)
        case None => None
        case Some(n) => Some(10 * n + last)
  }

  /** int(s), None where it raises ValueError. */
  function PyInt(s: string): Option<int> {
    var t := Strip(s);
    var negative := t != "" && t[0] == '-';
    var digits := if negative || (t != "" && t[0] == '+') then t[1..] else t;
    match Digits(digits)
    case None => None
    case Some(n) =>
      var value: int := n;
      Some(if negative then -value else value)
  }

  lemma {:induction false} DigitsOfDecimal(n: nat)
    ensures Digits(Decimal(n)) == Some(n)
  {
    if n >= 10 {
      DigitsOfDecimal(n / 10);
      var s := Decimal(n);
      assert s[..|s| - 1] == Decimal(n / 10);
      assert IsDigit(s[|s| - 2]);
      LastDigit(n % 10);
    } else {
      LastDigit(n);
    }
  }

  lemma LastDigit(d: nat)
    requires d < 10
    ensures IsDigit(DIGITS[d]) && DIGITS[d] as int - '0' as int == d
  {
  }

  lemma StripNothing(s: string)
    requires s != "" && !IsSpace(s[0]) && !IsSpace(s[|s| - 1])
    ensures Strip(s) == s
  {
  }

  lemma DigitsAreInk(c: char)
    requires IsDigit(c) || c == '-'
    ensures !IsSpace(c)
  {
  }

  lemma PyIntOfSigned(n: int)
    ensures PyInt(Signed(n)) == Some(n)
  {
    var digits := Decimal(if n < 0 then -n else n);
    DigitsOfDecimal(if n < 0 then -n else n);
    var s := Signed(n);
    assert s == if n < 0 then "-" + digits else digits;
    assert s[|s| - 1] == digits[|digits| - 1];
    DigitsAreInk(s[0]);
    DigitsAreInk(s[|s| - 1]);
    StripNothing(s);
    assert n < 0 ==> s[0] == '-' && s[1..] == digits;
    assert n >= 0 ==> IsDigit(s[0]);
  }
}
