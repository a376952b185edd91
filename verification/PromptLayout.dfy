/** Where the validator finds the sections of a text made of a preamble and headed parts. */
module PromptLayout {
  import opened Base
  import opened Text
  import opened PromptValidation
  import opened PromptCompiler

  function Upto(pre: seq<string>, parts: seq<Part>, k: nat): seq<string>
    requires k <= |parts|
  {
    pre + LinesOf(parts[..k])
  }

  /** No line before the heading of part k contains that heading. */
  ghost predicate Clear(pre: seq<string>, parts: seq<Part>, k: nat)
    requires k < |parts|
  {
    var h := parts[k].heading;
    && h != "" && '\n' !in h
    && forall i :: 0 <= i < |Upto(pre, parts, k)| ==> !Contains(Upto(pre, parts, k)[i], h)
  }

  function Start(pre: seq<string>, parts: seq<Part>, k: nat): nat
    requires k <= |parts|
  {
    |Flat(Upto(pre, parts, k))|
  }

  function TextOf(pre: seq<string>, parts: seq<Part>): string {
    Join(pre + LinesOf(parts))
  }

  lemma UptoNext(pre: seq<string>, parts: seq<Part>, k: nat)
    requires k < |parts|
    ensures Upto(pre, parts, k + 1) == Upto(pre, parts, k) + [parts[k].heading] + parts[k].lines
    ensures Flat(Upto(pre, parts, k + 1))
         == Flat(Upto(pre, parts, k)) + parts[k].heading + ("\n" + Flat(parts[k].lines))
  {
    AddPart(parts, k);
    var before, h, lines := Upto(pre, parts, k), parts[k].heading, parts[k].lines;
    assert Upto(pre, parts, k + 1) == before + ([h] + lines);
    FlatAppend(before, [h] + lines);
    FlatAppend([h], lines);
    assert Flat([h]) == h + "\n" + Flat([]);
    assert Flat(before) + (h + "\n" + Flat(lines)) == Flat(before) + h + ("\n" + Flat(lines));
  }

  lemma Regroup(a: seq<string>, b: seq<string>, c: seq<string>, d: seq<string>)
    ensures a + b + c + d == a + (b + (c + d))
  {
    assert a + b + c == a + (b + c);
    assert (b + c) + d == b + (c + d);
    assert (a + (b + c)) + d == a + ((b + c) + d);
  }

  /** From part k on, the text is the earlier lines, the heading, and a rest. */
  lemma {:induction false} TextFrom(pre: seq<string>, parts: seq<Part>, k: nat) returns (rest: seq<string>)
    requires k < |parts|
    ensures pre + LinesOf(parts) == Upto(pre, parts, k) + ([parts[k].heading] + rest)
    ensures k == |parts| - 1 ==> rest == parts[k].lines
    decreases |parts| - k
  {
    var before, h, lines := Upto(pre, parts, k), [parts[k].heading], parts[k].lines;
    UptoNext(pre, parts, k);
    if k == |parts| - 1 {
      assert parts[..k + 1] == parts;
      rest := lines;
      assert before + h + lines == before + (h + lines);
    } else {
      var later := TextFrom(pre, parts, k + 1);
      rest := lines + ([parts[k + 1].heading] + later);
      Regroup(before, h, lines, [parts[k + 1].heading] + later);
    }
  }

  lemma TextAt(pre: seq<string>, parts: seq<Part>, k: nat) returns (tail: string)
    requires k < |parts|
    ensures TextOf(pre, parts) == Flat(Upto(pre, parts, k)) + parts[k].heading + tail
    ensures k == |parts| - 1 && parts[k].lines != [] ==> tail == "\n" + Join(parts[k].lines)
  {
    var rest := TextFrom(pre, parts, k);
    var h := parts[k].heading;
    JoinAppend(Upto(pre, parts, k), [h] + rest);
    if rest == [] {
      tail := "";
      assert Join([h]) == h by { assert [h][..0] == []; }
      assert [h] + rest == [h];
    } else {
      JoinAppend([h], rest);
      assert Flat([h]) == h + "\n";
      tail := "\n" + Join(rest);
      assert Flat(Upto(pre, parts, k)) + (h + "\n" + Join(rest)) == Flat(Upto(pre, parts, k)) + h + tail;
    }
  }

  lemma HeadingAt(pre: seq<string>, parts: seq<Part>, k: nat, from: nat)
    requires k < |parts| && Clear(pre, parts, k) && from <= Start(pre, parts, k)
    ensures Find(TextOf(pre, parts), parts[k].heading, from) == Some(Start(pre, parts, k))
  {
    var tail := TextAt(pre, parts, k);
    FindLine(Upto(pre, parts, k), parts[k].heading, tail, from);
  }

  lemma BodyAt(pre: seq<string>, parts: seq<Part>, k: nat)
    requires k + 1 < |parts| && Clear(pre, parts, k) && Clear(pre, parts, k + 1)
    ensures SectionBody(TextOf(pre, parts), parts[k].heading, Some(parts[k + 1].heading))
         == Some(StripNewlines("\n" + Flat(parts[k].lines)))
  {
    var text := TextOf(pre, parts);
    HeadingAt(pre, parts, k, 0);
    UptoNext(pre, parts, k);
    var start, end := Start(pre, parts, k) + |parts[k].heading|, Start(pre, parts, k + 1);
    HeadingAt(pre, parts, k + 1, start);
    var tail := TextAt(pre, parts, k + 1);
    assert text[..end] == Flat(Upto(pre, parts, k + 1));
    assert text[start..end] == "\n" + Flat(parts[k].lines);
  }

  lemma LastBody(pre: seq<string>, parts: seq<Part>)
    requires parts != [] && parts[|parts| - 1].lines != [] && Clear(pre, parts, |parts| - 1)
    ensures SectionBody(TextOf(pre, parts), parts[|parts| - 1].heading, None)
         == Some(LStripNewlines("\n" + Join(parts[|parts| - 1].lines)))
  {
    var k := |parts| - 1;
    HeadingAt(pre, parts, k, 0);
    var tail := TextAt(pre, parts, k);
    assert TextOf(pre, parts)[Start(pre, parts, k) + |parts[k].heading|..] == tail;
  }

  lemma StartsAscend(pre: seq<string>, parts: seq<Part>, j: nat, k: nat)
    requires j <= k <= |parts|
    ensures Start(pre, parts, j) <= Start(pre, parts, k)
    decreases k - j
  {
    if j < k {
      UptoNext(pre, parts, j);
      StartsAscend(pre, parts, j + 1, k);
    }
  }

  lemma {:induction false} LinesTogether(a: seq<Part>, b: seq<Part>)
    ensures LinesOf(a + b) == LinesOf(a) + LinesOf(b)
  {
    if b == [] {
      assert a + b == a;
    } else {
      var init, last := b[..|b| - 1], b[|b| - 1];
      assert (a + b)[..|a + b| - 1] == a + init;
      LinesTogether(a, init);
      Assoc(LinesOf(a), LinesOf(init), [last.heading]);
      Assoc(LinesOf(a), LinesOf(init) + [last.heading], last.lines);
    }
  }

  lemma TextAround(pre: seq<string>, first: Part, x: Part, rest: seq<Part>)
    requires LinesOf(rest) != []
    ensures TextOf(pre, [first, x] + rest)
         == Flat(pre + LinesOf([first]) + [x.heading]) + Flat(x.lines) + Join(LinesOf(rest))
  {
    var before := pre + LinesOf([first]) + [x.heading];
    assert [first, x] == [first] + [x] && [x][..0] == [];
    LinesTogether([first], [x]);
    LinesTogether([first, x], rest);
    assert pre + LinesOf([first, x] + rest) == (before + x.lines) + LinesOf(rest);
    JoinAppend(before + x.lines, LinesOf(rest));
    FlatAppend(before, x.lines);
  }

  /** A part counts in the text with its heading and the text of its lines. */
  lemma SameText(pre: seq<string>, first: Part, x: Part, y: Part, rest: seq<Part>)
    requires LinesOf(rest) != [] && x.heading == y.heading && Flat(x.lines) == Flat(y.lines)
    ensures TextOf(pre, [first, x] + rest) == TextOf(pre, [first, y] + rest)
  {
    TextAround(pre, first, x, rest);
    TextAround(pre, first, y, rest);
  }
}
