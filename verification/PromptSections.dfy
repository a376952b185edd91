/** What the field validator makes of printed sections. */
module PromptSections {
  import opened Base
  import opened Text
  import opened PromptValidation

  // ---------------------------------------------------------------- labelled fields

  predicate IsLabel(s: string) {
    s != "" && forall i :: 0 <= i < |s| ==> IsLabelChar(s[i])
  }

  predicate Labels(labels: seq<string>) {
    && (forall i :: 0 <= i < |labels| ==> IsLabel(labels[i]))
    && (forall i, j :: 0 <= i < j < |labels| ==> labels[i] != labels[j])
  }

  function FieldLines(labels: seq<string>, values: seq<string>): (r: seq<string>)
    requires |labels| == |values|
    ensures |r| == |labels| && forall i :: 0 <= i < |r| ==> r[i] == labels[i] + ": " + values[i]
  {
    seq(|labels|, i requires 0 <= i < |labels| => labels[i] + ": " + values[i])
  }

  predicate NoneEmpty(values: seq<string>) {
    forall i :: 0 <= i < |values| ==> values[i] != ""
  }

  lemma LabelEndIs(name: string, rest: string)
    requires IsLabel(name) && rest != "" && !IsLabelChar(rest[0])
    ensures LabelEnd(name + rest) == |name|
  {
    var s := name + rest;
    forall i | 0 <= i < |name| ensures IsLabelChar(s[i]) { assert s[i] == name[i]; }
    assert s[|name|] == rest[0];
  }

  /** A printed field parses back, unless its value is empty. */
  lemma ParseLabelled(name: string, value: string)
    requires IsLabel(name)
    ensures ParseField(name + ": " + value) == if value == "" then None else Some((name, value))
  {
    var line := name + ": " + value;
    assert line == name + (": " + value);
    LabelEndIs(name, ": " + value);
    assert line[..|name|] == name && line[|name| + 2..] == value;
    assert line[|name|] == ':' && line[|name| + 1] == ' ';
  }

  lemma InitFields(labels: seq<string>, values: seq<string>)
    requires |labels| == |values| > 0
    ensures var n := |labels| - 1; FieldLines(labels, values)[..n] == FieldLines(labels[..n], values[..n])
  {
  }

  lemma NamesAppend(lines: seq<string>, line: string)
    ensures NamesOf(lines + [line])
         == if ParseField(line).None? then NamesOf(lines) else NamesOf(lines) + [ParseField(line).value.0]
  {
    assert (lines + [line])[..|lines|] == lines;
  }

  /** The names read from printed fields are all the labels exactly if no value is empty. */
  lemma {:induction false} NamesOfFields(labels: seq<string>, values: seq<string>)
    requires |labels| == |values| && Labels(labels)
    ensures |NamesOf(FieldLines(labels, values))| <= |labels|
    ensures NamesOf(FieldLines(labels, values)) == labels <==> NoneEmpty(values)
  {
    if labels != [] {
      var n := |labels| - 1;
      NamesOfFields(labels[..n], values[..n]);
      var lines, line := FieldLines(labels[..n], values[..n]), labels[n] + ": " + values[n];
      assert FieldLines(labels, values) == lines + [line];
      NamesAppend(lines, line);
      ParseLabelled(labels[n], values[n]);
      LastName(labels, values, NamesOf(lines));
    }
  }

  lemma LastName(labels: seq<string>, values: seq<string>, before: seq<string>)
    requires |labels| == |values| > 0 && |before| < |labels|
    requires before == labels[..|labels| - 1] <==> NoneEmpty(values[..|labels| - 1])
    ensures var n := |labels| - 1;
      (if values[n] == "" then before else before + [labels[n]]) == labels <==> NoneEmpty(values)
  {
    var n := |labels| - 1;
    assert labels == labels[..n] + [labels[n]] && values == values[..n] + [values[n]];
    assert (before + [labels[n]])[..|before|] == before;
    if before == labels[..n] && values[n] != "" {
      forall i | 0 <= i < |values| ensures values[i] != "" { if i < n { assert values[..n][i] == values[i]; } }
    }
    if NoneEmpty(values) {
      forall i | 0 <= i < n ensures values[..n][i] != "" { assert values[..n][i] == values[i]; }
    }
  }

  /** Every value that is not empty is read back under its name. */
  lemma {:induction false} ValuesOfFields(labels: seq<string>, values: seq<string>, i: nat)
    requires |labels| == |values| && Labels(labels) && i < |labels| && values[i] != ""
    ensures labels[i] in FieldsOf(FieldLines(labels, values))
    ensures FieldsOf(FieldLines(labels, values))[labels[i]] == values[i]
  {
    var n := |labels| - 1;
    InitFields(labels, values);
    ParseLabelled(labels[n], values[n]);
    if i < n {
      ValuesOfFields(labels[..n], values[..n], i);
      assert labels[..n][i] == labels[i] != labels[n];
    }
  }

  lemma {:induction false} OnlyLabels(labels: seq<string>, values: seq<string>)
    requires |labels| == |values| && Labels(labels)
    ensures forall l :: l in FieldsOf(FieldLines(labels, values)) ==> l in labels
  {
    if labels != [] {
      var n := |labels| - 1;
      InitFields(labels, values);
      OnlyLabels(labels[..n], values[..n]);
      ParseLabelled(labels[n], values[n]);
    }
  }

  lemma {:induction false} NamesAreFields(lines: seq<string>)
    ensures forall l :: l in NamesOf(lines) ==> l in FieldsOf(lines)
  {
    if lines != [] { NamesAreFields(lines[..|lines| - 1]); }
  }

  /** So the loop over required names never decides: the order comparison covers it. */
  lemma OrderDecides(body: string, specs: seq<FieldSpec>, missing: Error, order: Error)
    ensures FieldError(body, specs, missing, order).None? <==> NamesOf(SplitLines(body)) == Names(specs)
  {
    NamesAreFields(SplitLines(body));
    if NamesOf(SplitLines(body)) == Names(specs) {
      forall i | 0 <= i < |specs| ensures specs[i].name in FieldsOf(SplitLines(body)) {
        assert Names(specs)[i] == specs[i].name;
      }
    }
  }

  predicate AllSingle(values: seq<string>) {
    forall i :: 0 <= i < |values| ==> SingleLine(values[i])
  }

  lemma LabelledLine(name: string, value: string)
    requires IsLabel(name) && SingleLine(value)
    ensures var line := name + ": " + value; SingleLine(line) && Trimmed(line)
  {
    var line := name + ": " + value;
    forall i | 0 <= i < |line| ensures !IsBreak(line[i]) {
      if i < |name| { assert line[i] == name[i] && IsLabelChar(name[i]); }
      else if i >= |name| + 2 { assert line[i] == value[i - |name| - 2]; }
    }
    assert !IsBreak(line[0]) && !IsBreak(line[|line| - 1]);
  }

  lemma JoinTrimmed(lines: seq<string>)
    requires lines != [] && Trimmed(lines[0]) && Trimmed(lines[|lines| - 1])
    ensures Trimmed(Join(lines))
  {
    var n := |lines| - 1;
    assert Join(lines)[|Join(lines)| - 1] == lines[n][|lines[n]| - 1];
    if n > 0 { assert lines[..n][0] == lines[0]; }
    assert Join(lines)[0] == lines[0][0];
  }

  /** The body of a field section is its lines. */
  lemma FieldSection(labels: seq<string>, values: seq<string>)
    requires labels != [] && |labels| == |values| && Labels(labels) && AllSingle(values)
    ensures SplitLines(StripNewlines("\n" + Flat(FieldLines(labels, values) + [""]))) == FieldLines(labels, values)
  {
    var lines := FieldLines(labels, values);
    forall i | 0 <= i < |lines| ensures SingleLine(lines[i]) && Trimmed(lines[i]) {
      LabelledLine(labels[i], values[i]);
    }
    JoinTrimmed(lines);
    BlankLineAfter(lines);
    SplitJoin(lines);
  }

  // ---------------------------------------------------------------- a last value that runs over lines

  /** The lines after the first. */
  function LaterLines(s: string): seq<string> {
    if LineEnd(s) < |s| then SplitLines(s[AfterLine(s)..]) else []
  }

  /** The text's first line is not empty. */
  predicate Begins(s: string) {
    s != "" && !IsBreak(s[0])
  }

  /** A value under a label reads as that field alone: its later lines are no fields, or make up for an empty first one. */
  predicate ReadsAs(name: string, value: string) {
    NamesOf(LaterLines(value)) == if Begins(value) then [] else [name]
  }

  lemma NamesOfOne(line: string)
    ensures NamesOf([line]) == if ParseField(line).None? then [] else [ParseField(line).value.0]
  {
    assert [line] == [] + [line];
    NamesAppend([], line);
  }

  lemma NamesStep(lines: seq<string>, line: string)
    ensures NamesOf(lines + [line]) == NamesOf(lines) + NamesOf([line])
  {
    NamesAppend(lines, line);
    NamesOfOne(line);
  }

  lemma {:induction false} NamesConcat(a: seq<string>, b: seq<string>)
    ensures NamesOf(a + b) == NamesOf(a) + NamesOf(b)
  {
    if b == [] {
      assert a + b == a;
    } else {
      var init, last := b[..|b| - 1], b[|b| - 1];
      assert b == init + [last];
      Assoc(a, init, [last]);
      NamesConcat(a, init);
      NamesStep(a + init, last);
      NamesStep(init, last);
      Assoc(NamesOf(a), NamesOf(init), NamesOf([last]));
    }
  }

  lemma BreakBefore(s: string)
    requires LineEnd(s) < |s|
    ensures var t := s + "\n";
      LineEnd(t) == LineEnd(s) < |t| && t[..LineEnd(t)] == s[..LineEnd(s)]
      && (t[AfterLine(t)..] == s[AfterLine(s)..] + "\n" || t[AfterLine(t)..] == s[AfterLine(s)..] == "")
  {
    var t, n := s + "\n", LineEnd(s);
    FirstLineOfTwo(s, "");
    assert s + "\n" + "" == t;
    assert t[n] == s[n] && t[|s|] == '\n' && (n + 1 < |s| ==> t[n + 1] == s[n + 1]);
    if AfterLine(t) == AfterLine(s) { assert t[AfterLine(s)..] == s[AfterLine(s)..] + "\n"; }
  }

  lemma NoBreakBefore(s: string)
    requires LineEnd(s) == |s|
    ensures SplitLines(s + "\n") == [s]
  {
    FirstLine(s, "");
    assert s + "\n" + "" == s + "\n";
    assert [s] + SplitLines("") == [s];
  }

  /** One more newline makes at most one more line, an empty one. */
  lemma {:induction false} NewlineAfter(s: string)
    ensures SplitLines(s + "\n") == SplitLines(s) || SplitLines(s + "\n") == SplitLines(s) + [""]
    decreases |s|
  {
    if LineEnd(s) == |s| {
      NoBreakBefore(s);
      assert s == "" ==> SplitLines(s) + [""] == [s];
    } else {
      var rest := s[AfterLine(s)..];
      BreakBefore(s);
      SplitFirst(s);
      SplitFirst(s + "\n");
      NewlineAfter(rest);
      Assoc([s[..LineEnd(s)]], SplitLines(rest), [""]);
    }
  }

  /** Newlines at the end hide no field. */
  lemma {:induction false} StripKeepsNames(s: string)
    ensures NamesOf(SplitLines(RStripNewlines(s))) == NamesOf(SplitLines(s))
  {
    if s != "" && s[|s| - 1] == '\n' {
      var t := s[..|s| - 1];
      assert s == t + "\n";
      StripKeepsNames(t);
      NewlineAfter(t);
      NamesAppend(SplitLines(t), "");
    }
  }

  lemma LabelIsSingle(name: string)
    requires IsLabel(name)
    ensures SingleLine(name + ": ")
  {
    var start := name + ": ";
    forall i | 0 <= i < |start| ensures !IsBreak(start[i]) {
      if i < |name| { assert start[i] == name[i] && IsLabelChar(name[i]); }
    }
  }

  lemma LineEndAfter(start: string, value: string)
    requires SingleLine(start)
    ensures LineEnd(start + value) == |start| + LineEnd(value)
  {
    var k := LineEnd(value);
    var first := start + value[..k];
    forall i | 0 <= i < |first| ensures !IsBreak(first[i]) {
      if i < |start| { assert first[i] == start[i]; } else { assert first[i] == value[i - |start|]; }
    }
    LineEndIs(first, value[k..]);
    assert first + value[k..] == start + value;
  }

  lemma AfterLineAfter(start: string, value: string)
    requires SingleLine(start) && LineEnd(value) < |value|
    ensures LineEnd(start + value) < |start + value|
    ensures (start + value)[AfterLine(start + value)..] == value[AfterLine(value)..]
  {
    var s, k, m := start + value, LineEnd(value), |start|;
    LineEndAfter(start, value);
    assert s[m + k] == value[k] && (k + 1 < |value| ==> s[m + k + 1] == value[k + 1]);
    assert AfterLine(s) == m + AfterLine(value);
  }

  /** Only the first line of a labelled value carries the label. */
  lemma LinesAfter(start: string, value: string)
    requires SingleLine(start) && start != ""
    ensures SplitLines(start + value) == [start + value[..LineEnd(value)]] + LaterLines(value)
  {
    var s, k := start + value, LineEnd(value);
    LineEndAfter(start, value);
    assert s[..|start| + k] == start + value[..k];
    if k < |value| {
      AfterLineAfter(start, value);
      SplitFirst(s);
    } else {
      assert value[..k] == value;
      SingleLines(s);
      assert [s] + [] == [s];
    }
  }

  lemma LabelledNames(name: string, value: string)
    requires IsLabel(name)
    ensures NamesOf(SplitLines(name + ": " + value)) == [name] <==> ReadsAs(name, value)
  {
    var start, first := name + ": ", value[..LineEnd(value)];
    LabelIsSingle(name);
    LinesAfter(start, value);
    NamesConcat([start + first], LaterLines(value));
    NamesOfOne(start + first);
    ParseLabelled(name, first);
    assert first == "" <==> !Begins(value);
    var later := NamesOf(LaterLines(value));
    assert [name] + later == [name] <==> later == [];
  }

  lemma BodyNames(lines: seq<string>)
    requires lines != [] && Join(lines) != "" && Join(lines)[0] != '\n'
    ensures NamesOf(SplitLines(StripNewlines("\n" + Flat(lines + [""])))) == NamesOf(SplitLines(Join(lines)))
  {
    var all := Join(lines);
    FlatAppend(lines, [""]);
    assert Flat([""]) == "" + "\n" + Flat([]);
    JoinIsFlat(lines);
    assert Flat(lines + [""]) == all + "\n" + "\n";
    LStripNewline(all + "\n" + "\n");
    assert LStripNewlines(all + "\n" + "\n") == all + "\n" + "\n";
    RStripNewline(all + "\n");
    RStripNewline(all);
    StripKeepsNames(all);
  }

  lemma InitLines(labels: seq<string>, values: seq<string>, n: nat)
    requires |labels| == |values| == n + 1 && Labels(labels) && AllSingle(values[..n]) && NoneEmpty(values[..n])
    ensures NamesOf(FieldLines(labels[..n], values[..n])) == labels[..n]
    ensures forall i :: 0 <= i < n ==> SingleLine(FieldLines(labels[..n], values[..n])[i])
    ensures Join(FieldLines(labels, values)) != "" && Join(FieldLines(labels, values))[0] != '\n'
  {
    NamesOfFields(labels[..n], values[..n]);
    forall i | 0 <= i < n ensures SingleLine(FieldLines(labels[..n], values[..n])[i]) {
      LabelledLine(labels[i], values[..n][i]);
    }
    var lines := FieldLines(labels, values);
    JoinStarts(lines);
    assert Join(lines)[0] == lines[0][0] == labels[0][0];
    assert IsLabelChar(labels[0][0]);
  }

  /** A section whose last value is any text reads as its labels exactly if that value reads as its own field. */
  lemma OpenSection(labels: seq<string>, values: seq<string>, n: nat)
    requires |labels| == |values| == n + 1 && Labels(labels) && AllSingle(values[..n]) && NoneEmpty(values[..n])
    ensures var body := StripNewlines("\n" + Flat(FieldLines(labels, values) + [""]));
      NamesOf(SplitLines(body)) == labels <==> ReadsAs(labels[n], values[n])
  {
    var lines := FieldLines(labels, values);
    var init, line := FieldLines(labels[..n], values[..n]), lines[n];
    InitFields(labels, values);
    InitLines(labels, values, n);
    BodyNames(lines);
    assert lines == init + [line];
    SplitJoinLast(init, line);
    NamesConcat(init, SplitLines(line));
    LabelledNames(labels[n], values[n]);
    LastAppended(labels, n, NamesOf(SplitLines(line)));
  }

  lemma LastAppended(labels: seq<string>, n: nat, names: seq<string>)
    requires |labels| == n + 1
    ensures labels[..n] + names == labels <==> names == [labels[n]]
  {
    var all := labels[..n] + names;
    assert all[n..] == names && labels[n..] == [labels[n]];
    assert labels == labels[..n] + [labels[n]];
  }

  lemma JoinStarts(lines: seq<string>)
    requires lines != []
    ensures lines[0] <= Join(lines)
  {
    if |lines| > 1 {
      assert lines == [lines[0]] + lines[1..];
      JoinAppend([lines[0]], lines[1..]);
      FlatOne(lines[0]);
    } else {
      assert lines[..0] == [];
    }
  }

  /** Every break is a carriage return before a space or at the end, as where one-line texts are joined by spaces. */
  predicate Folded(s: string) {
    forall i :: 0 <= i < |s| && IsBreak(s[i]) ==> s[i] == '\r' && (i + 1 < |s| ==> s[i + 1] == ' ')
  }

  /** The lines after the first of a folded text are indented, so they are no fields. */
  lemma {:induction false} FoldedLater(s: string)
    requires Folded(s)
    ensures NamesOf(LaterLines(s)) == []
    decreases |s|
  {
    var n := LineEnd(s);
    if n < |s| {
      assert AfterLine(s) == n + 1;
      var rest := s[n + 1..];
      if rest != "" {
        forall i | 0 <= i < |rest| ensures rest[i] == s[n + 1 + i] { }
        IndentedNames(rest);
        FoldedLater(rest);
      }
    }
  }

  lemma IndentedNames(s: string)
    requires s != "" && s[0] == ' '
    ensures NamesOf(SplitLines(s)) == NamesOf(LaterLines(s))
  {
    var first := s[..LineEnd(s)];
    if LineEnd(s) < |s| { SplitFirst(s); } else { assert first == s; }
    assert SplitLines(s) == [first] + LaterLines(s);
    NamesConcat([first], LaterLines(s));
    NamesOfOne(first);
    assert LabelEnd(first) == 0;
  }

  /** So a folded value reads as its field exactly if its first line is not empty. */
  lemma FoldedReads(name: string, value: string)
    requires Folded(value)
    ensures ReadsAs(name, value) <==> Begins(value)
  {
    FoldedLater(value);
  }

  lemma BlankLineAfter(lines: seq<string>)
    requires lines != [] && Trimmed(Join(lines))
    ensures StripNewlines("\n" + Flat(lines + [""])) == Join(lines)
  {
    FlatAppend(lines, [""]);
    assert Flat([""]) == "" + "\n" + Flat([]);
    JoinIsFlat(lines);
    StripAround(Join(lines));
    assert "\n" + Flat(lines + [""]) == "\n" + Join(lines) + "\n\n";
  }
}
