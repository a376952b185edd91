/** What the dream validator makes of printed dreams. */
module PromptLog {
  import opened Base
  import opened Text
  import opened PromptValidation
  import opened PromptCompiler

  // ---------------------------------------------------------------- dream entries

  function Marker(e: Entry): string {
    MARKER + Signed(e.index) + "]"
  }

  function Block(e: Entry): string {
    Marker(e) + "\n" + (TEXT + e.text) + "\n" + (TIMESTAMP + e.timestamp)
  }

  function BlocksOf(dreams: seq<Entry>): (r: seq<string>)
    ensures |r| == |dreams| && forall k :: 0 <= k < |r| ==> r[k] == Block(dreams[k])
  {
    seq(|dreams|, k requires 0 <= k < |dreams| => Block(dreams[k]))
  }

  /** A dream that is printed without a blank line inside. */
  predicate Loggable(e: Entry) {
    NoBlankLine(e.text + "\n") && SingleLine(e.timestamp)
  }

  lemma NoBlankAppend(a: string, b: string)
    requires NoBlankLine(a) && NoBlankLine(b)
    requires a == "" || b == "" || a[|a| - 1] != '\n' || b[0] != '\n'
    ensures NoBlankLine(a + b)
  {
    var s := a + b;
    forall i | 0 <= i < |s| - 1 ensures !(s[i] == '\n' && s[i + 1] == '\n') {
      if i + 1 < |a| { assert s[i] == a[i] && s[i + 1] == a[i + 1]; }
      else if i >= |a| { assert s[i] == b[i - |a|] && s[i + 1] == b[i + 1 - |a|]; }
      else { assert s[i] == a[|a| - 1] && s[i + 1] == b[0]; }
    }
  }

  lemma SignedIsSingle(n: int)
    ensures Signed(n) != "" && SingleLine(Signed(n)) && '_' !in Signed(n) && '#' !in Signed(n)
  {
    var digits := Decimal(if n < 0 then -n else n);
    forall i | 0 <= i < |Signed(n)| ensures Signed(n)[i] == '-' || IsDigit(Signed(n)[i]) {
      if n < 0 && i > 0 { assert Signed(n)[i] == digits[i - 1]; }
    }
  }

  lemma MarkerIsSingle(e: Entry)
    ensures SingleLine(Marker(e)) && Trimmed(Marker(e)) && !IsSpace(Marker(e)[0]) && '#' !in Marker(e)
    ensures '_' !in Marker(e)
  {
    SignedIsSingle(e.index);
    var m, d := Marker(e), Signed(e.index);
    forall i | 0 <= i < |m| ensures !IsBreak(m[i]) && m[i] != '#' && m[i] != '_' {
      if |MARKER| <= i < |m| - 1 { assert m[i] == d[i - |MARKER|]; } else if i < |MARKER| { assert m[i] == MARKER[i]; }
    }
    assert m[0] == '[' && m[|m| - 1] == ']';
  }

  lemma {:induction false} DigitsStart(s: string)
    ensures Digits(s).Some? ==> s != "" && IsDigit(s[0])
  {
    if s != "" && |s| > 1 { DigitsStart(if s[|s| - 2] == '_' then s[..|s| - 2] else s[..|s| - 1]); }
  }

  /** A printed marker carries exactly its index. */
  lemma MarkerMatches(e: Entry, index: nat)
    ensures MarkerIndex(Marker(e)) == Some(index) <==> e.index == index
  {
    MarkerIsSingle(e);
    var m := Marker(e);
    assert m[..|MARKER|] == MARKER && m[|m| - 1] == ']' && m[|MARKER|..|m| - 1] == Signed(e.index);
    if e.index < 0 { DigitsStart(Signed(e.index)); } else { DigitsOfDecimal(e.index); }
  }

  lemma BlockEnds(e: Entry)
    requires SingleLine(e.timestamp)
    ensures Trimmed(Block(e)) && !IsSpace(Block(e)[0]) && Block(e)[0] == '['
  {
    MarkerIsSingle(e);
    var last := TIMESTAMP + e.timestamp;
    StampIsSingle(e.timestamp);
    assert Block(e)[0] == Marker(e)[0] == MARKER[0] && Block(e)[|Block(e)| - 1] == last[|last| - 1];
  }

  lemma StampIsSingle(timestamp: string)
    requires SingleLine(timestamp)
    ensures SingleLine(TIMESTAMP + timestamp)
  {
    var last := TIMESTAMP + timestamp;
    forall i | 0 <= i < |last| ensures !IsBreak(last[i]) {
      if i >= |TIMESTAMP| { assert last[i] == timestamp[i - |TIMESTAMP|]; } else { assert last[i] == TIMESTAMP[i]; }
    }
  }

  lemma BlockWhole(e: Entry)
    requires Loggable(e)
    ensures NoBlankLine(Block(e))
  {
    MarkerIsSingle(e);
    var head, last := Marker(e) + "\n" + TEXT, TIMESTAMP + e.timestamp;
    SingleNoBlank(Marker(e));
    NoBlankAppend(Marker(e), "\n" + TEXT);
    assert Marker(e) + ("\n" + TEXT) == head;
    NoBlankAppend(head, e.text + "\n");
    StampIsSingle(e.timestamp);
    SingleNoBlank(last);
    NoBlankAppend(head + (e.text + "\n"), last);
    assert Block(e) == head + (e.text + "\n") + last;
  }

  lemma SingleNoBlank(s: string)
    requires SingleLine(s)
    ensures NoBlankLine(s)
  {
    forall i | 0 <= i < |s| ensures s[i] != '\n' { assert !IsBreak(s[i]); }
  }

  /** The last line of a block once the block is stripped. */
  function LastLine(e: Entry): string {
    RStrip(TIMESTAMP + e.timestamp)
  }

  lemma LastLineIs(e: Entry)
    requires SingleLine(e.timestamp)
    ensures LastLine(e) != "" && SingleLine(LastLine(e))
    ensures HasInk(e.timestamp) ==> LastLine(e) == TIMESTAMP + RStrip(e.timestamp)
    ensures StartsWith(LastLine(e), TIMESTAMP) <==> HasInk(e.timestamp)
  {
    RStripOfAppend(TIMESTAMP, e.timestamp);
    RStripInk(e.timestamp);
    var bare := RStrip(TIMESTAMP);
    assert TIMESTAMP[|TIMESTAMP| - 1] == ' ' && TIMESTAMP[|TIMESTAMP| - 2] == ':';
    assert |bare| == |TIMESTAMP| - 1;
    var s := LastLine(e);
    forall i | 0 <= i < |s| ensures !IsBreak(s[i]) {
      if i < |TIMESTAMP| { assert s[i] == TIMESTAMP[i]; } else { assert s[i] == e.timestamp[i - |TIMESTAMP|]; }
    }
    if HasInk(e.timestamp) { assert s[..|TIMESTAMP|] == TIMESTAMP; }
  }

  lemma StrippedBlock(e: Entry)
    requires SingleLine(e.timestamp)
    ensures Strip(Block(e)) == Marker(e) + "\n" + ((TEXT + e.text) + "\n" + LastLine(e))
  {
    BlockEnds(e);
    LastLineIs(e);
    assert LStrip(Block(e)) == Block(e);
    StripTail(Marker(e), TEXT + e.text, TIMESTAMP + e.timestamp);
  }

  lemma StripTail(a: string, b: string, c: string)
    requires RStrip(c) != ""
    ensures RStrip(a + "\n" + b + "\n" + c) == a + "\n" + (b + "\n" + RStrip(c))
  {
    var head := a + "\n" + b + "\n";
    RStripOfAppend(head, c);
    Assoc(a + "\n", b, "\n");
    Assoc(a + "\n", b + "\n", RStrip(c));
  }

  lemma OneLineAfter(name: string, s: string)
    requires SingleLine(name)
    ensures OneLine(name + s) <==> OneLine(s)
    ensures OneLine(s) ==> WithoutReturn(name + s) == name + WithoutReturn(s)
  {
    SingleAfter(name, s);
    if s != "" {
      var t := name + s;
      assert t[|t| - 1] == s[|s| - 1] && t[..|t| - 1] == name + s[..|s| - 1];
      SingleAfter(name, s[..|s| - 1]);
    } else {
      assert name + s == name;
    }
  }

  lemma SingleAfter(name: string, s: string)
    requires SingleLine(name)
    ensures SingleLine(name + s) <==> SingleLine(s)
  {
    var t := name + s;
    forall i | 0 <= i < |t| ensures t[i] == if i < |name| then name[i] else s[i - |name|] { }
    if SingleLine(t) {
      forall i | 0 <= i < |s| ensures !IsBreak(s[i]) { assert t[|name| + i] == s[i]; }
    }
  }

  lemma BlockLines(e: Entry)
    requires SingleLine(e.timestamp)
    ensures OneLine(e.text) ==> SplitLines(Strip(Block(e))) == [Marker(e), TEXT + WithoutReturn(e.text), LastLine(e)]
    ensures |SplitLines(Strip(Block(e)))| == 3 ==> OneLine(e.text)
  {
    StrippedBlock(e);
    MarkerIsSingle(e);
    LastLineIs(e);
    ThreeLines(Marker(e), e.text, LastLine(e));
  }

  lemma ThreeLines(marker: string, text: string, last: string)
    requires SingleLine(marker) && last != "" && SingleLine(last)
    ensures var lines := SplitLines(marker + "\n" + ((TEXT + text) + "\n" + last));
      && (OneLine(text) ==> lines == [marker, TEXT + WithoutReturn(text), last])
      && (|lines| == 3 ==> OneLine(text))
  {
    FirstLine(marker, (TEXT + text) + "\n" + last);
    TextLines(text, last);
  }

  lemma TextLines(text: string, last: string)
    requires last != "" && SingleLine(last)
    ensures OneLine(text) ==> SplitLines((TEXT + text) + "\n" + last) == [TEXT + WithoutReturn(text), last]
    ensures |SplitLines((TEXT + text) + "\n" + last)| == 2 ==> OneLine(text)
  {
    TwoLines(TEXT + text, last);
    TextIsSingle();
    OneLineAfter(TEXT, text);
  }

  lemma TextIsSingle()
    ensures SingleLine(TEXT)
  {
  }

  predicate Passes(e: Entry, index: nat) {
    e.index == index && OneLine(e.text) && HasInk(e.timestamp)
  }

  /** A block is the n-th dream entry: a marker with its number, a text line and a timestamp line. */
  predicate IsEntry(block: string, n: nat) {
    var lines := SplitLines(block);
    && |lines| == 3 && MarkerIndex(lines[0]) == Some(n)
    && TEXT <= lines[1] && TIMESTAMP <= lines[2]
  }

  lemma IsEntryExactly(block: string, n: nat)
    ensures BlockError(block, n).None? <==> IsEntry(block, n)
  {
  }

  /** One printed dream passes as one entry exactly if it is numbered right, is one line, and has a timestamp. */
  lemma BlockAccepted(e: Entry, index: nat)
    requires SingleLine(e.timestamp)
    ensures IsEntry(Strip(Block(e)), index) <==> Passes(e, index)
  {
    BlockLines(e);
    MarkerMatches(e, index);
    LastLineIs(e);
    if OneLine(e.text) { assert (TEXT + WithoutReturn(e.text))[..|TEXT|] == TEXT; }
  }

  // ---------------------------------------------------------------- the blocks of one dream

  /** The blocks are the entries with the numbers after `before`. */
  predicate EntriesFrom(blocks: seq<string>, before: nat) {
    forall i :: 0 <= i < |blocks| ==> IsEntry(blocks[i], before + i + 1)
  }

  lemma EntriesAppend(a: seq<string>, b: seq<string>, before: nat)
    ensures EntriesFrom(a + b, before) <==> EntriesFrom(a, before) && EntriesFrom(b, before + |a|)
  {
    var s := a + b;
    if EntriesFrom(s, before) {
      forall i | 0 <= i < |a| ensures IsEntry(a[i], before + i + 1) { assert s[i] == a[i]; }
      forall i | 0 <= i < |b| ensures IsEntry(b[i], before + |a| + i + 1) { assert s[|a| + i] == b[i]; }
    }
  }

  lemma {:induction false} EntriesExactly(blocks: seq<string>, k: nat)
    requires k <= |blocks|
    ensures BlocksError(blocks, k).None? <==> EntriesFrom(blocks[k..], k)
    decreases |blocks| - k
  {
    if k < |blocks| {
      EntriesExactly(blocks, k + 1);
      IsEntryExactly(blocks[k], k + 1);
      assert blocks[k..] == [blocks[k]] + blocks[k + 1..];
      EntriesAppend([blocks[k]], blocks[k + 1..], k);
      OneEntry(blocks[k], k);
    }
  }

  lemma OneEntry(block: string, before: nat)
    ensures EntriesFrom([block], before) <==> IsEntry(block, before + 1)
  {
    assert [block][0] == block;
  }

  /** The blocks that one printed dream makes: more than one if its text has a blank line. */
  function OwnBlocks(printed: string): seq<string> {
    InkedBlocks(SplitOn(printed, "\n\n"))
  }

  /** Printed by itself after `before` entries, the dream reads as entries. */
  predicate Reads(printed: string, before: nat) {
    EntriesFrom(OwnBlocks(printed), before)
  }

  lemma WholeBlock(e: Entry)
    requires Loggable(e)
    ensures OwnBlocks(Block(e)) == [Strip(Block(e))]
  {
    BlockEnds(e);
    BlockWhole(e);
    OneBlock(Block(e));
    StrippedBlock(e);
    MarkerIsSingle(e);
    assert Strip(Block(e)) != "";
    InkedOne(Block(e));
  }

  /** Where the text and the newline after it first have a blank line. */
  lemma FirstBlank(text: string) returns (q: nat)
    requires !NoBlankLine(text + "\n")
    ensures q < |text| && Find(text + "\n", "\n\n", 0) == Some(q)
  {
    var s := text + "\n";
    var j :| 0 <= j < |s| - 1 && s[j] == '\n' && s[j + 1] == '\n';
    assert s[j..j + 2] == "\n\n";
    assert Occurs("\n\n", s, j);
    q := Find(s, "\n\n", 0).value;
  }

  lemma HeadWhole(marker: string)
    requires SingleLine(marker)
    ensures NoBlankLine(marker + "\n" + TEXT)
  {
    SingleNoBlank(marker);
    NoBlankAppend(marker, "\n" + TEXT);
    assert marker + ("\n" + TEXT) == marker + "\n" + TEXT;
  }

  /** A dream with a blank line in its text is cut there. */
  lemma CutBlock(e: Entry) returns (text: string, rest: string)
    requires SingleLine(e.timestamp) && !NoBlankLine(e.text + "\n")
    ensures text <= e.text && HasInk(rest)
    ensures SplitOn(Block(e), "\n\n") == [Marker(e) + "\n" + (TEXT + text)] + SplitOn(rest, "\n\n")
  {
    MarkerIsSingle(e);
    assert TIMESTAMP[0] == 't';
    text, rest := CutText(Marker(e), e.text, TIMESTAMP + e.timestamp);
  }

  lemma CutText(marker: string, text: string, last: string) returns (shown: string, rest: string)
    requires SingleLine(marker) && !NoBlankLine(text + "\n") && last != "" && !IsSpace(last[0])
    ensures shown <= text && HasInk(rest)
    ensures SplitOn(marker + "\n" + (TEXT + text) + "\n" + last, "\n\n")
         == [marker + "\n" + (TEXT + shown)] + SplitOn(rest, "\n\n")
  {
    var q := FirstBlank(text);
    HeadWhole(marker);
    var body := text + "\n";
    shown, rest := text[..q], body[q + 2..] + last;
    SplitLater(marker + "\n" + TEXT, body, last, q);
    assert body[..q] == shown;
    JoinText(marker, TEXT, shown);
    BlockParts(marker, TEXT, text, last);
    assert rest[|body| - q - 2] == last[0];
  }

  lemma JoinText(marker: string, name: string, text: string)
    ensures marker + "\n" + name + text == marker + "\n" + (name + text)
  {
  }

  lemma BlockParts(marker: string, name: string, text: string, last: string)
    ensures marker + "\n" + (name + text) + "\n" + last == marker + "\n" + name + ((text + "\n") + last)
  {
    JoinText(marker, name, text);
    var head := marker + "\n" + name;
    assert head + text + "\n" + last == head + ((text + "\n") + last);
  }

  lemma InkParts(s: string, p: nat)
    requires Occurs("\n\n", s, p) && HasInk(s)
    ensures HasInk(s[..p]) || HasInk(s[p + 2..])
  {
    var i :| 0 <= i < |s| && !IsSpace(s[i]);
    assert s[p] == s[p..p + 2][0] && s[p + 1] == s[p..p + 2][1];
    if i < p { assert s[..p][i] == s[i]; } else { assert s[p + 2..][i - p - 2] == s[i]; }
  }

  lemma {:induction false} InkSurvives(s: string)
    requires HasInk(s)
    ensures InkedBlocks(SplitOn(s, "\n\n")) != []
    decreases |s|
  {
    match Find(s, "\n\n", 0)
    case None => InkedOne(s);
    case Some(p) =>
      InkParts(s, p);
      InkedOne(s[..p]);
      InkedAppend([s[..p]], SplitOn(s[p + 2..], "\n\n"));
      if HasInk(s[p + 2..]) { InkSurvives(s[p + 2..]); }
  }

  lemma {:induction false} StripInk(s: string)
    ensures Strip(s) != "" <==> HasInk(s)
    decreases |s|
  {
    RStripInk(s);
    if s != "" && IsSpace(s[0]) {
      StripInk(s[1..]);
      if HasInk(s) {
        var i :| 0 <= i < |s| && !IsSpace(s[i]);
        assert s[1..][i - 1] == s[i];
      }
      if HasInk(s[1..]) {
        var i :| 0 <= i < |s[1..]| && !IsSpace(s[1..][i]);
        assert s[i + 1] == s[1..][i];
      }
    }
  }

  lemma InkedOne(chunk: string)
    ensures InkedBlocks([chunk]) == if Strip(chunk) == "" then [] else [Strip(chunk)]
    ensures HasInk(chunk) ==> InkedBlocks([chunk]) != []
  {
    assert [chunk][..0] == [];
    StripInk(chunk);
  }

  lemma {:induction false} InkedAppend(a: seq<string>, b: seq<string>)
    ensures InkedBlocks(a + b) == InkedBlocks(a) + InkedBlocks(b)
  {
    if b == [] {
      assert a + b == a;
    } else {
      var n := |b| - 1;
      assert (a + b)[..|a + b| - 1] == a + b[..n];
      InkedAppend(a, b[..n]);
    }
  }

  /** Blank lines or not, the first block begins with the marker; with a blank line more blocks follow. */
  lemma FirstOwnBlock(e: Entry) returns (text: string)
    requires SingleLine(e.timestamp)
    ensures OwnBlocks(Block(e)) != [] && SplitLines(OwnBlocks(Block(e))[0]) != []
    ensures SplitLines(OwnBlocks(Block(e))[0])[0] == Marker(e)
    ensures NoBlankLine(e.text + "\n") <==> |OwnBlocks(Block(e))| == 1
    ensures !NoBlankLine(e.text + "\n") ==>
      OwnBlocks(Block(e))[0] == Marker(e) + "\n" + RStrip(TEXT + text) && text <= e.text
  {
    MarkerIsSingle(e);
    if NoBlankLine(e.text + "\n") {
      text := "";
      WholeBlock(e);
      StrippedBlock(e);
      FirstLine(Marker(e), (TEXT + e.text) + "\n" + LastLine(e));
    } else {
      var rest;
      text, rest := CutBlock(e);
      StrippedHead(Marker(e), text);
      var chunk := Marker(e) + "\n" + (TEXT + text);
      InkedAppend([chunk], SplitOn(rest, "\n\n"));
      InkedOne(chunk);
      InkSurvives(rest);
      FirstLine(Marker(e), RStrip(TEXT + text));
    }
  }

  lemma OwnCount(e: Entry)
    requires SingleLine(e.timestamp)
    ensures |OwnBlocks(Block(e))| == 1 <==> NoBlankLine(e.text + "\n")
  {
    var _ := FirstOwnBlock(e);
  }

  lemma StrippedHead(marker: string, text: string)
    requires marker != "" && !IsSpace(marker[0])
    ensures Strip(marker + "\n" + (TEXT + text)) == marker + "\n" + RStrip(TEXT + text)
  {
    var chunk := marker + "\n" + (TEXT + text);
    assert chunk[0] == marker[0];
    assert !IsSpace((TEXT + text)[0]);
    RStripInk(TEXT + text);
    RStripOfAppend(marker + "\n", TEXT + text);
  }

  /** A text in which no line but the first begins as a timestamp line does. */
  predicate NoStampLine(text: string) {
    forall i :: 0 < i <= |text| && IsBreak(text[i - 1]) ==> !StartsWith(text[i..], TIMESTAMP)
  }

  lemma FirstStarts(s: string)
    ensures SplitLines(s) != [] ==> SplitLines(s)[0] <= s
  {
    if LineEnd(s) < |s| { SplitFirst(s); }
  }

  lemma TailOf(s: string, next: nat, later: nat)
    requires next <= |s| && 0 < later <= |s| - next
    ensures s[next..][later - 1] == s[next + later - 1] && s[next..][later..] == s[next + later..]
  {
  }

  lemma LaterLine(s: string, k: nat)
    requires 0 < k < |SplitLines(s)|
    ensures LineEnd(s) < |s| && IsBreak(s[AfterLine(s) - 1])
    ensures var rest := SplitLines(s[AfterLine(s)..]); k - 1 < |rest| && SplitLines(s)[k] == rest[k - 1]
  {
    SplitFirst(s);
  }

  lemma SecondStarts(s: string)
    requires 1 < |SplitLines(s)|
    ensures LineEnd(s) < |s| && SplitLines(s)[1] <= s[AfterLine(s)..]
  {
    LaterLine(s, 1);
    FirstStarts(s[AfterLine(s)..]);
  }

  /** Every line but the first follows a break. */
  lemma {:induction false} LineStarts(s: string, k: nat) returns (at: nat)
    requires 0 < k < |SplitLines(s)|
    ensures 0 < at <= |s| && IsBreak(s[at - 1]) && SplitLines(s)[k] <= s[at..]
    decreases k
  {
    LaterLine(s, k);
    var next := AfterLine(s);
    if k == 1 {
      SecondStarts(s);
      at := next;
    } else {
      var later := LineStarts(s[next..], k - 1);
      TailOf(s, next, later);
      at := next + later;
    }
  }

  /** Cut at a blank line, a text without timestamp lines leaves a block that is no entry. */
  lemma CutIsNoEntry(e: Entry, text: string, n: nat)
    requires NoStampLine(e.text) && text <= e.text
    ensures !IsEntry(Marker(e) + "\n" + RStrip(TEXT + text), n)
  {
    MarkerIsSingle(e);
    var s := Marker(e) + "\n" + RStrip(TEXT + text);
    assert RStrip(TEXT + text) <= TEXT + text <= TEXT + e.text;
    if |SplitLines(s)| == 3 && TIMESTAMP <= SplitLines(s)[2] {
      var at := LineStarts(s, 2);
      StampInText(Marker(e), RStrip(TEXT + text), e.text, at);
    }
  }

  lemma StampInText(marker: string, shown: string, text: string, at: nat)
    requires SingleLine(marker) && NoStampLine(text) && shown <= TEXT + text
    requires 0 < at <= |marker + "\n" + shown| && IsBreak((marker + "\n" + shown)[at - 1])
    ensures !(TIMESTAMP <= (marker + "\n" + shown)[at..])
  {
    var s, m := marker + "\n" + shown, |marker|;
    forall i | 0 <= i < m ensures !IsBreak(s[i]) { assert s[i] == marker[i]; }
    var k := at - m - 1;
    assert s[at..] == shown[k..];
    if k == 0 {
      TextIsNoStamp(shown, text);
    } else {
      assert s[at - 1] == shown[k - 1];
      StampAfterBreak(shown, text, k);
    }
  }

  lemma TextIsNoStamp(shown: string, text: string)
    requires shown <= TEXT + text
    ensures !(TIMESTAMP <= shown)
  {
    if |shown| > 1 { assert shown[1] == (TEXT + text)[1] == TEXT[1] != TIMESTAMP[1]; }
  }

  lemma StampAfterBreak(shown: string, text: string, k: nat)
    requires NoStampLine(text) && shown <= TEXT + text
    requires 0 < k <= |shown| && IsBreak(shown[k - 1])
    ensures !(TIMESTAMP <= shown[k..])
  {
    var full, i := TEXT + text, k - |TEXT|;
    assert shown[k - 1] == full[k - 1];
    TextIsSingle();
    forall j | 0 <= j < |TEXT| ensures !IsBreak(full[j]) { assert full[j] == TEXT[j]; }
    assert full[k - 1] == text[i - 1] && full[k..] == text[i..];
    assert shown[k..] <= full[k..];
  }

  /** What a caller can see of a text: no blank line, or no line that begins as a timestamp line does. */
  predicate Telling(text: string) {
    NoBlankLine(text + "\n") || NoStampLine(text)
  }

  /** Told like this, a dream reads as entries only if it is the one entry it should be. */
  lemma TellingReads(e: Entry, before: nat)
    requires Telling(e.text) && SingleLine(e.timestamp)
    ensures Reads(Block(e), before) <==> Passes(e, before + 1)
    ensures Reads(Block(e), before) ==> |OwnBlocks(Block(e))| == 1
  {
    PassingIsWhole(e, before);
    if !NoBlankLine(e.text + "\n") {
      var text := FirstOwnBlock(e);
      CutIsNoEntry(e, text, before + 1);
    }
  }

  lemma PassingIsWhole(e: Entry, before: nat)
    requires SingleLine(e.timestamp)
    ensures NoBlankLine(e.text + "\n") ==> |OwnBlocks(Block(e))| == 1 && (Reads(Block(e), before) <==> Passes(e, before + 1))
    ensures OneLine(e.text) ==> NoBlankLine(e.text + "\n")
  {
    if NoBlankLine(e.text + "\n") {
      WholeBlock(e);
      OneEntry(Strip(Block(e)), before);
      BlockAccepted(e, before + 1);
    }
    OneLineIsWhole(e.text);
  }

  lemma OneLineIsWhole(text: string)
    ensures OneLine(text) ==> NoBlankLine(text + "\n")
  {
    if OneLine(text) {
      var s := text + "\n";
      forall i | 0 <= i < |s| - 1 ensures s[i] != '\n' {
        assert i < |text| - 1 ==> text[..|text| - 1][i] == s[i];
      }
    }
  }

  // ---------------------------------------------------------------- the dream log

  lemma {:induction false} LogFirst(dreams: seq<Entry>)
    requires dreams != []
    ensures LogLines(dreams) == EntryLines(dreams[0]) + LogLines(dreams[1..])
  {
    var n := |dreams| - 1;
    if n == 0 {
      assert dreams[..0] == [] && dreams[1..] == [];
    } else {
      LogFirst(dreams[..n]);
      var middle, last := LogLines(dreams[..n][1..]), EntryLines(dreams[n]);
      assert dreams[..n][1..] == dreams[1..][..n - 1] && dreams[1..][n - 1] == dreams[n];
      assert LogLines(dreams[1..]) == middle + last;
      Assoc(EntryLines(dreams[0]), middle, last);
    }
  }

  lemma FlatEntry(e: Entry)
    ensures Flat(EntryLines(e)) == Block(e) + "\n\n"
  {
    var a, b, c := Marker(e), TEXT + e.text, TIMESTAMP + e.timestamp;
    assert EntryLines(e) == [a, b, c, ""];
    assert [a, b, c, ""][1..] == [b, c, ""] && [b, c, ""][1..] == [c, ""] && [c, ""][1..] == [""];
    assert Flat([""]) == "\n";
    assert Flat([c, ""]) == c + "\n" + "\n";
    assert Flat([b, c, ""]) == b + "\n" + (c + "\n" + "\n");
    assert a + "\n" + (b + "\n" + (c + "\n" + "\n")) == a + "\n" + b + "\n" + c + "\n\n";
  }

  lemma FlatFirst(dreams: seq<Entry>)
    requires dreams != []
    ensures Flat(LogLines(dreams)) == Block(dreams[0]) + "\n\n" + Flat(LogLines(dreams[1..]))
  {
    LogFirst(dreams);
    FlatAppend(EntryLines(dreams[0]), LogLines(dreams[1..]));
    FlatEntry(dreams[0]);
  }

  lemma {:induction false} FlatLog(dreams: seq<Entry>)
    requires dreams != []
    ensures Flat(LogLines(dreams)) == JoinBlocks(BlocksOf(dreams)) + "\n\n"
  {
    FlatFirst(dreams);
    if |dreams| > 1 {
      FlatLog(dreams[1..]);
      assert BlocksOf(dreams)[1..] == BlocksOf(dreams[1..]);
      JoinFirst(BlocksOf(dreams));
    }
  }

  lemma JoinFirst(blocks: seq<string>)
    requires |blocks| > 1
    ensures JoinBlocks(blocks) + "\n\n" == blocks[0] + "\n\n" + (JoinBlocks(blocks[1..]) + "\n\n")
  {
    Assoc(blocks[0] + "\n\n", JoinBlocks(blocks[1..]), "\n\n");
  }

  lemma {:induction false} JoinedTrimmed(blocks: seq<string>)
    requires blocks != [] && forall k :: 0 <= k < |blocks| ==> Trimmed(blocks[k])
    ensures Trimmed(JoinBlocks(blocks)) && JoinBlocks(blocks)[0] == blocks[0][0]
  {
    if |blocks| > 1 { JoinedTrimmed(blocks[1..]); }
  }

  predicate AllStamped(dreams: seq<Entry>) {
    forall k :: 0 <= k < |dreams| ==> SingleLine(dreams[k].timestamp)
  }

  function DreamBody(dreams: seq<Entry>): string {
    StripNewlines("\n" + Flat(DreamLines(dreams)))
  }

  lemma LogBody(dreams: seq<Entry>)
    requires dreams != [] && AllStamped(dreams)
    ensures DreamBody(dreams) == JoinBlocks(BlocksOf(dreams)) != NO_DREAMS
  {
    var joined := JoinBlocks(BlocksOf(dreams));
    BlocksTrimmed(dreams);
    JoinedTrimmed(BlocksOf(dreams));
    FlatLog(dreams);
    StripAround(joined);
    assert "\n" + (joined + "\n\n") == "\n" + joined + "\n\n";
    assert NO_DREAMS[0] != '[';
  }

  lemma BlocksTrimmed(dreams: seq<Entry>)
    requires AllStamped(dreams)
    ensures forall k :: 0 <= k < |dreams| ==> Trimmed(BlocksOf(dreams)[k]) && BlocksOf(dreams)[k][0] == '['
  {
    forall k | 0 <= k < |dreams| ensures Trimmed(BlocksOf(dreams)[k]) && BlocksOf(dreams)[k][0] == '[' {
      BlockEnds(dreams[k]);
    }
  }

  lemma EmptyBody()
    ensures DreamBody([]) == NO_DREAMS
  {
    assert Flat([NO_DREAMS]) == NO_DREAMS + "\n" by { assert [NO_DREAMS][1..] == []; }
    StripAround(NO_DREAMS);
    assert "\n" + Flat(DreamLines([])) == "\n" + NO_DREAMS + "\n";
  }

  /** The placeholder for an empty log is one block of one line. */
  lemma PlaceholderBlocks()
    ensures InkedBlocks(SplitOn(NO_DREAMS, "\n\n")) == [NO_DREAMS]
  {
    forall i: nat | i < |NO_DREAMS| ensures !IsBreak(NO_DREAMS[i]) { PlaceholderIsSingle(i); }
    SingleNoBlank(NO_DREAMS);
    SplitBlocks([NO_DREAMS]);
    StripNothing(NO_DREAMS);
    assert [NO_DREAMS][..0] == [];
  }

  lemma PlaceholderRejected(count: int)
    requires count != 0
    ensures DreamError(NO_DREAMS, count) == Some(DreamEntryShape(1))
  {
    PlaceholderBlocks();
    forall i: nat | i < |NO_DREAMS| ensures !IsBreak(NO_DREAMS[i]) { PlaceholderIsSingle(i); }
    SingleLines(NO_DREAMS);
    assert BlockError(NO_DREAMS, 1) == Some(DreamEntryShape(1));
    assert [NO_DREAMS][0] == NO_DREAMS;
    assert BlocksError([NO_DREAMS], 0) == Some(DreamEntryShape(1));
    assert DreamError(NO_DREAMS, count) == BlocksError([NO_DREAMS], 0);
  }

  lemma PlaceholderIsSingle(i: nat)
    requires i < |NO_DREAMS|
    ensures !IsBreak(NO_DREAMS[i]) && NO_DREAMS[i] != '#'
  {
  }

  /** The blocks of a log: those of its dreams, one dream after the other. */
  function AllBlocks(printed: seq<string>): seq<string> {
    if printed == [] then [] else OwnBlocks(printed[0]) + AllBlocks(printed[1..])
  }

  lemma {:induction false} BlocksFound(printed: seq<string>)
    requires printed != [] && forall k :: 0 <= k < |printed| ==> Trimmed(printed[k])
    ensures InkedBlocks(SplitOn(JoinBlocks(printed), "\n\n")) == AllBlocks(printed)
  {
    var rest := printed[1..];
    if rest == [] {
      assert AllBlocks(printed) == OwnBlocks(printed[0]);
    } else {
      SplitAcross(printed[0], JoinBlocks(rest));
      InkedAppend(SplitOn(printed[0], "\n\n"), SplitOn(JoinBlocks(rest), "\n\n"));
      BlocksFound(rest);
    }
  }

  lemma {:induction false} SingleBlocks(printed: seq<string>)
    requires forall k :: 0 <= k < |printed| ==> OwnBlocks(printed[k]) == [Strip(printed[k])]
    ensures |AllBlocks(printed)| == |printed|
    ensures forall k :: 0 <= k < |printed| ==> AllBlocks(printed)[k] == Strip(printed[k])
  {
    if printed != [] { SingleBlocks(printed[1..]); }
  }

  lemma LogBlocks(dreams: seq<Entry>)
    requires dreams != [] && AllStamped(dreams)
    ensures InkedBlocks(SplitOn(DreamBody(dreams), "\n\n")) == AllBlocks(BlocksOf(dreams))
    ensures DreamBody(dreams) != NO_DREAMS
  {
    LogBody(dreams);
    BlocksTrimmed(dreams);
    BlocksFound(BlocksOf(dreams));
  }

  lemma BlocksRead(dreams: seq<Entry>)
    requires dreams != [] && forall k :: 0 <= k < |dreams| ==> Loggable(dreams[k])
    ensures var found := InkedBlocks(SplitOn(DreamBody(dreams), "\n\n"));
      |found| == |dreams| && forall k :: 0 <= k < |found| ==> found[k] == Strip(Block(dreams[k]))
    ensures DreamBody(dreams) != NO_DREAMS
  {
    LogBlocks(dreams);
    forall k | 0 <= k < |dreams| ensures OwnBlocks(BlocksOf(dreams)[k]) == [Strip(BlocksOf(dreams)[k])] {
      WholeBlock(dreams[k]);
    }
    SingleBlocks(BlocksOf(dreams));
  }

  /** One after the other, printed dreams read as entries. */
  predicate AllRead(printed: seq<string>, before: nat) {
    EntriesFrom(AllBlocks(printed), before)
  }

  lemma ReadStep(printed: seq<string>, before: nat)
    requires printed != []
    ensures AllRead(printed, before)
       <==> Reads(printed[0], before) && AllRead(printed[1..], before + |OwnBlocks(printed[0])|)
  {
    EntriesAppend(OwnBlocks(printed[0]), AllBlocks(printed[1..]), before);
  }

  predicate LogReads(dreams: seq<Entry>) {
    AllRead(BlocksOf(dreams), 0)
  }

  /** Whatever its texts, a printed log passes exactly if the count fits and its dreams read as entries. */
  lemma LogAccepted(dreams: seq<Entry>, count: int)
    requires AllStamped(dreams)
    ensures DreamError(DreamBody(dreams), count).None? <==> (count == 0 <==> dreams == []) && LogReads(dreams)
  {
    if dreams == [] {
      EmptyBody();
      if count != 0 { PlaceholderRejected(count); }
    } else {
      LogBlocks(dreams);
      AllExactly(AllBlocks(BlocksOf(dreams)));
    }
  }

  lemma AllExactly(blocks: seq<string>)
    ensures BlocksError(blocks, 0).None? <==> EntriesFrom(blocks, 0)
  {
    EntriesExactly(blocks, 0);
    assert blocks[0..] == blocks;
  }

  /** Dream k reads as the entry at its place; only the last may be more than one. */
  predicate At(printed: seq<string>, before: nat, k: nat)
    requires k < |printed|
  {
    Reads(printed[k], before + k) && (k + 1 < |printed| ==> |OwnBlocks(printed[k])| == 1)
  }

  predicate InPlace(printed: seq<string>, before: nat) {
    forall k :: 0 <= k < |printed| ==> At(printed, before, k)
  }

  lemma AtFirst(printed: seq<string>, before: nat)
    requires |printed| > 1
    ensures At(printed, before, 0) <==> Reads(printed[0], before) && |OwnBlocks(printed[0])| == 1
  {
  }

  lemma AtNext(printed: seq<string>, before: nat, k: nat)
    requires 0 < k < |printed|
    ensures At(printed, before, k) <==> At(printed[1..], before + 1, k - 1)
  {
    assert printed[1..][k - 1] == printed[k];
  }

  lemma InPlaceStep(printed: seq<string>, before: nat)
    requires |printed| > 1
    ensures InPlace(printed, before) <==> At(printed, before, 0) && InPlace(printed[1..], before + 1)
  {
    var rest, next := printed[1..], before + 1;
    if InPlace(printed, before) {
      forall k | 0 <= k < |rest| ensures At(rest, next, k) {
        assert At(printed, before, k + 1);
        AtNext(printed, before, k + 1);
      }
    }
    if At(printed, before, 0) && InPlace(rest, before + 1) {
      forall k | 0 <= k < |printed| ensures At(printed, before, k) { if k > 0 { AtNext(printed, before, k); } }
    }
  }

  /** The dream is one entry wherever it and the next one read. */
  ghost predicate OneBefore(printed: string, next: string) {
    forall m: nat :: Reads(printed, m) && Reads(next, m + |OwnBlocks(printed)|) ==> |OwnBlocks(printed)| == 1
  }

  lemma OneAt(printed: string, next: string, m: nat)
    requires OneBefore(printed, next)
    ensures Reads(printed, m) && Reads(next, m + |OwnBlocks(printed)|) ==> |OwnBlocks(printed)| == 1
  {
  }

  lemma SecondReads(printed: seq<string>, before: nat)
    requires |printed| > 1
    ensures AllRead(printed[1..], before) ==> Reads(printed[1], before)
  {
    ReadStep(printed[1..], before);
  }

  lemma MoreFail(printed: seq<string>, before: nat)
    requires |printed| > 1 && OneBefore(printed[0], printed[1]) && |OwnBlocks(printed[0])| != 1
    ensures !(Reads(printed[0], before) && AllRead(printed[1..], before + |OwnBlocks(printed[0])|))
  {
    SecondReads(printed, before + |OwnBlocks(printed[0])|);
    OneAt(printed[0], printed[1], before);
  }

  lemma OneStep(printed: seq<string>, before: nat)
    requires |printed| > 1 && OneBefore(printed[0], printed[1])
    ensures AllRead(printed, before) <==> At(printed, before, 0) && AllRead(printed[1..], before + 1)
  {
    ReadStep(printed, before);
    AtFirst(printed, before);
    if |OwnBlocks(printed[0])| != 1 { MoreFail(printed, before); }
  }

  ghost predicate Linked(printed: seq<string>) {
    forall k :: 0 <= k < |printed| - 1 ==> OneBefore(printed[k], printed[k + 1])
  }

  lemma RestLinked(printed: seq<string>)
    requires |printed| > 1 && Linked(printed)
    ensures OneBefore(printed[0], printed[1]) && Linked(printed[1..])
  {
    var rest := printed[1..];
    assert printed[1] == printed[0 + 1];
    forall k | 0 <= k < |rest| - 1 ensures OneBefore(rest[k], rest[k + 1]) {
      assert rest[k] == printed[k + 1] && rest[k + 1] == printed[k + 1 + 1];
    }
  }

  lemma {:induction false} ReadInPlace(printed: seq<string>, before: nat)
    requires Linked(printed)
    ensures AllRead(printed, before) <==> InPlace(printed, before)
  {
    if |printed| > 1 {
      RestLinked(printed);
      OneStep(printed, before);
      ReadInPlace(printed[1..], before + 1);
      InPlaceStep(printed, before);
    } else if printed != [] {
      assert AllBlocks(printed) == OwnBlocks(printed[0]);
      assert InPlace(printed, before) <==> At(printed, before, 0);
    }
  }

  predicate AllTelling(dreams: seq<Entry>) {
    forall k :: 0 <= k < |dreams| ==> Telling(dreams[k].text)
  }

  predicate Numbered(dreams: seq<Entry>) {
    forall k :: 0 <= k < |dreams| ==> Passes(dreams[k], k + 1)
  }

  lemma TellingLinked(dreams: seq<Entry>)
    requires AllTelling(dreams) && AllStamped(dreams)
    ensures Linked(BlocksOf(dreams))
  {
    forall k, m: nat | 0 <= k < |dreams| ensures Reads(BlocksOf(dreams)[k], m) ==> |OwnBlocks(BlocksOf(dreams)[k])| == 1 {
      TellingReads(dreams[k], m);
    }
  }

  lemma TellingAt(dreams: seq<Entry>, k: nat)
    requires AllTelling(dreams) && AllStamped(dreams) && k < |dreams|
    ensures At(BlocksOf(dreams), 0, k) <==> Passes(dreams[k], k + 1)
  {
    TellingReads(dreams[k], k);
  }

  /** Unless a text has both a blank line and a timestamp line, the dreams read exactly if each passes as one entry. */
  lemma TellingLog(dreams: seq<Entry>)
    requires AllTelling(dreams) && AllStamped(dreams)
    ensures LogReads(dreams) <==> Numbered(dreams)
  {
    TellingLinked(dreams);
    ReadInPlace(BlocksOf(dreams), 0);
    forall k | 0 <= k < |dreams| ensures At(BlocksOf(dreams), 0, k) <==> Passes(dreams[k], k + 1) {
      TellingAt(dreams, k);
    }
  }

  predicate InSequence(dreams: seq<Entry>) {
    forall k :: 0 <= k < |dreams| ==> dreams[k].index == k + 1
  }

  lemma ReadsHasIndex(e: Entry, before: nat)
    requires SingleLine(e.timestamp)
    ensures Reads(Block(e), before) ==> e.index == before + 1
  {
    var _ := FirstOwnBlock(e);
    MarkerMatches(e, before + 1);
    if Reads(Block(e), before) { assert IsEntry(OwnBlocks(Block(e))[0], before + 0 + 1); }
  }

  lemma OneEntryPasses(e: Entry, before: nat)
    requires SingleLine(e.timestamp)
    ensures Reads(Block(e), before) && |OwnBlocks(Block(e))| == 1 <==> Passes(e, before + 1)
  {
    OwnCount(e);
    PassingIsWhole(e, before);
  }

  lemma SequenceLinked(dreams: seq<Entry>)
    requires AllStamped(dreams) && InSequence(dreams)
    ensures Linked(BlocksOf(dreams))
  {
    forall k, m: nat | 0 <= k < |dreams| ensures Reads(BlocksOf(dreams)[k], m) ==> m == k {
      ReadsHasIndex(dreams[k], m);
    }
  }

  lemma SequenceAt(dreams: seq<Entry>, k: nat)
    requires AllStamped(dreams) && k + 1 < |dreams|
    ensures At(BlocksOf(dreams), 0, k) <==> Passes(dreams[k], k + 1)
  {
    OneEntryPasses(dreams[k], k);
  }

  predicate NumberedBut(dreams: seq<Entry>, n: nat)
    requires n <= |dreams|
  {
    forall k :: 0 <= k < n ==> Passes(dreams[k], k + 1)
  }

  /** Whatever the texts, in dreams numbered in sequence all but the last must pass as one entry each. */
  lemma SequenceLog(dreams: seq<Entry>)
    requires dreams != [] && AllStamped(dreams) && InSequence(dreams)
    ensures var n := |dreams| - 1;
      LogReads(dreams) <==> NumberedBut(dreams, n) && Reads(Block(dreams[n]), n)
  {
    var n, printed := |dreams| - 1, BlocksOf(dreams);
    SequenceLinked(dreams);
    ReadInPlace(printed, 0);
    forall k | 0 <= k < n ensures At(printed, 0, k) <==> Passes(dreams[k], k + 1) { SequenceAt(dreams, k); }
    assert At(printed, 0, n) <==> Reads(Block(dreams[n]), n);
  }

  // ---------------------------------------------------------------- a text that imitates an entry

  /** One dream's text that reads as two dreams, with what is printed around it. */
  function Forged(a: string, at: string, next: int, b: string): string {
    (a + "\n" + (TIMESTAMP + at)) + "\n\n" + ((MARKER + Signed(next) + "]") + "\n" + (TEXT + b))
  }

  lemma Regroup(m: string, t: string, x: string, blank: string, y: string, nl: string, last: string)
    ensures m + (t + (x + blank + y)) + nl + last == m + (t + x) + blank + (y + nl + last)
  {
    Assoc(x, blank, y);
    Assoc(t, x, blank + y);
    Assoc(m, t + x, blank + y);
    var p := m + (t + x);
    Assoc(p, blank, y);
    Assoc(p + blank, y, nl);
    Assoc(p + blank, y + nl, last);
  }

  lemma ForgedBlock(index: int, a: string, at: string, b: string, timestamp: string)
    ensures Block(Entry(index, Forged(a, at, index + 1, b), timestamp))
         == Block(Entry(index, a, at)) + "\n\n" + Block(Entry(index + 1, b, timestamp))
  {
    var m, stamp := Marker(Entry(index, a, at)) + "\n", TIMESTAMP + at;
    var y := Marker(Entry(index + 1, b, timestamp)) + "\n" + (TEXT + b);
    Regroup(m, TEXT, a + "\n" + stamp, "\n\n", y, "\n", TIMESTAMP + timestamp);
    Regroup(m, TEXT, a, "\n", stamp, "", "");
    assert m + (TEXT + (a + "\n" + stamp)) == m + (TEXT + a) + "\n" + stamp;
  }

  /** By itself it reads as the two entries it imitates. */
  lemma ForgedReads(index: nat, a: string, at: string, b: string, timestamp: string)
    requires index > 0 && OneLine(a) && OneLine(b)
    requires SingleLine(at) && HasInk(at) && SingleLine(timestamp) && HasInk(timestamp)
    ensures Reads(Block(Entry(index, Forged(a, at, index + 1, b), timestamp)), index - 1)
  {
    var x, y := Entry(index, a, at), Entry(index + 1, b, timestamp);
    ForgedBlock(index, a, at, b, timestamp);
    PassTogether(x, y, index - 1);
  }

  lemma PassTogether(x: Entry, y: Entry, before: nat)
    requires SingleLine(x.timestamp) && SingleLine(y.timestamp) && Passes(x, before + 1) && Passes(y, before + 2)
    ensures Reads(Block(x) + "\n\n" + Block(y), before)
  {
    OneEntryPasses(x, before);
    OneEntryPasses(y, before + 1);
    BlockEnds(x);
    ReadTogether(Block(x), Block(y), before);
  }

  lemma ReadTogether(x: string, y: string, before: nat)
    requires x != "" && x[|x| - 1] != '\n' && |OwnBlocks(x)| == 1 && Reads(x, before) && Reads(y, before + 1)
    ensures Reads(x + "\n\n" + y, before)
  {
    SplitAcross(x, y);
    InkedAppend(SplitOn(x, "\n\n"), SplitOn(y, "\n\n"));
    EntriesAppend(OwnBlocks(x), OwnBlocks(y), before);
  }

  /** The forged dream leaves the same log as the two dreams it imitates. */
  lemma ForgedLog(before: seq<Entry>, index: int, a: string, at: string, b: string, timestamp: string)
    ensures var forged := Entry(index, Forged(a, at, index + 1, b), timestamp);
      Flat(LogLines(before + [forged]))
        == Flat(LogLines(before + [Entry(index, a, at), Entry(index + 1, b, timestamp)]))
  {
    ForgedBlock(index, a, at, b, timestamp);
    var forged := Entry(index, Forged(a, at, index + 1, b), timestamp);
    var x, y := Entry(index, a, at), Entry(index + 1, b, timestamp);
    LastEntry(before, forged);
    LastEntry(before, x);
    LastEntry(before + [x], y);
    Assoc(before, [x], [y]);
    assert [x] + [y] == [x, y];
    Regrouped(Flat(LogLines(before)), Block(x), "\n\n", Block(y));
  }

  lemma Regrouped(s: string, x: string, blank: string, y: string)
    ensures s + (x + blank + y + blank) == s + (x + blank) + (y + blank)
  {
    Assoc(x + blank, y, blank);
    Assoc(s, x + blank, y + blank);
  }

  lemma LastEntry(before: seq<Entry>, e: Entry)
    ensures Flat(LogLines(before + [e])) == Flat(LogLines(before)) + (Block(e) + "\n\n")
  {
    assert (before + [e])[..|before|] == before;
    FlatAppend(LogLines(before), EntryLines(e));
    FlatEntry(e);
  }

  /** It is not one line, and it is telling of neither kind. */
  lemma ForgedIsNotOneLine(a: string, at: string, next: int, b: string)
    ensures !OneLine(Forged(a, at, next, b)) && !Telling(Forged(a, at, next, b))
  {
    var stamp, y := TIMESTAMP + at, (MARKER + Signed(next) + "]") + "\n" + (TEXT + b);
    BrokenText(a, stamp, y);
  }

  lemma BrokenText(a: string, stamp: string, y: string)
    requires TIMESTAMP <= stamp
    ensures var s := (a + "\n" + stamp) + "\n\n" + y; !OneLine(s) && !Telling(s)
  {
    var x := a + "\n" + stamp;
    var s := x + "\n\n" + y;
    assert s[|a|] == x[|a|] == '\n' && IsBreak(s[..|s| - 1][|a|]);
    var i := |a| + 1;
    assert x[i..] == stamp && s[i..] == stamp + ("\n\n" + y);
    assert s[i..][..|TIMESTAMP|] == stamp[..|TIMESTAMP|];
    assert StartsWith(s[i..], TIMESTAMP);
    var t := s + "\n";
    assert t[|x|] == s[|x|] == '\n' && t[|x| + 1] == s[|x| + 1] == '\n';
  }
}
