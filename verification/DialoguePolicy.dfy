/** services/dialogue_policy: from the text of a message and the session state to a route. */
module DialoguePolicy {
  import opened Text

  datatype InputType = Plain | ShortFragment | LongText | ContinuationSignal

  datatype SessionState = NewSession | ActiveSession | IdleSession | ClosedSession | ResumedSession

  datatype Route = NewDream | DialogueTurn | Clarification | Safety | Noop

  datatype SessionAction = NoAction | StartNew | ContinueSession

  datatype Reason =
    | CrisisSignal | EmptyInput | ShortWithoutContext | Continuation | LongInNewOrClosed | ActiveNewDream
    | ActiveShortFollowUp | ActiveDialogue | InsufficientTokens | DefaultNewDream

  datatype PolicyInput = PolicyInput(
    length: nat, tokens: nat, inputType: InputType, state: SessionState, isEmpty: bool, crisis: bool)

  datatype Decision = Decision(route: Route, action: SessionAction, reason: Reason)

  // str.lower and the crisis patterns, which the model does not look into.
  datatype Signals = Signals(lower: string -> string, crisis: string -> bool)

  const MIN_TOKENS_FOR_DREAM := 8

  const CONTINUATION_PREFIXES: seq<string> := [
    "в продолжение", "добавлю", "дополню", "дополнил", "продолжу", "продолжение", "ещё", "еще", "и ещё", "и еще"]

  // ---------------------------------------------------------------- words

  predicate IsWord(s: string) {
    s != "" && forall i :: 0 <= i < |s| ==> !IsSpace(s[i])
  }

  function WordEnd(s: string): (n: nat)
    ensures n <= |s| && (n < |s| ==> IsSpace(s[n])) && (s != "" && !IsSpace(s[0]) ==> n > 0)
    ensures forall i :: 0 <= i < n ==> !IsSpace(s[i])
  {
    if s == "" || IsSpace(s[0]) then 0 else WordEnd(s[1..]) + 1
  }

  /** str.split() */
  function Words(s: string): (r: seq<string>)
    ensures forall i :: 0 <= i < |r| ==> IsWord(r[i])
    decreases |s|
  {
    if s == "" then []
    else if IsSpace(s[0]) then Words(s[1..])
    else [s[..WordEnd(s)]] + Words(s[WordEnd(s)..])
  }

  lemma WordEndIs(word: string, rest: string)
    requires IsWord(word) && (rest == "" || IsSpace(rest[0]))
    ensures WordEnd(word + rest) == |word|
  {
    var s := word + rest;
    forall i | 0 <= i < |word| ensures !IsSpace(s[i]) { assert s[i] == word[i]; }
    assert rest != "" ==> s[|word|] == rest[0];
  }

  lemma FirstWord(word: string, rest: string)
    requires IsWord(word) && (rest == "" || IsSpace(rest[0]))
    ensures Words(word + rest) == [word] + Words(rest)
  {
    var s := word + rest;
    WordEndIs(word, rest);
    assert s[0] == word[0] && s[..|word|] == word && s[|word|..] == rest;
  }

  /** Words joined by single spaces are split into the same words. */
  lemma {:induction false} WordsOfSpaced(words: seq<string>)
    requires forall i :: 0 <= i < |words| ==> IsWord(words[i])
    ensures Words(Spaced(words)) == words
  {
    if |words| == 1 {
      FirstWord(words[0], "");
      assert words[0] + "" == words[0];
    } else if |words| > 1 {
      var rest := " " + Spaced(words[1..]);
      FirstWord(words[0], rest);
      assert words[0] + rest == Spaced(words) && rest[1..] == Spaced(words[1..]);
      WordsOfSpaced(words[1..]);
    }
  }

  lemma SpacedEmpty(words: seq<string>)
    requires forall i :: 0 <= i < |words| ==> IsWord(words[i])
    ensures Spaced(words) == "" <==> words == []
  {
    if words != [] { assert IsWord(words[0]); }
  }

  lemma {:induction false} WordsOfLStrip(s: string)
    ensures Words(LStrip(s)) == Words(s)
  {
    if s != "" && IsSpace(s[0]) { WordsOfLStrip(s[1..]); }
  }

  lemma {:induction false} WordsBeforeSpaces(s: string, spaces: string)
    requires forall i :: 0 <= i < |spaces| ==> IsSpace(spaces[i])
    ensures Words(s + spaces) == Words(s)
    decreases |s| + |spaces|
  {
    var all := s + spaces;
    if s == "" {
      assert all == spaces;
      if spaces != "" {
        assert spaces[1..] == "" + spaces[1..];
        WordsBeforeSpaces("", spaces[1..]);
      }
    } else if IsSpace(s[0]) {
      assert all[1..] == s[1..] + spaces;
      WordsBeforeSpaces(s[1..], spaces);
    } else {
      var n := WordEnd(s);
      var word, rest := s[..n], s[n..] + spaces;
      assert all == word + rest && s == word + s[n..];
      assert rest != "" ==> rest[0] == if n < |s| then s[n] else spaces[0];
      FirstWord(word, rest);
      FirstWord(word, s[n..]);
      WordsBeforeSpaces(s[n..], spaces);
    }
  }

  lemma WordsOfStrip(s: string)
    ensures Words(Strip(s)) == Words(s)
  {
    var t := LStrip(s);
    var r := RStrip(t);
    WordsOfLStrip(s);
    assert t == r + t[|r|..];
    WordsBeforeSpaces(r, t[|r|..]);
  }

  // ---------------------------------------------------------------- classification

  function Normalized(text: string): string {
    Spaced(Words(text))
  }

  predicate Continues(s: Signals, text: string) {
    var normalized := Normalized(s.lower(Strip(text)));
    exists i :: 0 <= i < |CONTINUATION_PREFIXES|
      && |CONTINUATION_PREFIXES[i]| <= |normalized|
      && normalized[..|CONTINUATION_PREFIXES[i]|] == CONTINUATION_PREFIXES[i]
  }

  function TokenCount(normalized: string): nat {
    if normalized != "" then |Words(normalized)| else 0
  }

  function ClassifyInputType(s: Signals, text: string): InputType {
    var normalized := Normalized(s.lower(Strip(text)));
    var tokens := TokenCount(normalized);
    if Continues(s, text) then ContinuationSignal
    else if tokens <= 3 then ShortFragment
    else if tokens >= 6 || |normalized| >= 40 then LongText
    else Plain
  }

  function BuildPolicyInput(s: Signals, text: string, state: SessionState): PolicyInput {
    var normalized := Normalized(text);
    PolicyInput(|normalized|, TokenCount(normalized), ClassifyInputType(s, text), state, normalized == "", s.crisis(text))
  }

  function Decide(p: PolicyInput): Decision {
    if p.crisis then Decision(Safety, NoAction, CrisisSignal)
    else if p.isEmpty || p.length <= 0 then Decision(Noop, NoAction, EmptyInput)
    else if p.state in {NewSession, IdleSession, ClosedSession} && p.inputType == ShortFragment
            && p.tokens < MIN_TOKENS_FOR_DREAM then Decision(Clarification, NoAction, ShortWithoutContext)
    else if p.inputType == ContinuationSignal then Decision(DialogueTurn, ContinueSession, Continuation)
    else if p.state in {NewSession, ClosedSession} && p.inputType == LongText
            && p.tokens >= MIN_TOKENS_FOR_DREAM then Decision(NewDream, StartNew, LongInNewOrClosed)
    else if p.state in {ActiveSession, ResumedSession} && p.tokens >= MIN_TOKENS_FOR_DREAM
            && p.inputType == LongText then Decision(NewDream, ContinueSession, ActiveNewDream)
    else if p.state in {ActiveSession, ResumedSession} then
      if p.tokens < MIN_TOKENS_FOR_DREAM then Decision(DialogueTurn, ContinueSession, ActiveShortFollowUp)
      else Decision(DialogueTurn, ContinueSession, ActiveDialogue)
    else if p.tokens < MIN_TOKENS_FOR_DREAM then Decision(Clarification, NoAction, InsufficientTokens)
    else Decision(NewDream, StartNew, DefaultNewDream)
  }

  function Evaluate(s: Signals, text: string, state: SessionState): Decision {
    Decide(BuildPolicyInput(s, text, state))
  }

  // ---------------------------------------------------------------- what the two stages amount to

  /** Lower-casing moves no white space. */
  ghost predicate KeepsWords(lower: string -> string) {
    forall text :: |Words(lower(text))| == |Words(text)|
  }

  lemma TokensAreWords(text: string)
    ensures TokenCount(Normalized(text)) == |Words(text)|
    ensures Normalized(text) == "" <==> Words(text) == []
  {
    WordsOfSpaced(Words(text));
    SpacedEmpty(Words(text));
  }

  /** The second count of tokens, taken on the stripped and lower-cased text, agrees with the first. */
  lemma BothCountsAgree(s: Signals, text: string)
    requires KeepsWords(s.lower)
    ensures TokenCount(Normalized(s.lower(Strip(text)))) == |Words(text)|
  {
    TokensAreWords(s.lower(Strip(text)));
    WordsOfStrip(text);
  }

  /** The words of a message that decide, apart from a crisis signal, whether it is a dream. */
  predicate IsDreamText(s: Signals, text: string) {
    !s.crisis(text) && !Continues(s, text) && |Words(text)| >= MIN_TOKENS_FOR_DREAM
  }

  predicate InContext(state: SessionState) {
    state.ActiveSession? || state.ResumedSession?
  }

  /** What the router guarantees of a policy input for a text of n words. */
  predicate Classified(p: PolicyInput, continues: bool, n: nat) {
    && p.tokens == n && p.isEmpty == (n == 0) && (p.length == 0 <==> n == 0)
    && (p.inputType == ContinuationSignal <==> continues)
    && (!continues ==> (p.inputType == ShortFragment <==> n <= 3))
    && (!continues && n >= 6 ==> p.inputType == LongText)
  }

  lemma BuiltIsClassified(s: Signals, text: string, state: SessionState)
    requires KeepsWords(s.lower)
    ensures Classified(BuildPolicyInput(s, text, state), Continues(s, text), |Words(text)|)
  {
    TokensAreWords(text);
    BothCountsAgree(s, text);
  }

  lemma DecisionIs(p: PolicyInput, continues: bool, n: nat)
    requires Classified(p, continues, n)
    ensures var route := Decide(p).route;
      && (route == Safety <==> p.crisis)
      && (route == Noop <==> !p.crisis && n == 0)
      && (route == NewDream <==> !p.crisis && !continues && n >= MIN_TOKENS_FOR_DREAM)
      && (route == Clarification <==>
            !p.crisis && !continues && 0 < n < MIN_TOKENS_FOR_DREAM && !InContext(p.state))
      && (route == DialogueTurn <==>
            !p.crisis && n > 0 && (continues || (n < MIN_TOKENS_FOR_DREAM && InContext(p.state))))
  {
  }

  /** The cascade of the engine over the classes of the router, route by route. */
  lemma RoutesAre(s: Signals, text: string, state: SessionState)
    requires KeepsWords(s.lower)
    ensures var route, n := Evaluate(s, text, state).route, |Words(text)|;
      && (route == Safety <==> s.crisis(text))
      && (route == Noop <==> !s.crisis(text) && n == 0)
      && (route == NewDream <==> IsDreamText(s, text))
      && (route == Clarification <==>
            !s.crisis(text) && !Continues(s, text) && 0 < n < MIN_TOKENS_FOR_DREAM && !InContext(state))
      && (route == DialogueTurn <==>
            !s.crisis(text) && n > 0 && (Continues(s, text) || (n < MIN_TOKENS_FOR_DREAM && InContext(state))))
  {
    BuiltIsClassified(s, text, state);
    DecisionIs(BuildPolicyInput(s, text, state), Continues(s, text), |Words(text)|);
  }

  /** The engine's decision for a message: its crisis signal, its words, whether it continues, and the session state. */
  function Decided(crisis: bool, n: nat, continues: bool, state: SessionState): Decision {
    if crisis then Decision(Safety, NoAction, CrisisSignal)
    else if n == 0 then Decision(Noop, NoAction, EmptyInput)
    else if continues then Decision(DialogueTurn, ContinueSession, Continuation)
    else if n >= 8 && InContext(state) then Decision(NewDream, ContinueSession, ActiveNewDream)
    else if n >= 8 && state == IdleSession then Decision(NewDream, StartNew, DefaultNewDream)
    else if n >= 8 then Decision(NewDream, StartNew, LongInNewOrClosed)
    else if InContext(state) then Decision(DialogueTurn, ContinueSession, ActiveShortFollowUp)
    else if n <= 3 then Decision(Clarification, NoAction, ShortWithoutContext)
    else Decision(Clarification, NoAction, InsufficientTokens)
  }

  lemma DecidedFor(p: PolicyInput, continues: bool, n: nat)
    requires Classified(p, continues, n)
    ensures Decide(p) == Decided(p.crisis, n, continues, p.state)
  {
  }

  /** The cascade over the router's classes comes to this table: route, session action and reason. */
  lemma DecisionsAre(s: Signals, text: string, state: SessionState)
    requires KeepsWords(s.lower)
    ensures Evaluate(s, text, state) == Decided(s.crisis(text), |Words(text)|, Continues(s, text), state)
  {
    BuiltIsClassified(s, text, state);
    DecidedFor(BuildPolicyInput(s, text, state), Continues(s, text), |Words(text)|);
  }

  /** One branch of the engine is never reached through the router, and one only in an idle session. */
  lemma UnusedReasons(s: Signals, text: string, state: SessionState)
    requires KeepsWords(s.lower)
    ensures Evaluate(s, text, state).reason != ActiveDialogue
    ensures Evaluate(s, text, state).reason == DefaultNewDream ==> state == IdleSession
  {
    TokensAreWords(text);
    BothCountsAgree(s, text);
  }
}
