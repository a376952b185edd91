/** Conservation over whole runs of messages. */
module IngressRuns {
  import opened Base
  import opened Text
  import opened DialoguePolicy
  import opened Ingress
  import JobService

  /** The tables after the messages, handled one after the other on an empty database. */
  function Run(messages: seq<Message>, s: Settings): Tables {
    if messages == [] then Tables([], [], [], [], [])
    else Ingested(Run(messages[..|messages| - 1], s), messages[|messages| - 1], s)
  }

  /** The messages whose transaction committed. */
  function Committed(messages: seq<Message>, s: Settings): seq<Message> {
    if messages == [] then []
    else
      var n := |messages| - 1;
      var before := Committed(messages[..n], s);
      if Commits(Run(messages[..n], s), messages[n], s) then before + [messages[n]] else before
  }

  /** A message that is a dream, whatever the state of the session. */
  predicate IsDream(m: Message, s: Settings) {
    IsDreamText(s.signals, m.text)
  }

  /** A message that is answered: it has a word or a crisis signal. */
  predicate IsAnswered(m: Message, s: Settings) {
    s.signals.crisis(m.text) || Words(m.text) != []
  }

  /** When the transaction of the user's last message among these began. */
  function LastBegun(messages: seq<Message>, user: UserId): Option<Time> {
    if messages == [] then None
    else
      var last := messages[|messages| - 1];
      if last.user == user then Some(last.begun) else LastBegun(messages[..|messages| - 1], user)
  }

  /** The kind of the turns on an answered message, of a user already known or not. */
  function KindOf(m: Message, s: Settings, known: bool): Route {
    if s.signals.crisis(m.text) then Safety
    else if IsDream(m, s) then NewDream
    else if IsUnclear(m, s) && !known then Clarification
    else DialogueTurn
  }

  function DreamsIn(messages: seq<Message>, s: Settings): seq<Message> {
    if messages == [] then []
    else
      var n := |messages| - 1;
      DreamsIn(messages[..n], s) + if IsDream(messages[n], s) then [messages[n]] else []
  }

  function AnsweredIn(messages: seq<Message>, s: Settings): seq<Message> {
    if messages == [] then []
    else
      var n := |messages| - 1;
      AnsweredIn(messages[..n], s) + if IsAnswered(messages[n], s) then [messages[n]] else []
  }

  // ---------------------------------------------------------------- what is conserved

  predicate OneActive(sessions: seq<Session>) {
    forall i, j :: 0 <= i < j < |sessions| && sessions[i].active && sessions[j].active ==>
      sessions[i].user != sessions[j].user
  }

  predicate Owned(sessions: seq<Session>, id: SessionId, user: UserId) {
    id < |sessions| && sessions[id].user == user
  }

  /** Dream i is the i-th committed dream message, and job i is its job. */
  predicate DreamsMatch(t: Tables, dreams: seq<Message>) {
    && |t.dreams| == |t.jobs| == |dreams|
    && forall i :: 0 <= i < |dreams| ==>
         && t.dreams[i].user == dreams[i].user && t.dreams[i].text == dreams[i].text
         && t.jobs[i].id == i && t.jobs[i].dream == Some(i) && t.jobs[i].session == t.dreams[i].session
         && t.jobs[i].status == JobService.Queued && t.jobs[i].attempts == 0 && t.jobs[i].mode == Auto
         && t.jobs[i].createdAt == t.jobs[i].availableAfter == dreams[i].later
         && Owned(t.sessions, t.dreams[i].session, t.dreams[i].user)
  }

  /** Turns 2k and 2k + 1 are the exchange on the k-th answered message; a dream's turns carry its key. */
  predicate IsExchange(t: Tables, k: nat, m: Message, before: seq<Message>, s: Settings)
    requires 2 * k + 1 < |t.turns|
  {
    var asked, answered := t.turns[2 * k], t.turns[2 * k + 1];
    && asked.role == User && asked.text == m.text && asked.user == m.user
    && answered == asked.(role := Assistant, text := answered.text)
    && Owned(t.sessions, asked.session, m.user)
    && asked.dream == (if IsDream(m, s) then Some(|DreamsIn(before, s)|) else None)
    && asked.kind == KindOf(m, s, LastBegun(before, m.user).Some?)
    && Answers(answered.text, m, s, LastBegun(before, m.user).Some?)
  }

  predicate TurnsMatch(t: Tables, answered: seq<Message>, s: Settings) {
    && |t.turns| == 2 * |answered|
    && forall k :: 0 <= k < |answered| ==> IsExchange(t, k, answered[k], answered[..k], s)
  }

  /** What the policy decides about a message of a user already known or not. */
  function DecisionOn(m: Message, s: Settings, known: bool): Decision {
    Decided(s.signals.crisis(m.text), |Words(m.text)|, Continues(s.signals, m.text),
            if known then ActiveSession else NewSession)
  }

  /** A trace holds the decision; that of an answered message names the session, dream and job of its exchange, any other
      names none. */
  predicate IsTrace(r: Trace, turns: seq<Turn>, m: Message, before: seq<Message>, s: Settings) {
    && r.user == m.user && r.decision == DecisionOn(m, s, LastBegun(before, m.user).Some?)
    && if IsAnswered(m, s) then
         && 2 * |before| < |turns|
         && var asked := turns[2 * |before|];
            r.session == Some(asked.session) && r.dream == asked.dream && r.job == asked.dream && r.decision.route == asked.kind
       else r.session == None && r.dream == None && r.job == None && r.decision.route == Noop
  }

  predicate TracesMatch(t: Tables, committed: seq<Message>, s: Settings) {
    && |t.traces| == |committed|
    && forall k :: 0 <= k < |committed| ==>
         IsTrace(t.traces[k], t.turns, committed[k], AnsweredIn(committed[..k], s), s)
  }

  /** A user has an active session exactly from the first answered message on, last active when the last one began. */
  predicate Attends(sessions: seq<Session>, answered: seq<Message>, user: UserId) {
    var active, last := RawActive(sessions, user), LastBegun(answered, user);
    && (active.Some? <==> last.Some?)
    && (active.Some? ==> sessions[active.value].lastActivity == last.value)
  }

  ghost predicate SessionsMatch(sessions: seq<Session>, answered: seq<Message>) {
    forall user :: Attends(sessions, answered, user)
  }

  ghost predicate Conserved(t: Tables, committed: seq<Message>, s: Settings) {
    && OneActive(t.sessions)
    && SessionsMatch(t.sessions, AnsweredIn(committed, s))
    && DreamsMatch(t, DreamsIn(committed, s))
    && TurnsMatch(t, AnsweredIn(committed, s), s)
    && TracesMatch(t, committed, s)
  }

  // ---------------------------------------------------------------- one message

  lemma GetOrCreateKeepsOne(sessions: seq<Session>, user: UserId, begun: Time, now: Time)
    requires OneActive(sessions)
    ensures OneActive(GetOrCreate(sessions, user, begun, now).0)
  {
    var found := RawActive(sessions, user);
    if found.Some? {
      forall i | 0 <= i < |sessions| && i != found.value ensures !(sessions[i].active && sessions[i].user == user) { }
    }
  }

  lemma TouchKeepsOne(sessions: seq<Session>, id: SessionId, begun: Time)
    requires id < |sessions| && OneActive(sessions)
    ensures OneActive(Touched(sessions, id, begun))
  {
    var after := Touched(sessions, id, begun);
    forall i, j | 0 <= i < j < |after| && after[i].active && after[j].active ensures after[i].user != after[j].user {
      assert sessions[i].active && sessions[j].active;
    }
  }

  /** Sessions are never removed and never change hands. */
  predicate Grown(before: seq<Session>, after: seq<Session>) {
    |before| <= |after| && forall i :: 0 <= i < |before| ==> after[i].user == before[i].user
  }

  lemma ExchangesStay(t: Tables, u: Tables, answered: seq<Message>, s: Settings)
    requires TurnsMatch(t, answered, s) && Grown(t.sessions, u.sessions) && t.turns <= u.turns
    ensures forall k :: 0 <= k < |answered| ==> IsExchange(u, k, answered[k], answered[..k], s)
  {
    forall k | 0 <= k < |answered| ensures IsExchange(u, k, answered[k], answered[..k], s) {
      assert IsExchange(t, k, answered[k], answered[..k], s);
      assert u.turns[2 * k] == t.turns[2 * k] && u.turns[2 * k + 1] == t.turns[2 * k + 1];
    }
  }

  lemma NewExchange(t: Tables, u: Tables, answered: seq<Message>, m: Message, s: Settings, id: SessionId, kind: Route,
                    dream: Option<DreamId>, reply: string)
    requires |t.turns| == 2 * |answered| && u.turns == t.turns + Exchange(m, id, kind, dream, reply)
    requires Owned(u.sessions, id, m.user) && RightExchange(m, answered, s, kind, dream, reply)
    ensures IsExchange(u, |answered|, m, answered, s)
  {
    var n := |answered|;
    assert u.turns[2 * n] == Exchange(m, id, kind, dream, reply)[0];
    assert u.turns[2 * n + 1] == Exchange(m, id, kind, dream, reply)[1];
  }

  /** Kind, dream and reply of an exchange are what the messages before and the user's history ask for. */
  predicate RightExchange(m: Message, before: seq<Message>, s: Settings, kind: Route, dream: Option<DreamId>, reply: string) {
    && dream == (if IsDream(m, s) then Some(|DreamsIn(before, s)|) else None)
    && kind == KindOf(m, s, LastBegun(before, m.user).Some?)
    && Answers(reply, m, s, LastBegun(before, m.user).Some?)
  }

  /** A further exchange extends the correspondence of turns and messages. */
  lemma ExchangeAdded(t: Tables, u: Tables, answered: seq<Message>, m: Message, s: Settings, id: SessionId, kind: Route,
                      dream: Option<DreamId>, reply: string)
    requires TurnsMatch(t, answered, s) && Grown(t.sessions, u.sessions)
    requires u.turns == t.turns + Exchange(m, id, kind, dream, reply)
    requires Owned(u.sessions, id, m.user) && RightExchange(m, answered, s, kind, dream, reply)
    ensures TurnsMatch(u, answered + [m], s)
  {
    ExchangesStay(t, u, answered, s);
    NewExchange(t, u, answered, m, s, id, kind, dream, reply);
    var more := answered + [m];
    assert |u.turns| == 2 * |more|;
    forall k | 0 <= k < |more| ensures IsExchange(u, k, more[k], more[..k], s) {
      if k < |answered| {
        assert more[..k] == answered[..k] && more[k] == answered[k];
      } else {
        assert more[..k] == answered && more[k] == m;
      }
    }
  }

  // ---------------------------------------------------------------- sessions of users

  /** Only sessions of this user are changed or added. */
  predicate OnlyUser(before: seq<Session>, after: seq<Session>, user: UserId) {
    && |before| <= |after|
    && (forall i :: 0 <= i < |before| ==> after[i].user == before[i].user)
    && (forall i :: 0 <= i < |before| && before[i].user != user ==> after[i] == before[i])
    && (forall i :: |before| <= i < |after| ==> after[i].user == user)
  }

  lemma OnlyUserTwice(a: seq<Session>, b: seq<Session>, c: seq<Session>, user: UserId)
    requires OnlyUser(a, b, user) && OnlyUser(b, c, user)
    ensures OnlyUser(a, c, user)
  {
  }

  lemma GetOrCreateOnlyUser(sessions: seq<Session>, user: UserId, begun: Time, now: Time)
    ensures OnlyUser(sessions, GetOrCreate(sessions, user, begun, now).0, user)
  {
  }

  lemma TouchOnlyUser(sessions: seq<Session>, id: SessionId, begun: Time)
    requires id < |sessions|
    ensures OnlyUser(sessions, Touched(sessions, id, begun), sessions[id].user)
    ensures Touched(sessions, id, begun)[id] == sessions[id].(lastActivity := begun)
  {
  }

  /** Other users' active sessions are not affected. */
  lemma OtherUserAttends(before: seq<Session>, after: seq<Session>, answered: seq<Message>, m: Message, user: UserId)
    requires OneActive(before) && OneActive(after) && OnlyUser(before, after, m.user) && user != m.user
    requires Attends(before, answered, user)
    ensures Attends(after, answered + [m], user)
  {
    assert (answered + [m])[..|answered|] == answered;
    var found, again := RawActive(before, user), RawActive(after, user);
    if found.Some? { RawActiveIs(after, found.value); }
    if again.Some? { assert before[again.value] == after[again.value]; }
  }

  /** The session just touched is its user's active one, last active when the message began. */
  lemma TouchedAttends(before: seq<Session>, after: seq<Session>, answered: seq<Message>, m: Message, id: SessionId)
    requires OneActive(before) && OneActive(after) && OnlyUser(before, after, m.user) && SessionsMatch(before, answered)
    requires id < |after| && after[id].user == m.user && after[id].active && after[id].lastActivity == m.begun
    ensures SessionsMatch(after, answered + [m])
  {
    forall user ensures Attends(after, answered + [m], user) {
      assert Attends(before, answered, user);
      if user == m.user { RawActiveIs(after, id); } else { OtherUserAttends(before, after, answered, m, user); }
    }
  }

  lemma {:induction false} RawActiveIs(sessions: seq<Session>, id: SessionId)
    requires OneActive(sessions) && id < |sessions| && sessions[id].active
    ensures RawActive(sessions, sessions[id].user) == Some(id)
  {
    var user := sessions[id].user;
    assert RawActive(sessions, user).Some?;
  }

  /** Every dream message is answered. */
  lemma {:induction false} DreamsAreAnswered(messages: seq<Message>, s: Settings)
    ensures DreamsIn(AnsweredIn(messages, s), s) == DreamsIn(messages, s)
  {
    if messages != [] {
      var n := |messages| - 1;
      var before := AnsweredIn(messages[..n], s);
      DreamsAreAnswered(messages[..n], s);
      assert (before + [messages[n]])[..|before|] == before;
      assert IsDream(messages[n], s) ==> IsAnswered(messages[n], s);
      assert AnsweredIn(messages, s) == if IsAnswered(messages[n], s) then before + [messages[n]] else before;
      assert DreamsIn(messages, s)
          == DreamsIn(before, s) + if IsDream(messages[n], s) then [messages[n]] else [];
    }
  }

  lemma DreamsStay(t: Tables, u: Tables, dreams: seq<Message>)
    requires DreamsMatch(t, dreams) && Grown(t.sessions, u.sessions) && u.dreams == t.dreams && u.jobs == t.jobs
    ensures DreamsMatch(u, dreams)
  {
  }

  lemma TraceAdded(t: Tables, u: Tables, committed: seq<Message>, m: Message, s: Settings, r: Trace)
    requires TracesMatch(t, committed, s) && t.turns <= u.turns && u.traces == t.traces + [r]
    requires IsTrace(r, u.turns, m, AnsweredIn(committed, s), s)
    ensures TracesMatch(u, committed + [m], s)
  {
    var more := committed + [m];
    forall k | 0 <= k < |more| ensures IsTrace(u.traces[k], u.turns, more[k], AnsweredIn(more[..k], s), s) {
      assert more[..k] == committed[..k];
      if k < |committed| {
        assert IsTrace(t.traces[k], t.turns, committed[k], AnsweredIn(committed[..k], s), s);
      } else {
        assert more[..k] == committed;
      }
    }
  }

  lemma TalkAttends(t: Tables, answered: seq<Message>, m: Message)
    requires OneActive(t.sessions) && SessionsMatch(t.sessions, answered)
    ensures var (sessions, id) := GetOrCreate(t.sessions, m.user, m.begun, m.now);
      var after := Touched(sessions, id, m.begun);
      OneActive(after) && SessionsMatch(after, answered + [m]) && Grown(t.sessions, after) && Owned(after, id, m.user)
  {
    var (sessions, id) := GetOrCreate(t.sessions, m.user, m.begun, m.now);
    GetOrCreateKeepsOne(t.sessions, m.user, m.begun, m.now);
    TouchKeepsOne(sessions, id, m.begun);
    GetOrCreateOnlyUser(t.sessions, m.user, m.begun, m.now);
    TouchOnlyUser(sessions, id, m.begun);
    OnlyUserTwice(t.sessions, sessions, Touched(sessions, id, m.begun), m.user);
    TouchedAttends(t.sessions, Touched(sessions, id, m.begun), answered, m, id);
  }

  lemma TalkKeeps(t: Tables, committed: seq<Message>, m: Message, s: Settings, d: Decision, reply: string)
    requires Conserved(t, committed, s) && !IsDream(m, s) && IsAnswered(m, s)
    requires RightExchange(m, AnsweredIn(committed, s), s, d.route, None, reply)
    requires d == DecisionOn(m, s, LastBegun(AnsweredIn(committed, s), m.user).Some?)
    ensures Conserved(Talked(t, m, d, reply), committed + [m], s)
  {
    var u, answered := Talked(t, m, d, reply), AnsweredIn(committed, s);
    var id := GetOrCreate(t.sessions, m.user, m.begun, m.now).1;
    TalkAttends(t, answered, m);
    assert (committed + [m])[..|committed|] == committed;
    DreamsStay(t, u, DreamsIn(committed, s));
    assert DreamsIn(committed + [m], s) == DreamsIn(committed, s);
    ExchangeAdded(t, u, answered, m, s, id, d.route, None, reply);
    assert u.turns[|t.turns|] == Exchange(m, id, d.route, None, reply)[0];
    TraceAdded(t, u, committed, m, s, Trace(m.user, Some(id), None, None, d));
  }

  lemma RecordAttends(t: Tables, answered: seq<Message>, m: Message)
    requires OneActive(t.sessions) && SessionsMatch(t.sessions, answered)
    ensures var (sessions, id) := GetOrCreate(t.sessions, m.user, m.begun, m.now);
      var (again, home) := GetOrCreate(sessions, m.user, m.begun, m.later);
      var after := Touched(again, home, m.begun);
      && OneActive(after) && SessionsMatch(after, answered + [m]) && Grown(t.sessions, after)
      && Owned(after, id, m.user) && Owned(after, home, m.user)
  {
    var (sessions, id) := GetOrCreate(t.sessions, m.user, m.begun, m.now);
    var (again, home) := GetOrCreate(sessions, m.user, m.begun, m.later);
    GetOrCreateKeepsOne(t.sessions, m.user, m.begun, m.now);
    GetOrCreateKeepsOne(sessions, m.user, m.begun, m.later);
    TouchKeepsOne(again, home, m.begun);
    GetOrCreateOnlyUser(t.sessions, m.user, m.begun, m.now);
    GetOrCreateOnlyUser(sessions, m.user, m.begun, m.later);
    OnlyUserTwice(t.sessions, sessions, again, m.user);
    TouchOnlyUser(again, home, m.begun);
    OnlyUserTwice(t.sessions, again, Touched(again, home, m.begun), m.user);
    TouchedAttends(t.sessions, Touched(again, home, m.begun), answered, m, home);
  }

  lemma RecordKeeps(t: Tables, committed: seq<Message>, m: Message, s: Settings, d: Decision, reply: string)
    requires Conserved(t, committed, s) && IsDream(m, s)
    requires RightExchange(m, AnsweredIn(committed, s), s, d.route, Some(|DreamsIn(AnsweredIn(committed, s), s)|), reply)
    requires d == DecisionOn(m, s, LastBegun(AnsweredIn(committed, s), m.user).Some?)
    ensures Conserved(Recorded(t, m, s, d, reply), committed + [m], s)
  {
    var u, answered := Recorded(t, m, s, d, reply), AnsweredIn(committed, s);
    var (sessions, id) := GetOrCreate(t.sessions, m.user, m.begun, m.now);
    var home := GetOrCreate(sessions, m.user, m.begun, m.later).1;
    RecordAttends(t, answered, m);
    assert (committed + [m])[..|committed|] == committed;
    DreamAdded(t, u, DreamsIn(committed, s), m, home, s);
    assert Words(m.text) != [];
    DreamsAreAnswered(committed, s);
    ExchangeAdded(t, u, answered, m, s, id, d.route, Some(|t.dreams|), reply);
    assert u.turns[|t.turns|] == Exchange(m, id, d.route, Some(|t.dreams|), reply)[0];
    TraceAdded(t, u, committed, m, s, Trace(m.user, Some(id), Some(|t.dreams|), Some(|t.jobs|), d));
  }

  lemma DreamAdded(t: Tables, u: Tables, dreams: seq<Message>, m: Message, home: SessionId, s: Settings)
    requires DreamsMatch(t, dreams) && Grown(t.sessions, u.sessions) && Owned(u.sessions, home, m.user)
    requires u.dreams == t.dreams + [Ingress.Dream(m.user, home, m.text)]
    requires u.jobs == t.jobs + [JobService.NewJob(|t.jobs|, home, Some(|t.dreams|), Auto, s.maxAttempts, m.later)]
    ensures DreamsMatch(u, dreams + [m])
  {
    forall i | 0 <= i < |dreams| ensures Owned(u.sessions, u.dreams[i].session, u.dreams[i].user) {
      assert Owned(t.sessions, t.dreams[i].session, t.dreams[i].user);
    }
  }

  /** The policy and the reply it leads to are right for what is known of the user. */
  lemma ExchangeIsRight(t: Tables, committed: seq<Message>, m: Message, s: Settings)
    requires KeepsWords(s.signals.lower) && Conserved(t, committed, s)
    ensures var route, answered := DecisionFor(t, m, s).route, AnsweredIn(committed, s);
      && DecisionFor(t, m, s) == DecisionOn(m, s, LastBegun(answered, m.user).Some?)
      && (route == Noop <==> !IsAnswered(m, s)) && (route == NewDream <==> IsDream(m, s))
      && (route != Noop && ReplyTo(m, s, route).Some? ==>
            RightExchange(m, answered, s, route, if IsDream(m, s) then Some(|DreamsIn(answered, s)|) else None,
                          ReplyTo(m, s, route).value))
  {
    RoutesAre(s.signals, m.text, SessionStateOf(t.sessions, m.user));
    DecisionsAre(s.signals, m.text, SessionStateOf(t.sessions, m.user));
    ReplyAnswers(t, m, s);
    assert Attends(t.sessions, AnsweredIn(committed, s), m.user);
  }

  lemma StepKeeps(t: Tables, committed: seq<Message>, m: Message, s: Settings)
    requires KeepsWords(s.signals.lower) && Conserved(t, committed, s)
    ensures Conserved(Ingested(t, m, s), if Commits(t, m, s) then committed + [m] else committed, s)
  {
    var d := DecisionFor(t, m, s);
    ExchangeIsRight(t, committed, m, s);
    if Commits(t, m, s) {
      if d.route == Noop {
        EmptyKeeps(t, committed, m, s, d);
      } else if d.route == NewDream {
        RecordKeeps(t, committed, m, s, d, ReplyTo(m, s, d.route).value);
      } else {
        TalkKeeps(t, committed, m, s, d, ReplyTo(m, s, d.route).value);
      }
    }
  }

  lemma EmptyKeeps(t: Tables, committed: seq<Message>, m: Message, s: Settings, d: Decision)
    requires Conserved(t, committed, s) && !IsAnswered(m, s) && d.route == Noop
    requires d == DecisionOn(m, s, LastBegun(AnsweredIn(committed, s), m.user).Some?)
    ensures Conserved(t.(traces := t.traces + [Trace(m.user, None, None, None, d)]), committed + [m], s)
  {
    var u := t.(traces := t.traces + [Trace(m.user, None, None, None, d)]);
    assert (committed + [m])[..|committed|] == committed;
    assert DreamsIn(committed + [m], s) == DreamsIn(committed, s);
    assert AnsweredIn(committed + [m], s) == AnsweredIn(committed, s);
    ExchangesStay(t, u, AnsweredIn(committed, s), s);
    TraceAdded(t, u, committed, m, s, Trace(m.user, None, None, None, d));
  }

  // ---------------------------------------------------------------- main results

  /**
   * After any run: one dream and one queued job per committed dream message, in order; two turns of one session per
   * committed message that is answered, with the answer it asks for, none for the others; a trace for each; one active
   * session for each user who has been answered, last active when the last answered message began.
   */
  lemma {:induction false} RunConserves(messages: seq<Message>, s: Settings)
    requires KeepsWords(s.signals.lower)
    ensures Conserved(Run(messages, s), Committed(messages, s), s)
  {
    if messages != [] {
      var n := |messages| - 1;
      RunConserves(messages[..n], s);
      StepKeeps(Run(messages[..n], s), Committed(messages[..n], s), messages[n], s);
    }
  }

  /** A message is rolled back exactly if it wants a dialogue reply and there is none; rolled back, it leaves no trace. */
  lemma RolledBackExactly(t: Tables, m: Message, s: Settings)
    requires KeepsWords(s.signals.lower)
    ensures Commits(t, m, s) <==>
      m.reply.Some? || s.signals.crisis(m.text) || Words(m.text) == []
      || (!Continues(s.signals, m.text) && |Words(m.text)| < MIN_TOKENS_FOR_DREAM
          && RawActive(t.sessions, m.user).None?)
    ensures !Commits(t, m, s) ==> Ingested(t, m, s) == t
  {
    RoutesAre(s.signals, m.text, SessionStateOf(t.sessions, m.user));
  }

  /** The session the user's turn goes to, at the time of the first look. */
  function FirstSession(t: Tables, m: Message): Session {
    var (sessions, id) := GetOrCreate(t.sessions, m.user, m.begun, m.now);
    sessions[id]
  }

  /** A dream lands in the session of its turns exactly if that session is still fresh at the second look. */
  lemma SameSessionExactly(t: Tables, m: Message, s: Settings)
    requires KeepsWords(s.signals.lower) && OneActive(t.sessions) && IsDream(m, s) && m.reply.Some?
    ensures var u := Ingested(t, m, s);
      && |u.dreams| == |t.dreams| + 1 && |u.turns| == |t.turns| + 2
      && (u.dreams[|t.dreams|].session == u.turns[|t.turns|].session <==> IsFresh(FirstSession(t, m), m.later))
  {
    RoutesAre(s.signals, m.text, SessionStateOf(t.sessions, m.user));
    var (sessions, id) := GetOrCreate(t.sessions, m.user, m.begun, m.now);
    GetOrCreateKeepsOne(t.sessions, m.user, m.begun, m.now);
    RawActiveIs(sessions, id);
    var (again, home) := GetOrCreate(sessions, m.user, m.begun, m.later);
    var u := Ingested(t, m, s);
    assert u.turns[|t.turns|].session == id && u.dreams[|t.dreams|].session == home;
  }

  /**
   * After any run, an answered message opens a session exactly if it is its user's first one, or more than 72 hours have
   * passed since the last one began; else its turns go to the user's active session.
   */
  lemma SessionOpensExactly(messages: seq<Message>, m: Message, s: Settings)
    requires KeepsWords(s.signals.lower) && IsAnswered(m, s) && Commits(Run(messages, s), m, s)
    ensures var t, u := Run(messages, s), Ingested(Run(messages, s), m, s);
      var last := LastBegun(AnsweredIn(Committed(messages, s), s), m.user);
      && |u.turns| == |t.turns| + 2 && u.turns[|t.turns|].user == m.user
      && var session := u.turns[|t.turns|].session;
      && (session >= |t.sessions| <==> last.None? || m.now > last.value + 259200)
      && (session < |t.sessions| ==> t.sessions[session].user == m.user && t.sessions[session].active)
  {
    var t := Run(messages, s);
    RunConserves(messages, s);
    RoutesAre(s.signals, m.text, SessionStateOf(t.sessions, m.user));
    assert Attends(t.sessions, AnsweredIn(Committed(messages, s), s), m.user);
    TurnsOf(t, m, s);
  }

  /** The turns of an answered message are in the session of the first look. */
  lemma TurnsOf(t: Tables, m: Message, s: Settings)
    requires Commits(t, m, s) && DecisionFor(t, m, s).route != Noop
    ensures var u := Ingested(t, m, s);
      && |u.turns| == |t.turns| + 2 && u.turns[|t.turns|].user == m.user
      && u.turns[|t.turns|].session == GetOrCreate(t.sessions, m.user, m.begun, m.now).1
  {
  }

  // ---------------------------------------------------------------- a run in which dream and turns part

  const EIGHT := ["a", "a", "a", "a", "a", "a", "a", "a"]

  function Keep(text: string): string { text }

  predicate Never(text: string) { false }

  const PLAIN := Settings(Signals(Keep, Never), "s", "c", 1)

  lemma EightWords()
    ensures Words(Spaced(EIGHT)) == EIGHT
  {
    forall i | 0 <= i < |EIGHT| ensures IsWord(EIGHT[i]) { assert EIGHT[i] == "a"; }
    WordsOfSpaced(EIGHT);
  }

  lemma NotContinuing(text: string)
    requires Words(text) == EIGHT
    ensures !Continues(PLAIN.signals, text)
  {
    WordsOfStrip(text);
    var normalized := Spaced(EIGHT);
    assert Normalized(Strip(text)) == normalized;
    assert normalized[0] == EIGHT[0][0] == 'a';
    forall i | 0 <= i < |CONTINUATION_PREFIXES| && |CONTINUATION_PREFIXES[i]| <= |normalized|
      ensures normalized[..|CONTINUATION_PREFIXES[i]|] != CONTINUATION_PREFIXES[i]
    {
      PrefixStart(i);
      assert normalized[..|CONTINUATION_PREFIXES[i]|][0] == 'a';
    }
  }

  lemma EightWordsAreADream(m: Message)
    requires m.text == Spaced(EIGHT)
    ensures IsDream(m, PLAIN)
  {
    EightWords();
    NotContinuing(m.text);
  }

  lemma PrefixStart(i: nat)
    requires i < |CONTINUATION_PREFIXES|
    ensures CONTINUATION_PREFIXES[i] != "" && CONTINUATION_PREFIXES[i][0] != 'a'
  {
    var p := CONTINUATION_PREFIXES;
    assert p[0][0] == 'в' && p[1][0] == 'д' && p[2][0] == 'д' && p[3][0] == 'д' && p[4][0] == 'п' && p[5][0] == 'п';
    assert p[6][0] == 'е' && p[7][0] == 'е' && p[8][0] == 'и' && p[9][0] == 'и';
  }

  const FIRST := Message(1, Spaced(EIGHT), 0, 0, 0, Some("r"))

  /** Begun 72 hours later, when the session is just fresh; at the second look, a second later, it is not. */
  const SECOND := Message(1, Spaced(EIGHT), 259200, 259200, 259201, Some("r"))

  lemma FirstLooks()
    ensures var one := [Session(1, true, 0, 0)];
      GetOrCreate([], 1, 0, 0) == (one, 0) && GetOrCreate(one, 1, 0, 0) == (one, 0) && Touched(one, 0, 0) == one
  {
    var one := [Session(1, true, 0, 0)];
    assert [] + one == one;
    assert GetOrCreate([], 1, 0, 0) == (one, 0);
    assert one[..0] == [];
    assert RawActive(one, 1) == Some(0);
    assert one[0 := one[0].(lastActivity := 0)] == one;
  }

  lemma FirstIsRecorded(d: Decision)
    ensures var t := Recorded(Tables([], [], [], [], []), FIRST, PLAIN, d, "r");
      t.sessions == [Session(1, true, 0, 0)] && |t.dreams| == 1 && |t.turns| == 2
  {
    FirstLooks();
  }

  /** After the first message the user has one session, last active at 0. */
  lemma AfterFirst()
    ensures var t := Run([FIRST], PLAIN); t.sessions == [Session(1, true, 0, 0)] && |t.dreams| == 1 && |t.turns| == 2
  {
    var empty := Tables([], [], [], [], []);
    assert [FIRST][..0] == [];
    EightWordsAreADream(FIRST);
    RoutesAre(PLAIN.signals, FIRST.text, SessionStateOf([], 1));
    var d := DecisionFor(empty, FIRST, PLAIN);
    assert d.route == NewDream;
    FirstIsRecorded(d);
    assert Run([FIRST], PLAIN) == Ingested(empty, FIRST, PLAIN);
  }

  /** Two messages after which the second dream is in another session than the turns that tell it. */
  lemma DreamAndTurnsPart()
    ensures var t := Run([FIRST, SECOND], PLAIN);
      |t.dreams| == 2 && |t.turns| == 4 && t.turns[2].dream == Some(1) && t.dreams[1].session != t.turns[2].session
  {
    var t := Run([FIRST], PLAIN);
    assert [FIRST, SECOND][..1] == [FIRST];
    AfterFirst();
    EightWordsAreADream(SECOND);
    assert OneActive(t.sessions);
    SameSessionExactly(t, SECOND, PLAIN);
    RoutesAre(PLAIN.signals, SECOND.text, SessionStateOf(t.sessions, 1));
    assert t.sessions[..0] == [];
    assert RawActive(t.sessions, 1) == Some(0);
  }

  // ---------------------------------------------------------------- runs in which they do not

  /** Every turn that carries a dream is in the dream's session. */
  predicate SharedSession(t: Tables) {
    forall i :: 0 <= i < |t.turns| && t.turns[i].dream.Some? ==>
      t.turns[i].dream.value < |t.dreams| && t.dreams[t.turns[i].dream.value].session == t.turns[i].session
  }

  /** No session goes stale between the two looks at it while a dream is taken in. */
  predicate Steady(messages: seq<Message>, s: Settings) {
    messages == [] ||
      (var n := |messages| - 1;
       && Steady(messages[..n], s)
       && (IsDream(messages[n], s) ==> IsFresh(FirstSession(Run(messages[..n], s), messages[n]), messages[n].later)))
  }

  lemma SharedDream(t: Tables, m: Message, s: Settings)
    requires KeepsWords(s.signals.lower) && OneActive(t.sessions) && SharedSession(t)
    requires IsDream(m, s) && m.reply.Some? && IsFresh(FirstSession(t, m), m.later)
    requires DecisionFor(t, m, s).route == NewDream
    ensures SharedSession(Ingested(t, m, s))
  {
    var u := Ingested(t, m, s);
    SameSessionExactly(t, m, s);
    assert t.turns <= u.turns && t.dreams <= u.dreams;
    forall i | |t.turns| <= i < |u.turns|
      ensures u.turns[i].dream == Some(|t.dreams|) && u.turns[i].session == u.turns[|t.turns|].session { }
  }

  lemma SharedStep(t: Tables, m: Message, s: Settings)
    requires KeepsWords(s.signals.lower) && OneActive(t.sessions) && SharedSession(t)
    requires IsDream(m, s) ==> IsFresh(FirstSession(t, m), m.later)
    ensures SharedSession(Ingested(t, m, s))
  {
    RoutesAre(s.signals, m.text, SessionStateOf(t.sessions, m.user));
    if IsDream(m, s) && m.reply.Some? { SharedDream(t, m, s); }
  }

  /** In a steady run every dream is in the session in which it was told. */
  lemma {:induction false} SteadyRunsShareSessions(messages: seq<Message>, s: Settings)
    requires KeepsWords(s.signals.lower) && Steady(messages, s)
    ensures SharedSession(Run(messages, s))
  {
    if messages != [] {
      var n := |messages| - 1;
      SteadyRunsShareSessions(messages[..n], s);
      RunConserves(messages[..n], s);
      SharedStep(Run(messages[..n], s), messages[n], s);
    }
  }
}
