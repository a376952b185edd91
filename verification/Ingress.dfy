/** services/ingress and services/session_service.py: what one incoming message writes. */
module Ingress {
  import opened Base
  import opened DialoguePolicy
  import JobService

  datatype Session = Session(user: UserId, active: bool, createdAt: Time, lastActivity: Time)

  datatype Role = User | Assistant

  datatype Turn = Turn(
    user: UserId, session: SessionId, role: Role, kind: Route, dream: Option<DreamId>, text: string)

  datatype Trace = Trace(
    user: UserId, session: Option<SessionId>, dream: Option<DreamId>, job: Option<JobId>, decision: Decision)

  datatype Dream = Dream(user: UserId, session: SessionId, text: string)

  /** The tables a message can reach; a row's key is its position. */
  datatype Tables = Tables(
    sessions: seq<Session>, turns: seq<Turn>, traces: seq<Trace>, dreams: seq<Dream>, jobs: seq<JobService.Job>)

  /**
   * One message: when its transaction began (PostgreSQL's now()), what the clock shows at the first and the second
   * look at the session, and the dialogue reply, None where generating it raises.
   */
  datatype Message = Message(
    user: UserId, text: string, begun: Time, now: Time, later: Time, reply: Option<string>)

  // What the deployment fixes.
  datatype Settings = Settings(signals: Signals, safety: string, clarification: string, maxAttempts: int)

  datatype IngressError = DialogueFailed

  /** What the caller gets: the route and the texts to send to the user. */
  datatype IngressResult = IngressResult(route: Route, outbound: seq<string>)

  // ---------------------------------------------------------------- sessions

  /** Of the user's active sessions the one created last, None if there is none. */
  function RawActive(sessions: seq<Session>, user: UserId): (r: Option<SessionId>)
    ensures r.Some? ==> r.value < |sessions| && sessions[r.value].user == user && sessions[r.value].active
    ensures r.None? ==> forall i :: 0 <= i < |sessions| ==> !(sessions[i].user == user && sessions[i].active)
  {
    if sessions == [] then None
    else
      var n := |sessions| - 1;
      var before := RawActive(sessions[..n], user);
      if sessions[n].user == user && sessions[n].active
         && (before.None? || sessions[before.value].createdAt <= sessions[n].createdAt) then Some(n)
      else before
  }

  predicate IsFresh(s: Session, now: Time) {
    s.lastActivity as int >= now as int - INACTIVITY_THRESHOLD
  }

  function SessionStateOf(sessions: seq<Session>, user: UserId): SessionState {
    if RawActive(sessions, user).None? then NewSession else ActiveSession
  }

  /** get_or_create_active_session: the sessions after it, and the one to use. */
  function GetOrCreate(sessions: seq<Session>, user: UserId, begun: Time, now: Time): (r: (seq<Session>, SessionId))
    ensures |r.0| >= |sessions| && r.1 < |r.0| && r.0[r.1].user == user && r.0[r.1].active
    ensures forall i :: 0 <= i < |sessions| ==> r.0[i].user == sessions[i].user
  {
    var found := RawActive(sessions, user);
    if found.Some? && IsFresh(sessions[found.value], now) then (sessions, found.value)
    else
      var kept := if found.Some? then sessions[found.value := sessions[found.value].(active := false)] else sessions;
      (kept + [Session(user, true, begun, now)], |kept|)
  }

  function Touched(sessions: seq<Session>, id: SessionId, begun: Time): (r: seq<Session>)
    requires id < |sessions|
    ensures |r| == |sessions|
    ensures forall i :: 0 <= i < |r| ==> r[i].user == sessions[i].user && r[i].active == sessions[i].active
  {
    sessions[id := sessions[id].(lastActivity := begun)]
  }

  // ---------------------------------------------------------------- one message

  function DecisionFor(t: Tables, m: Message, s: Settings): Decision {
    Evaluate(s.signals, m.text, SessionStateOf(t.sessions, m.user))
  }

  function ReplyTo(m: Message, s: Settings, route: Route): Option<string> {
    match route
    case Noop => None
    case Safety => Some(s.safety)
    case Clarification => Some(s.clarification)
    case DialogueTurn => m.reply
    case NewDream => m.reply
  }

  /** A message of one to seven words that continues nothing and signals no crisis. */
  predicate IsUnclear(m: Message, s: Settings) {
    !s.signals.crisis(m.text) && !Continues(s.signals, m.text) && 0 < |Words(m.text)| < 8
  }

  /** The text that answers a message: of a user who is known, that is has an active session, or of one who is not. */
  predicate Answers(text: string, m: Message, s: Settings, known: bool) {
    if s.signals.crisis(m.text) then text == s.safety
    else if IsUnclear(m, s) && !known then text == s.clarification
    else m.reply == Some(text)
  }

  lemma ReplyAnswers(t: Tables, m: Message, s: Settings)
    requires KeepsWords(s.signals.lower)
    ensures var route := DecisionFor(t, m, s).route;
      && (route == Noop <==> !s.signals.crisis(m.text) && Words(m.text) == [])
      && (route != Noop && ReplyTo(m, s, route).Some? ==>
            Answers(ReplyTo(m, s, route).value, m, s, RawActive(t.sessions, m.user).Some?))
  {
    RoutesAre(s.signals, m.text, SessionStateOf(t.sessions, m.user));
  }

  function Exchange(m: Message, id: SessionId, kind: Route, dream: Option<DreamId>, reply: string): seq<Turn> {
    [Turn(m.user, id, User, kind, dream, m.text), Turn(m.user, id, Assistant, kind, dream, reply)]
  }

  /** Whether the message's transaction commits: it does unless the dialogue reply could not be generated. */
  predicate Commits(t: Tables, m: Message, s: Settings) {
    var route := DecisionFor(t, m, s).route;
    route == Noop || ReplyTo(m, s, route).Some?
  }

  function Talked(t: Tables, m: Message, d: Decision, reply: string): Tables {
    var (sessions, id) := GetOrCreate(t.sessions, m.user, m.begun, m.now);
    t.(sessions := Touched(sessions, id, m.begun),
       turns := t.turns + Exchange(m, id, d.route, None, reply),
       traces := t.traces + [Trace(m.user, Some(id), None, None, d)])
  }

  function Recorded(t: Tables, m: Message, s: Settings, d: Decision, reply: string): Tables {
    var (sessions, id) := GetOrCreate(t.sessions, m.user, m.begun, m.now);
    var (again, home) := GetOrCreate(sessions, m.user, m.begun, m.later);
    var dream, job := |t.dreams|, |t.jobs|;
    Tables(Touched(again, home, m.begun),
           t.turns + Exchange(m, id, d.route, Some(dream), reply),
           t.traces + [Trace(m.user, Some(id), Some(dream), Some(job), d)],
           t.dreams + [Dream(m.user, home, m.text)],
           t.jobs + [JobService.NewJob(job, home, Some(dream), Auto, s.maxAttempts, m.later)])
  }

  /** The tables after the message's transaction has ended. */
  function Ingested(t: Tables, m: Message, s: Settings): Tables {
    var d := DecisionFor(t, m, s);
    if !Commits(t, m, s) then t
    else if d.route == Noop then t.(traces := t.traces + [Trace(m.user, None, None, None, d)])
    else
      var reply := ReplyTo(m, s, d.route).value;
      if d.route == NewDream then Recorded(t, m, s, d, reply) else Talked(t, m, d, reply)
  }

  // ---------------------------------------------------------------- the code

  class IngressDb {
    var sessions: seq<Session>
    var turns: seq<Turn>
    var traces: seq<Trace>
    var dreams: seq<Dream>
    var jobs: seq<JobService.Job>

    ghost function Contents(): Tables
      reads this
    {
      Tables(sessions, turns, traces, dreams, jobs)
    }

    method CloseSession(id: SessionId)
      requires id < |sessions|
      modifies this`sessions
      ensures sessions == old(sessions)[id := old(sessions)[id].(active := false)]
    {
      sessions := sessions[id := sessions[id].(active := false)];
    }

    method EnsureActiveSession(user: UserId, now: Time) returns (r: Option<SessionId>)
      modifies this`sessions
      ensures var found := RawActive(old(sessions), user);
        if found.None? then r == None && sessions == old(sessions)
        else if IsFresh(old(sessions)[found.value], now) then r == found && sessions == old(sessions)
        else r == None && sessions == old(sessions)[found.value := old(sessions)[found.value].(active := false)]
    {
      r := RawActive(sessions, user);
      if r.Some? && !IsFresh(sessions[r.value], now) {
        CloseSession(r.value);
        r := None;
      }
    }

    method CreateSession(user: UserId, begun: Time, now: Time) returns (id: SessionId)
      modifies this`sessions
      ensures id == |old(sessions)| && sessions == old(sessions) + [Session(user, true, begun, now)]
    {
      id := |sessions|;
      sessions := sessions + [Session(user, true, begun, now)];
    }

    method GetOrCreateActiveSession(user: UserId, begun: Time, now: Time) returns (id: SessionId)
      modifies this`sessions
      ensures (sessions, id) == GetOrCreate(old(sessions), user, begun, now)
    {
      var active := EnsureActiveSession(user, now);
      if active.Some? { return active.value; }
      id := CreateSession(user, begun, now);
    }

    method UpdateSessionActivity(id: SessionId, begun: Time)
      requires id < |sessions|
      modifies this`sessions
      ensures sessions == Touched(old(sessions), id, begun)
    {
      sessions := sessions[id := sessions[id].(lastActivity := begun)];
    }

    method AppendTurn(turn: Turn)
      modifies this`turns
      ensures turns == old(turns) + [turn]
    {
      turns := turns + [turn];
    }

    method RecordPolicyTrace(trace: Trace)
      modifies this`traces
      ensures traces == old(traces) + [trace]
    {
      traces := traces + [trace];
    }

    /** The dream and the job that analyses it, in one transaction. */
    method RegisterIncomingDream(m: Message, s: Settings) returns (dream: DreamId, job: JobId)
      modifies this`sessions, this`dreams, this`jobs
      ensures dream == |old(dreams)| && job == |old(jobs)|
      ensures var (after, home) := GetOrCreate(old(sessions), m.user, m.begun, m.later);
        && sessions == Touched(after, home, m.begun)
        && dreams == old(dreams) + [Dream(m.user, home, m.text)]
        && jobs == old(jobs) + [JobService.NewJob(job, home, Some(dream), Auto, s.maxAttempts, m.later)]
    {
      var home := GetOrCreateActiveSession(m.user, m.begun, m.later);
      dream := |dreams|;
      dreams := dreams + [Dream(m.user, home, m.text)];
      UpdateSessionActivity(home, m.begun);
      job := |jobs|;
      jobs := jobs + [JobService.NewJob(job, home, Some(dream), Auto, s.maxAttempts, m.later)];
    }

    /** A canned answer: safety or clarification. */
    method Answer(m: Message, d: Decision, reply: string)
      modifies this
      ensures Contents() == Talked(old(Contents()), m, d, reply)
    {
      var id := GetOrCreateActiveSession(m.user, m.begun, m.now);
      AppendTurn(Turn(m.user, id, User, d.route, None, m.text));
      AppendTurn(Turn(m.user, id, Assistant, d.route, None, reply));
      UpdateSessionActivity(id, m.begun);
      RecordPolicyTrace(Trace(m.user, Some(id), None, None, d));
      assert turns == old(turns) + Exchange(m, id, d.route, None, reply);
    }

    /** A dream or a dialogue turn, answered by the dialogue model. */
    method Converse(m: Message, s: Settings, d: Decision) returns (r: Result<IngressResult, IngressError>)
      modifies this
      ensures r.Ok? <==> m.reply.Some?
      ensures r.Ok? ==> r.value == IngressResult(d.route, [m.reply.value])
      ensures r.Ok? && d.route == NewDream ==> Contents() == Recorded(old(Contents()), m, s, d, m.reply.value)
      ensures r.Ok? && d.route != NewDream ==> Contents() == Talked(old(Contents()), m, d, m.reply.value)
    {
      var id := GetOrCreateActiveSession(m.user, m.begun, m.now);
      var dreamId: Option<DreamId> := None;
      if d.route == NewDream {
        var dream, job := RegisterIncomingDream(m, s);
        dreamId := Some(dream);
        AppendTurn(Turn(m.user, id, User, d.route, dreamId, m.text));
        RecordPolicyTrace(Trace(m.user, Some(id), dreamId, Some(job), d));
      } else {
        AppendTurn(Turn(m.user, id, User, d.route, None, m.text));
        UpdateSessionActivity(id, m.begun);
        RecordPolicyTrace(Trace(m.user, Some(id), None, None, d));
      }
      if m.reply.None? { return Err(DialogueFailed); }
      AppendTurn(Turn(m.user, id, Assistant, d.route, dreamId, m.reply.value));
      assert turns == old(turns) + Exchange(m, id, d.route, dreamId, m.reply.value);
      r := Ok(IngressResult(d.route, [m.reply.value]));
    }

    method ProcessIncomingMessage(m: Message, s: Settings) returns (r: Result<IngressResult, IngressError>)
      modifies this
      ensures r.Ok? <==> Commits(old(Contents()), m, s)
      ensures r.Ok? ==> Contents() == Ingested(old(Contents()), m, s)
      ensures r.Ok? ==> r.value.route == DecisionFor(old(Contents()), m, s).route
      // What is stored last and sent: the safety text, the clarification or the dialogue reply, and nothing to an empty message.
      ensures r.Ok? && KeepsWords(s.signals.lower) ==>
                if !s.signals.crisis(m.text) && Words(m.text) == [] then r.value.outbound == [] && turns == old(turns)
                else
                  && |turns| == |old(turns)| + 2 && turns[|turns| - 1].role == Assistant
                  && r.value.outbound == [turns[|turns| - 1].text]
                  && Answers(turns[|turns| - 1].text, m, s, RawActive(old(sessions), m.user).Some?)
    {
      var d := Evaluate(s.signals, m.text, SessionStateOf(sessions, m.user));
      if KeepsWords(s.signals.lower) { ReplyAnswers(Contents(), m, s); }
      if d.route == Noop {
        RecordPolicyTrace(Trace(m.user, None, None, None, d));
        return Ok(IngressResult(Noop, []));
      }
      if d.route == Safety {
        Answer(m, d, s.safety);
        return Ok(IngressResult(Safety, [s.safety]));
      }
      if d.route == Clarification {
        Answer(m, d, s.clarification);
        return Ok(IngressResult(Clarification, [s.clarification]));
      }
      r := Converse(m, s, d);
    }

    /** The request around it: an exception rolls everything back. */
    method HandleRequest(m: Message, s: Settings) returns (r: Result<IngressResult, IngressError>)
      modifies this
      ensures r.Ok? <==> Commits(old(Contents()), m, s)
      ensures Contents() == Ingested(old(Contents()), m, s)
    {
      var before := (sessions, turns, traces, dreams, jobs);
      r := ProcessIncomingMessage(m, s);
      if r.Err? { sessions, turns, traces, dreams, jobs := before.0, before.1, before.2, before.3, before.4; }
    }
  }
}
