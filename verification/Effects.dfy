/** Who changes what, continued: the sleeping tasks and the records of the token file. */
module Effects {
  import opened Basics
  import opened Tokens
  import opened Relay
  import opened World
  import opened Answers
  import opened Ledger
  import opened Seating
  import opened Helpdesk
  import opened Sessions
  import opened Changes
  import Limiter
  import P = Pairing
  import C = Control

  // ------------------------------------------------------------------
  // Sleeping tasks

  /** The socket that the event disconnects half a second later, if any. */
  function Dismissed(w: World, e: Event): Option<Sid> {
    match e
    case AgentHello(a, ip, code, _, _) => if HelloPasses(w.server, ip, code, w.now, w.today) then None else Some(a)
    case ControllerHello(c, _, _, _) => if Joins(w, e, c) then None else Some(c)
    case ControllerAccept(c) => if c in w.server.desk.controllers && Repeats(w, e) then Some(c) else None
    case AdminKick(_, holder) => if Found(w.server, holder) then holder else None
    case TimerWakes(t) => if t.agent in w.server.pairing.agents then Some(t.agent) else None
    case _ => None
  }

  /** The timer that the event puts to sleep, if any. */
  function Started(w: World, e: Event): Option<Timer> {
    if e.AgentHello? && HelloPasses(w.server, e.ip, e.code, w.now, w.today)
    then Some(Timer(e.sid, e.code, w.now + 60.0 * w.server.tokens[e.code].maxMinutes as real))
    else None
  }

  /** What any event leaves sleeping. */
  ghost predicate TasksChange(w: World, e: Event) {
    var s, s' := w.server, ServerStep(w, e);
    && s'.timers ==
       (if e.Restart? then multiset{}
        else if e.TimerWakes? then s.timers - multiset{e.timer}
        else if Started(w, e).Some? then s.timers + multiset{Started(w, e).value}
        else s.timers)
    && s'.stops ==
       (if e.Restart? then multiset{}
        else if e.StopWakes? then s.stops - multiset{e.stop}
        else if Dismissed(w, e).Some? then s.stops + multiset{Stop(Dismissed(w, e).value, w.now + 0.5)}
        else s.stops)
  }

  lemma HelloMinutes(s: State, ip: Ip, code: Code, now: real, today: int)
    ensures HelloPasses(s, ip, code, now, today) ==> code in s.tokens
    ensures HelloReplyOf(s, ip, code, now, today).Accepted? <==> HelloPasses(s, ip, code, now, today)
    ensures HelloPasses(s, ip, code, now, today) ==>
              HelloReplyOf(s, ip, code, now, today).minutes == s.tokens[code].maxMinutes
  {
    HelloAnswers(s, ip, code, now, today);
    hide HelloReplyOf, HeldLive, Limiter.IsBlocked;
  }

  lemma HelloTasksChange(w: World, e: Event)
    requires e.AgentHello?
    ensures TasksChange(w, e)
  {
    HelloTasks(w.server, e.sid, e.ip, e.code, e.multi, e.order, w.now, w.today);
    HelloMinutes(w.server, e.ip, e.code, w.now, w.today);
    hide OnAgentHello, HelloReplyOf, HelloPasses;
  }

  lemma ControllerTasksChange(w: World, e: Event)
    requires e.ControllerHello?
    ensures TasksChange(w, e)
  {
    ControllerAnswers(w.server, e.ip, e.code, e.holder, w.now);
    hide CtrlReplyOf, C.Register, Found, Limiter.IsBlocked, Limiter.RecordFailure, Limiter.RecordSuccess;
  }

  lemma AcceptTasksChange(w: World, e: Event)
    requires e.ControllerAccept?
    ensures TasksChange(w, e)
  {
  }

  lemma KickTasksChange(w: World, e: Event)
    requires e.AdminKick?
    ensures TasksChange(w, e)
  {
    hide BurnCode;
  }

  lemma TimerTasksChange(w: World, e: Event)
    requires e.TimerWakes?
    ensures TasksChange(w, e)
  {
    TimerTasks(w.server, e.timer, w.now);
    hide TimerFires;
  }

  /** What any event leaves sleeping, from any state. */
  lemma TaskLaws(w: World, e: Event)
    ensures TasksChange(w, e)
  {
    if Sleepless(e) {
      SleeplessTasks(w, e);
      assert Started(w, e) == None && Dismissed(w, e) == None;
      hide ServerStep, Started, Dismissed;
    } else {
      hide TasksChange;
      match e
      case AgentHello(_, _, _, _, _) => HelloTasksChange(w, e);
      case ControllerHello(_, _, _, _) => ControllerTasksChange(w, e);
      case ControllerAccept(_) => AcceptTasksChange(w, e);
      case AdminKick(_, _) => KickTasksChange(w, e);
      case TimerWakes(_) => TimerTasksChange(w, e);
      case StopWakes(_) => StopTasksChange(w, e);
      case Restart => RestartTasksChange(w, e);
    }
  }

  lemma StopTasksChange(w: World, e: Event)
    requires e.StopWakes?
    ensures TasksChange(w, e)
  {
    StopTasks(w, e);
    hide ServerStep;
  }

  lemma RestartTasksChange(w: World, e: Event)
    requires e.Restart?
    ensures TasksChange(w, e)
  {
    hide Sweep;
  }

  // ------------------------------------------------------------------
  // Records

  /** The session of the code ends and is charged, if one is held: a kick, a timer, or its agent's socket closes. */
  predicate Charges(w: World, e: Event, code: Code) {
    match e
    case AdminKick(c, holder) => c == code && Found(w.server, holder)
    case TimerWakes(t) => t.code == code
    case _ =>
      && Gone(w, e).Some? && Gone(w, e).value !in w.server.desk.controllers
      && Gone(w, e).value in w.server.pairing.agents
      && Lookup(w.server.pairing.agentTokens, Gone(w, e).value) == Some(code)
  }

  /** The event takes the code's lock. */
  predicate Takes(w: World, e: Event, code: Code) {
    e.AgentHello? && e.code == code && HelloPasses(w.server, e.ip, code, w.now, w.today)
  }

  /** The event frees the code's lock without charging it: a restart, or nobody connected holds the code. */
  predicate Unlocks(w: World, e: Event, code: Code) {
    match e
    case Restart => true
    case SweepOrphans => !HeldLive(w.server, code)
    case AgentHello(_, ip, c, _, _) =>
      && c == code && Known(w.server, ip, code, w.now)
      && !NoUsesLeft(w.server.tokens[code]) && OutOfDate(w.server.tokens[code], w.today) && !HeldLive(w.server, code)
    case _ => false
  }

  /** A hello finds that the code has no uses left, which its record did not say yet. */
  predicate Strikes(w: World, e: Event, code: Code) {
    e.AgentHello? && e.code == code && Known(w.server, e.ip, code, w.now) && NoUsesLeft(w.server.tokens[code])
  }

  function Freed(t: Token): Token {
    t.(inUse := false, firstUsedAt := None, expiresAt := None)
  }

  /** One more use; with the last one the code is used up. */
  function Charged(t: Token): Token {
    if t.unlimited then Freed(t)
    else Freed(t).(useCount := t.useCount + 1, used := t.useCount + 1 >= t.maxUses)
  }

  /** What any event makes of the record of a code. */
  function RecordAfter(w: World, e: Event, code: Code): Token
    requires code in w.server.tokens
  {
    var t := w.server.tokens[code];
    if Takes(w, e, code) then
      t.(inUse := true, firstUsedAt := Some(w.now), expiresAt := Some(w.now + 60.0 * t.maxMinutes as real))
    else if Strikes(w, e, code) then t.(used := true)
    else if t.inUse && !t.used && Charges(w, e, code) then Charged(t)
    else if t.inUse && Unlocks(w, e, code) then Freed(t)
    else t
  }

  ghost predicate RecordChanges(w: World, e: Event, code: Code)
    requires code in w.server.tokens
  {
    code in ServerStep(w, e).tokens && ServerStep(w, e).tokens[code] == RecordAfter(w, e, code)
  }

  lemma BurnRecord(tokens: TokenFile, burnt: Code, code: Code)
    requires code in tokens
    ensures code in BurnCode(tokens, burnt)
    ensures var t := tokens[code];
            BurnCode(tokens, burnt)[code] == if burnt == code && t.inUse && !t.used then Charged(t) else t
  {
  }

  lemma SweepRecord(tokens: TokenFile, active: set<Code>, code: Code)
    requires code in tokens
    ensures code in Sweep(tokens, active)
    ensures var t := tokens[code]; Sweep(tokens, active)[code] == if t.inUse && code !in active then Freed(t) else t
  {
  }

  lemma AdmitRecord(t: Token, live: bool, today: int, now: real)
    ensures var (t', r) := Admit(t, live, today, now);
            t' == if NoUsesLeft(t) then t.(used := true)
                  else if t.inUse && live then t
                  else if OutOfDate(t, today) then (if t.inUse then Freed(t) else t)
                  else t.(inUse := true, firstUsedAt := Some(now), expiresAt := Some(now + 60.0 * t.maxMinutes as real))
  {
  }

  lemma HelloRecordAfter(w: World, e: Event, code: Code)
    requires e.AgentHello? && code in w.server.tokens
    ensures var t := w.server.tokens[code];
            RecordAfter(w, e, code) ==
              if e.code != code || !Known(w.server, e.ip, code, w.now) then t
              else if NoUsesLeft(t) then t.(used := true)
              else if t.inUse && HeldLive(w.server, code) then t
              else if OutOfDate(t, w.today) then (if t.inUse then Freed(t) else t)
              else t.(inUse := true, firstUsedAt := Some(w.now),
                      expiresAt := Some(w.now + 60.0 * t.maxMinutes as real))
  {
    NobodyGone(w, e);
    hide HeldLive, Limiter.IsBlocked, Charged, Freed, Gone;
  }

  lemma HelloRecord(w: World, e: Event, code: Code)
    requires e.AgentHello? && code in w.server.tokens
    ensures RecordChanges(w, e, code)
  {
    HelloOnTokens(w.server, e.sid, e.ip, e.code, e.multi, e.order, w.now, w.today);
    AdmitRecord(w.server.tokens[code], HeldLive(w.server, code), w.today, w.now);
    HelloRecordAfter(w, e, code);
    hide OnAgentHello, HelloReplyOf, RecordAfter, Admit, HeldLive, Limiter.IsBlocked, Freed, NoUsesLeft, OutOfDate;
  }

  lemma QuietRecord(w: World, e: Event, code: Code)
    requires LeavesTokens(e) && code in w.server.tokens
    ensures RecordChanges(w, e, code)
  {
    QuietEvents(w, e);
    NobodyGone(w, e);
    hide ServerStep, Gone;
  }

  lemma TaskRecord(w: World, e: Event, code: Code)
    requires (e.AdminKick? || e.TimerWakes?) && code in w.server.tokens
    ensures RecordChanges(w, e, code)
  {
    BurnRecord(w.server.tokens, if e.AdminKick? then e.code else e.timer.code, code);
    hide BurnCode, Charged, Freed;
  }

  lemma SweptRecord(w: World, e: Event, code: Code)
    requires (e.SweepOrphans? || e.Restart?) && code in w.server.tokens
    ensures RecordChanges(w, e, code)
  {
    SweepRecord(w.server.tokens, w.server.pairing.agentTokens.Values, code);
    SweepRecord(w.server.tokens, {}, code);
    NobodyGone(w, e);
    hide Sweep, Charged, Freed, Gone;
  }

  lemma CloseRecord(s: State, sid: Sid, code: Code)
    requires code in s.tokens
    ensures code in OnDisconnect(s, sid).tokens
    ensures var t := s.tokens[code];
            OnDisconnect(s, sid).tokens[code] ==
              if && sid !in s.desk.controllers && sid in s.pairing.agents
                 && Lookup(s.pairing.agentTokens, sid) == Some(code) && t.inUse && !t.used
              then Charged(t) else t
  {
    if sid in s.pairing.agentTokens { BurnRecord(s.tokens, s.pairing.agentTokens[sid], code); }
    hide BurnCode, Charged, P.AgentGone, P.BrowserGone, C.ControllerGone, C.EndByBrowser;
  }

  lemma GoneRecordAfter(w: World, e: Event, code: Code)
    requires (e.Close? || e.StopWakes?) && code in w.server.tokens
    ensures var t := w.server.tokens[code];
            RecordAfter(w, e, code) == if t.inUse && !t.used && Charges(w, e, code) then Charged(t) else t
  {
    hide Charges, Charged, Freed;
  }

  lemma GoneRecord(w: World, e: Event, code: Code)
    requires (e.Close? || e.StopWakes?) && code in w.server.tokens
    ensures RecordChanges(w, e, code)
  {
    if e.Close? {
      CloseRecord(w.server, e.sid, code);
    } else {
      CloseRecord(w.server.(stops := w.server.stops - multiset{e.stop}), e.stop.sid, code);
    }
    GoneRecordAfter(w, e, code);
    hide OnDisconnect, RecordAfter, Charged;
  }

  /** What any event makes of any record, from any state; no code is added or lost. */
  lemma RecordLaws(w: World, e: Event, code: Code)
    ensures code in ServerStep(w, e).tokens <==> code in w.server.tokens
    ensures code in w.server.tokens ==> ServerStep(w, e).tokens[code] == RecordAfter(w, e, code)
  {
    StepInventsNoCode(w, e);
    if code in w.server.tokens {
      RecordLaw(w, e, code);
    }
    hide ServerStep, RecordAfter;
  }

  lemma RecordLaw(w: World, e: Event, code: Code)
    requires code in w.server.tokens
    ensures RecordChanges(w, e, code)
  {
    hide RecordChanges;
    if LeavesTokens(e) {
      QuietRecord(w, e, code);
    } else {
      match e
      case AgentHello(_, _, _, _, _) => HelloRecord(w, e, code);
      case Close(_) => GoneRecord(w, e, code);
      case StopWakes(_) => GoneRecord(w, e, code);
      case AdminKick(_, _) => TaskRecord(w, e, code);
      case TimerWakes(_) => TaskRecord(w, e, code);
      case SweepOrphans => SweptRecord(w, e, code);
      case Restart => SweptRecord(w, e, code);
    }
  }
}
