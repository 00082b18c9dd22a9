/** In every run a held lock has a live agent, and a live agent has its end scheduled. */
module Sessions {
  import opened Basics
  import opened Tokens
  import opened Relay
  import opened World
  import opened Answers
  import opened Ledger
  import opened Seating
  import opened Helpdesk
  import Limiter
  import P = Pairing
  import C = Control

  // ------------------------------------------------------------------
  // A held lock has a live agent

  ghost predicate InUseHeld(tokens: TokenFile, held: map<Sid, Code>) {
    forall c :: c in tokens && tokens[c].inUse ==> P.Live(held, c)
  }

  ghost predicate LocksHeld(s: State) {
    InUseHeld(s.tokens, s.pairing.agentTokens)
  }

  lemma FewerLocks(tokens: TokenFile, tokens': TokenFile, held: map<Sid, Code>)
    requires InUseHeld(tokens, held)
    requires forall c :: c in tokens' && tokens'[c].inUse ==> c in tokens && tokens[c].inUse
    ensures InUseHeld(tokens', held)
  {
  }

  lemma AgentLeaves(tokens: TokenFile, held: map<Sid, Code>, a: Sid)
    requires InUseHeld(tokens, held) && Healthy(tokens) && a in held
    ensures InUseHeld(BurnCode(tokens, held[a]), held - {a})
  {
    var tokens' := BurnCode(tokens, held[a]);
    forall c | c in tokens' && tokens'[c].inUse ensures P.Live(held - {a}, c) {
      assert LockFits(tokens[c]);
      assert c != held[a] && tokens[c].inUse;
      var x :| x in held && held[x] == c;
      assert x in held - {a};
    }
  }

  lemma AgentEnters(tokens: TokenFile, tokens': TokenFile, held: map<Sid, Code>, a: Sid, code: Code)
    requires InUseHeld(tokens, held) && a !in held
    requires forall c :: c in tokens' && c != code ==> c in tokens && tokens'[c] == tokens[c]
    ensures InUseHeld(tokens', held[a := code])
  {
    var held' := held[a := code];
    forall c | c in tokens' && tokens'[c].inUse ensures P.Live(held', c) {
      if c == code {
        assert held'[a] == code;
      } else {
        var x :| x in held && held[x] == c;
        assert x in held' && held'[x] == c;
      }
    }
  }

  lemma CloseKeepsLocks(s: State, sid: Sid)
    requires LocksHeld(s) && Healthy(s.tokens) && P.Wired(s.pairing)
    ensures LocksHeld(OnDisconnect(s, sid))
  {
    if sid in s.pairing.agentTokens { AgentLeaves(s.tokens, s.pairing.agentTokens, sid); }
    assert sid in s.pairing.agents <==> sid in s.pairing.agentTokens;
    hide BurnCode, InUseHeld, P.Wired, P.Of, P.Leave, P.Without, C.ControllerGone, C.EndByBrowser, Healthy;
  }

  lemma AcceptHolds(p: P.Tables, a: Sid, code: Code, multi: bool, order: seq<Sid>)
    ensures P.Accept(p, a, code, multi, order).agentTokens == p.agentTokens[a := code]
  {
    P.DrainPairsWinners(P.Enrol(p, a, code, multi), a, multi, order);
  }

  /** Under the invariant the race recovery is never taken. */
  lemma NothingToRecover(s: State, code: Code)
    requires LocksHeld(s) && code in s.tokens
    ensures !Recovers(s.tokens[code], HeldLive(s, code))
  {
    if s.tokens[code].inUse {
      var a :| a in s.pairing.agentTokens && s.pairing.agentTokens[a] == code;
      assert s.pairing.agentTokens[a] in s.pairing.agentTokens.Values;
    }
  }

  lemma HelloKeepsLocks(s: State, a: Sid, ip: Ip, code: Code, multi: bool, order: seq<Sid>, now: real, today: int)
    requires LocksHeld(s) && a !in s.pairing.agentTokens
    ensures LocksHeld(OnAgentHello(s, a, ip, code, multi, order, now, today))
  {
    var s' := OnAgentHello(s, a, ip, code, multi, order, now, today);
    HelloPairing(s, a, ip, code, multi, order, now, today);
    AcceptHolds(s.pairing, a, code, multi, order);
    HelloTokens(s, a, ip, code, multi, order, now, today);
    if HelloReplyOf(s, ip, code, now, today).Accepted? {
      AgentEnters(s.tokens, s'.tokens, s.pairing.agentTokens, a, code);
    } else {
      FewerLocks(s.tokens, s'.tokens, s.pairing.agentTokens);
    }
    hide OnAgentHello, P.Accept, HelloReplyOf, InUseHeld;
  }

  lemma HelloTokens(s: State, a: Sid, ip: Ip, code: Code, multi: bool, order: seq<Sid>, now: real, today: int)
    ensures var s' := OnAgentHello(s, a, ip, code, multi, order, now, today);
            && (forall c :: c in s'.tokens && c != code ==> c in s.tokens && s'.tokens[c] == s.tokens[c])
            && (!HelloReplyOf(s, ip, code, now, today).Accepted? ==>
                  forall c :: c in s'.tokens && s'.tokens[c].inUse ==> c in s.tokens && s.tokens[c].inUse)
  {
    hide P.Accept, Limiter.RecordFailure, Limiter.RecordSuccess, Limiter.IsBlocked;
  }

  lemma BurnsKeepLocks(tokens: TokenFile, code: Code, active: set<Code>, held: map<Sid, Code>)
    requires InUseHeld(tokens, held)
    ensures InUseHeld(BurnCode(tokens, code), held)
    ensures InUseHeld(Sweep(tokens, active), held)
  {
    FewerLocks(tokens, BurnCode(tokens, code), held);
    FewerLocks(tokens, Sweep(tokens, active), held);
  }

  lemma BystanderKeepsLocks(w: World, e: Event)
    requires Bystander(e) && LocksHeld(w.server)
    ensures LocksHeld(ServerStep(w, e))
  {
    BystanderPairing(w, e);
    var s := w.server;
    if LeavesTokens(e) {
      QuietEvents(w, e);
      hide ServerStep;
    } else {
      BurnsKeepLocks(s.tokens, if e.AdminKick? then e.code else if e.TimerWakes? then e.timer.code else Blank,
                     s.pairing.agentTokens.Values, s.pairing.agentTokens);
      hide BurnCode, Sweep, InUseHeld;
    }
  }

  lemma BrowserKeepsLocks(w: World, e: Event)
    requires (e.BrowserHello? || e.BrowserPair?) && LocksHeld(w.server)
    ensures LocksHeld(ServerStep(w, e))
  {
    QuietEvents(w, e);
    PairAgents(w, e);
    hide ServerStep;
  }

  lemma NoLocksAfterBoot(tokens: TokenFile)
    ensures LocksHeld(Boot(tokens))
  {
  }

  lemma StepKeepsLocks(w: World, e: Event, rules: Rules)
    requires Enabled(w, e, rules) && rules.oneHello
    requires PairingOk(w.server.pairing, w.roles, w.helloed, rules.patient)
    requires LocksHeld(w.server) && Healthy(w.server.tokens)
    ensures LocksHeld(ServerStep(w, e))
  {
    hide LocksHeld, Healthy;
    if Bystander(e) {
      BystanderKeepsLocks(w, e);
      hide ServerStep;
    } else {
      match e
      case AgentHello(a, ip, code, multi, order) =>
        HelloKeepsLocks(w.server, a, ip, code, multi, order, w.now, w.today);
        hide OnAgentHello;
      case Close(sid) =>
        CloseKeepsLocks(w.server, sid);
        hide OnDisconnect;
      case StopWakes(q) =>
        StopKeepsLocks(w, e);
        hide ServerStep;
      case Restart =>
        NoLocksAfterBoot(w.server.tokens);
        hide Boot;
      case _ =>
        BrowserKeepsLocks(w, e);
        hide ServerStep;
    }
  }

  lemma StopKeepsLocks(w: World, e: Event)
    requires e.StopWakes? && LocksHeld(w.server) && Healthy(w.server.tokens) && P.Wired(w.server.pairing)
    ensures LocksHeld(ServerStep(w, e))
  {
    CloseKeepsLocks(w.server.(stops := w.server.stops - multiset{e.stop}), e.stop.sid);
    hide OnDisconnect;
  }

  /** Under the invariant the orphan sweep changes nothing and only a restart forgives a session. */
  lemma SweepIsIdle(s: State)
    requires LocksHeld(s)
    ensures OrphanSweep(s) == s
  {
    forall c | c in s.tokens && s.tokens[c].inUse ensures c in s.pairing.agentTokens.Values {
      var a :| a in s.pairing.agentTokens && s.pairing.agentTokens[a] == c;
    }
    assert Sweep(s.tokens, s.pairing.agentTokens.Values) == s.tokens;
  }

  lemma OnlyRestartForgives(w: World, e: Event, code: Code)
    requires LocksHeld(w.server) && Forgives(w, e, code)
    ensures e.Restart?
  {
    NothingToRecover(w.server, code);
    SweepIsIdle(w.server);
  }

  /** From any token file, one sweep makes every lock a live one and leaves live codes alone. */
  lemma SweepRepairs(s: State)
    ensures LocksHeld(OrphanSweep(s))
    ensures forall c :: c in s.tokens && P.Live(s.pairing.agentTokens, c) ==> OrphanSweep(s).tokens[c] == s.tokens[c]
  {
    forall c | c in s.pairing.agentTokens.Values ensures P.Live(s.pairing.agentTokens, c) {
    }
  }

  // ------------------------------------------------------------------
  // A live agent has its end scheduled

  /** Something sleeping will disconnect the agent no later than half a second after `end`. */
  ghost predicate Ending(timers: multiset<Timer>, stops: multiset<Stop>, a: Sid, end: real) {
    || (exists t :: t in timers && t.agent == a && t.due <= end)
    || (exists q :: q in stops && q.sid == a && q.due <= end + GRACE)
  }

  ghost predicate AllEnding(agents: set<Sid>, ends: map<Sid, real>, timers: multiset<Timer>, stops: multiset<Stop>) {
    forall a :: a in agents ==> a in ends && Ending(timers, stops, a, ends[a])
  }

  /** Nothing is overdue. */
  ghost predicate OnTime(timers: multiset<Timer>, stops: multiset<Stop>, now: real) {
    && (forall t :: t in timers ==> now <= t.due)
    && (forall q :: q in stops ==> now <= q.due)
  }

  ghost predicate LengthsOk(tokens: TokenFile) {
    forall c :: c in tokens ==> tokens[c].maxMinutes >= 0
  }

  ghost predicate Scheduled(w: World) {
    && AllEnding(w.server.pairing.agents, w.sessionEnd, w.server.timers, w.server.stops)
    && OnTime(w.server.timers, w.server.stops, w.now)
    && LengthsOk(w.server.tokens)
  }

  lemma StepKeepsLengths(w: World, e: Event)
    requires LengthsOk(w.server.tokens)
    ensures LengthsOk(ServerStep(w, e).tokens)
  {
    StepInventsNoCode(w, e);
    forall c | c in ServerStep(w, e).tokens ensures ServerStep(w, e).tokens[c].maxMinutes >= 0 {
      assert c in w.server.tokens;
      StepOnToken(w, e, c);
    }
  }

  /** Events that put nothing to sleep and wake nothing. */
  predicate Sleepless(e: Event) {
    !(e.AgentHello? || e.ControllerHello? || e.ControllerAccept? || e.AdminKick?
      || e.TimerWakes? || e.StopWakes? || e.Restart?)
  }

  lemma SleeplessTasks(w: World, e: Event)
    requires Sleepless(e)
    ensures ServerStep(w, e).timers == w.server.timers && ServerStep(w, e).stops == w.server.stops
  {
    hide RequestOf, PairReplyOf, P.Pair, P.Enqueue, P.UnpairBrowser, P.AgentGone, P.BrowserGone,
         C.EndByBrowser, C.EndByController, C.ControllerGone, Limiter.Cleanup, Limiter.RecordFailure, BurnCode, Sweep;
  }

  /** Only an accepted hello adds an agent. */
  lemma AgentsShrink(w: World, e: Event)
    requires !e.AgentHello?
    requires All(w.server.pairing.agents, w.roles, Agent) && All(w.server.desk.controllers, w.roles, Controller)
    ensures ServerStep(w, e).pairing.agents <= w.server.pairing.agents
    ensures e.StopWakes? ==> e.stop.sid !in ServerStep(w, e).pairing.agents
  {
    if Bystander(e) {
      BystanderPairing(w, e);
      hide ServerStep;
    } else if e.BrowserHello? || e.BrowserPair? {
      PairAgents(w, e);
      hide ServerStep;
    } else if e.Restart? {
      hide Sweep;
    } else {
      var s := if e.StopWakes? then w.server.(stops := w.server.stops - multiset{e.stop}) else w.server;
      CloseShrinks(s, if e.StopWakes? then e.stop.sid else e.sid);
      if e.StopWakes? { CloseKeepsAgents(w, e); }
      hide OnDisconnect;
    }
  }

  lemma CloseShrinks(s: State, sid: Sid)
    ensures OnDisconnect(s, sid).pairing.agents <= s.pairing.agents
  {
    hide BurnCode, P.Of, P.Leave, P.Without, C.ControllerGone, C.EndByBrowser;
  }

  lemma MoreStops(agents: set<Sid>, ends: map<Sid, real>, timers: multiset<Timer>, stops: multiset<Stop>, q: Stop)
    requires AllEnding(agents, ends, timers, stops)
    ensures AllEnding(agents, ends, timers, stops + multiset{q})
  {
    forall a | a in agents ensures Ending(timers, stops + multiset{q}, a, ends[a]) {
      if p :| p in stops && p.sid == a && p.due <= ends[a] + GRACE { assert p in stops + multiset{q}; }
    }
  }

  lemma TimerTurnsStop(agents: set<Sid>, ends: map<Sid, real>, timers: multiset<Timer>, stops: multiset<Stop>, t: Timer)
    requires AllEnding(agents, ends, timers, stops) && t in timers
    ensures var q := Stop(t.agent, t.due + GRACE);
            AllEnding(agents, ends, timers - multiset{t}, if t.agent in agents then stops + multiset{q} else stops)
  {
    var timers' := timers - multiset{t};
    var q := Stop(t.agent, t.due + GRACE);
    var stops' := if t.agent in agents then stops + multiset{q} else stops;
    forall a | a in agents ensures Ending(timers', stops', a, ends[a]) {
      if u :| u in timers && u.agent == a && u.due <= ends[a] {
        if u == t { assert q in stops'; } else { assert u in timers'; }
      } else {
        var p :| p in stops && p.sid == a && p.due <= ends[a] + GRACE;
        assert p in stops';
      }
    }
  }

  lemma StopSpends(agents: set<Sid>, agents': set<Sid>, ends: map<Sid, real>, timers: multiset<Timer>,
          stops: multiset<Stop>, q: Stop)
    requires AllEnding(agents, ends, timers, stops) && agents' <= agents - {q.sid}
    ensures AllEnding(agents', ends, timers, stops - multiset{q})
  {
    forall a | a in agents' ensures Ending(timers, stops - multiset{q}, a, ends[a]) {
      if p :| p in stops && p.sid == a && p.due <= ends[a] + GRACE { assert p in stops - multiset{q}; }
    }
  }

  lemma NewSession(agents: set<Sid>, ends: map<Sid, real>, timers: multiset<Timer>, stops: multiset<Stop>, t: Timer)
    requires AllEnding(agents, ends, timers, stops)
    ensures AllEnding(agents + {t.agent}, ends[t.agent := t.due], timers + multiset{t}, stops)
  {
    var timers' := timers + multiset{t};
    forall a | a in agents + {t.agent} ensures Ending(timers', stops, a, ends[t.agent := t.due][a]) {
      if a == t.agent {
        assert t in timers';
      } else if u :| u in timers && u.agent == a && u.due <= ends[a] {
        assert u in timers';
      }
    }
  }

  /** What each handler leaves sleeping. */
  lemma TasksAfter(w: World, e: Event)
    ensures e.ControllerHello? || e.ControllerAccept? || e.AdminKick? ==>
              && ServerStep(w, e).timers == w.server.timers
              && (ServerStep(w, e).stops == w.server.stops
                  || exists q: Stop :: q.due == w.now + GRACE && ServerStep(w, e).stops == w.server.stops + multiset{q})
  {
    hide C.Accept, C.Register, Limiter.RecordFailure, Limiter.IsBlocked, CtrlReplyOf, BurnCode,
         OnAgentHello, OnDisconnect, OnBrowserPair, OnBrowserHello, OnRemoteRequest, TimerFires;
  }

  lemma HelloTasks(s: State, a: Sid, ip: Ip, code: Code, multi: bool, order: seq<Sid>, now: real, today: int)
    ensures var s' := OnAgentHello(s, a, ip, code, multi, order, now, today);
            var reply := HelloReplyOf(s, ip, code, now, today);
            if reply.Accepted? then
              && s'.stops == s.stops
              && s'.timers == s.timers + multiset{Timer(a, code, now + 60.0 * reply.minutes as real)}
            else
              s'.stops == s.stops + multiset{Stop(a, now + GRACE)} && s'.timers == s.timers
  {
    hide P.Accept, Limiter.RecordFailure, Limiter.RecordSuccess, HelloReplyOf, Admit;
  }

  lemma AcceptedMinutes(s: State, ip: Ip, code: Code, now: real, today: int)
    requires LengthsOk(s.tokens) && HelloReplyOf(s, ip, code, now, today).Accepted?
    ensures HelloReplyOf(s, ip, code, now, today).minutes >= 0
  {
  }

  lemma SleepersAdded(timers: multiset<Timer>, stops: multiset<Stop>, now: real, t: Timer, q: Stop)
    requires OnTime(timers, stops, now)
    ensures now <= t.due ==> OnTime(timers + multiset{t}, stops, now)
    ensures now <= q.due ==> OnTime(timers, stops + multiset{q}, now)
  {
  }

  lemma HelloAgentsAfter(s: State, a: Sid, ip: Ip, code: Code, multi: bool, order: seq<Sid>, now: real, today: int)
    ensures OnAgentHello(s, a, ip, code, multi, order, now, today).pairing.agents
         == if HelloReplyOf(s, ip, code, now, today).Accepted? then s.pairing.agents + {a} else s.pairing.agents
  {
    HelloPairing(s, a, ip, code, multi, order, now, today);
    AcceptAgents(s.pairing, a, code, multi, order);
    hide OnAgentHello, P.Accept, HelloReplyOf;
  }

  lemma HelloSchedule(s: State, s': State, ends: map<Sid, real>, a: Sid, code: Code, now: real, reply: HelloReply)
    requires AllEnding(s.pairing.agents, ends, s.timers, s.stops) && OnTime(s.timers, s.stops, now)
    requires reply.Accepted? ==> reply.minutes >= 0
    requires s'.pairing.agents == if reply.Accepted? then s.pairing.agents + {a} else s.pairing.agents
    requires if reply.Accepted? then
              && s'.stops == s.stops
              && s'.timers == s.timers + multiset{Timer(a, code, now + 60.0 * reply.minutes as real)}
             else
               s'.stops == s.stops + multiset{Stop(a, now + GRACE)} && s'.timers == s.timers
    ensures AllEnding(s'.pairing.agents,
                      if reply.Accepted? then ends[a := now + 60.0 * reply.minutes as real] else ends,
                      s'.timers, s'.stops)
    ensures OnTime(s'.timers, s'.stops, now)
  {
    var q := Stop(a, now + GRACE);
    var t := Timer(a, code, if reply.Accepted? then now + 60.0 * reply.minutes as real else now);
    SleepersAdded(s.timers, s.stops, now, t, q);
    if reply.Accepted? {
      NewSession(s.pairing.agents, ends, s.timers, s.stops, t);
    } else {
      MoreStops(s.pairing.agents, ends, s.timers, s.stops, q);
    }
    hide AllEnding, OnTime;
  }

  /** The end of the session that a hello begins, by the record of its code. */
  function EndsOfHello(s: State, ends: map<Sid, real>, a: Sid, ip: Ip, code: Code, now: real,
          today: int): map<Sid, real> {
    if HelloPasses(s, ip, code, now, today) then ends[a := now + 60.0 * s.tokens[code].maxMinutes as real] else ends
  }

  lemma HelloStateSchedule(s: State, ends: map<Sid, real>, a: Sid, ip: Ip, code: Code, multi: bool, order: seq<Sid>,
          now: real, today: int)
    requires AllEnding(s.pairing.agents, ends, s.timers, s.stops) && OnTime(s.timers, s.stops, now)
    requires LengthsOk(s.tokens)
    ensures var s' := OnAgentHello(s, a, ip, code, multi, order, now, today);
            && AllEnding(s'.pairing.agents, EndsOfHello(s, ends, a, ip, code, now, today), s'.timers, s'.stops)
            && OnTime(s'.timers, s'.stops, now)
  {
    var reply := HelloReplyOf(s, ip, code, now, today);
    HelloTasks(s, a, ip, code, multi, order, now, today);
    HelloAgentsAfter(s, a, ip, code, multi, order, now, today);
    HelloAnswers(s, ip, code, now, today);
    if reply.Accepted? { AcceptedMinutes(s, ip, code, now, today); }
    HelloSchedule(s, OnAgentHello(s, a, ip, code, multi, order, now, today), ends, a, code, now, reply);
    hide OnAgentHello, HelloReplyOf, AllEnding, LengthsOk, OnTime, CountsAsFailure, HelloFails;
  }

  lemma HelloKeepsSchedule(w: World, e: Event)
    requires e.AgentHello? && Scheduled(w)
    ensures Scheduled(Step(w, e))
  {
    StepKeepsLengths(w, e);
    HelloStateSchedule(w.server, w.sessionEnd, e.sid, e.ip, e.code, e.multi, e.order, w.now, w.today);
    HelloEnds(w, e);
    hide ServerStep, OnAgentHello, EndsAfter, EndsOfHello, AllEnding, LengthsOk, OnTime,
         RolesAfter, HelloedAfter, OpenerAfter, SpentAfter, LastFailAfter, FailsAfter, SessionAfter;
  }

  lemma HelloEnds(w: World, e: Event)
    requires e.AgentHello?
    ensures EndsAfter(w, e) == EndsOfHello(w.server, w.sessionEnd, e.sid, e.ip, e.code, w.now, w.today)
    ensures ServerStep(w, e) == OnAgentHello(w.server, e.sid, e.ip, e.code, e.multi, e.order, w.now, w.today)
  {
    hide OnAgentHello, HelloPasses;
  }

  lemma TaskKeepsSchedule(w: World, e: Event)
    requires e.ControllerHello? || e.ControllerAccept? || e.AdminKick?
    requires Scheduled(w)
    requires All(w.server.pairing.agents, w.roles, Agent) && All(w.server.desk.controllers, w.roles, Controller)
    ensures Scheduled(Step(w, e))
  {
    StepKeepsLengths(w, e);
    BystanderPairing(w, e);
    TasksAfter(w, e);
    hide ServerStep, AllEnding, LengthsOk, RolesAfter, HelloedAfter, OpenerAfter, SpentAfter, LastFailAfter,
         FailsAfter, SessionAfter;
    var s, s' := w.server, ServerStep(w, e);
    if s'.stops != s.stops {
      var q: Stop :| q.due == w.now + GRACE && s'.stops == s.stops + multiset{q};
      MoreStops(s.pairing.agents, w.sessionEnd, s.timers, s.stops, q);
    }
  }

  lemma TimerTasks(s: State, t: Timer, now: real)
    ensures var s' := TimerFires(s, t, now);
            && s'.timers == s.timers - multiset{t}
            && s'.stops == (if t.agent in s.pairing.agents then s.stops + multiset{Stop(t.agent, now + GRACE)}
                            else s.stops)
  {
    hide BurnCode;
  }

  lemma TimerSchedule(s: State, t: Timer, ends: map<Sid, real>, now: real)
    requires AllEnding(s.pairing.agents, ends, s.timers, s.stops) && OnTime(s.timers, s.stops, now)
    requires t in s.timers && t.due <= now
    ensures var s' := TimerFires(s, t, now);
            AllEnding(s.pairing.agents, ends, s'.timers, s'.stops) && OnTime(s'.timers, s'.stops, now)
  {
    TimerTasks(s, t, now);
    TimerTurnsStop(s.pairing.agents, ends, s.timers, s.stops, t);
    assert t.due == now;
    SleepersAdded(s.timers, s.stops, now, t, Stop(t.agent, now + GRACE));
    hide TimerFires, AllEnding;
  }

  lemma TimerKeepsSchedule(w: World, e: Event)
    requires e.TimerWakes? && e.timer in w.server.timers && e.timer.due <= w.now && Scheduled(w)
    ensures Scheduled(Step(w, e))
  {
    StepKeepsLengths(w, e);
    BystanderPairing(w, e);
    TimerSchedule(w.server, e.timer, w.sessionEnd, w.now);
    hide TimerFires, AllEnding, OnTime, LengthsOk,
         RolesAfter, HelloedAfter, OpenerAfter, SpentAfter, LastFailAfter, FailsAfter, SessionAfter;
  }

  lemma StopTasks(w: World, e: Event)
    requires e.StopWakes?
    ensures ServerStep(w, e).timers == w.server.timers && ServerStep(w, e).stops == w.server.stops - multiset{e.stop}
  {
    hide BurnCode, P.AgentGone, P.BrowserGone, C.ControllerGone, C.EndByBrowser;
  }

  lemma StopKeepsSchedule(w: World, e: Event)
    requires e.StopWakes? && Scheduled(w)
    requires All(w.server.pairing.agents, w.roles, Agent) && All(w.server.desk.controllers, w.roles, Controller)
    ensures Scheduled(Step(w, e))
  {
    StepKeepsLengths(w, e);
    AgentsShrink(w, e);
    StopTasks(w, e);
    var s := w.server;
    StopSpends(s.pairing.agents, ServerStep(w, e).pairing.agents, w.sessionEnd, s.timers, s.stops, e.stop);
    hide ServerStep, AllEnding, LengthsOk;
  }

  lemma SleeplessKeepsSchedule(w: World, e: Event, rules: Rules)
    requires Sleepless(e) && Enabled(w, e, rules) && rules.punctual
    requires Scheduled(w)
    requires All(w.server.pairing.agents, w.roles, Agent) && All(w.server.desk.controllers, w.roles, Controller)
    ensures Scheduled(Step(w, e))
  {
    StepKeepsLengths(w, e);
    AgentsShrink(w, e);
    SleeplessTasks(w, e);
    hide ServerStep, LengthsOk, Ending;
  }

  lemma StepKeepsSchedule(w: World, e: Event, rules: Rules)
    requires Enabled(w, e, rules) && rules.punctual
    requires Scheduled(w)
    requires All(w.server.pairing.agents, w.roles, Agent) && All(w.server.desk.controllers, w.roles, Controller)
    ensures Scheduled(Step(w, e))
  {
    if Sleepless(e) {
      hide Scheduled, Step;
      SleeplessKeepsSchedule(w, e, rules);
    } else {
      match e
      case AgentHello(_, _, _, _, _) => HelloKeepsSchedule(w, e); hide Scheduled, Step;
      case TimerWakes(_) => TimerKeepsSchedule(w, e); hide Scheduled, Step;
      case StopWakes(_) => StopKeepsSchedule(w, e); hide Scheduled, Step;
      case Restart => RestartSchedule(w, e); hide Scheduled, Step;
      case _ => TaskKeepsSchedule(w, e); hide Scheduled, Step;
    }
  }

  lemma RestartSchedule(w: World, e: Event)
    requires e.Restart? && Scheduled(w)
    ensures Scheduled(Step(w, e))
  {
    StepKeepsLengths(w, e);
    hide LengthsOk, Sweep;
  }
}
