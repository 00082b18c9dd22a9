/**
 How many connected agents hold one code: at most one until a hello takes a
 code whose holder has lost its lock, to a kick or to a session timer.
 */
module Holders {
  import opened Basics
  import opened Tokens
  import opened Relay
  import opened World
  import opened Ledger
  import opened Seating
  import opened Helpdesk
  import opened Sessions
  import Limiter
  import P = Pairing
  import C = Control

  ghost predicate OneHolder(held: map<Sid, Code>) {
    forall a, b :: a in held && b in held && held[a] == held[b] ==> a == b
  }

  /** An accepted hello for a code that a connected agent holds. */
  predicate Doubles(w: World, e: Event) {
    e.AgentHello? && Admits(w, e, e.code) && HeldLive(w.server, e.code)
  }

  /** Such a hello is one for a live code that is not in use, from an address and with a record that may pass. */
  lemma DoublesIff(w: World, e: Event)
    requires e.AgentHello?
    ensures var s := w.server;
            Doubles(w, e) <==>
              && P.Live(s.pairing.agentTokens, e.code)
              && e.code in s.tokens && !s.tokens[e.code].inUse && !Unusable(s.tokens[e.code], w.today)
              && !Limiter.IsBlocked(s.failed, e.ip, w.now) && e.code != Blank
  {
    HelloAdmitsIff(w, e);
    LiveIsHeld(w.server, e.code);
    hide Admits, HeldLive, P.Live, Limiter.IsBlocked, Unusable;
  }

  lemma LiveIsHeld(s: State, code: Code)
    ensures HeldLive(s, code) <==> P.Live(s.pairing.agentTokens, code)
  {
    if HeldLive(s, code) {
      var a :| a in s.pairing.agentTokens && s.pairing.agentTokens[a] == code;
    }
  }

  // ------------------------------------------------------------------
  // Who holds what after an event

  /** What a closing socket does to the pairing tables and the token file, by what it was. */
  lemma CloseByRole(s: State, sid: Sid)
    ensures var p, t := s.pairing.(browserAuth := s.pairing.browserAuth - {sid}), OnDisconnect(s, sid);
            if sid in s.desk.controllers then t.pairing == p && t.tokens == s.tokens
            else if sid in p.agents then
              && t.pairing == P.AgentGone(p, sid)
              && t.tokens == if sid in p.agentTokens then BurnCode(s.tokens, p.agentTokens[sid]) else s.tokens
            else t.pairing == P.BrowserGone(p, sid) && t.tokens == s.tokens
  {
    hide BurnCode, P.AgentGone, P.BrowserGone, C.ControllerGone, C.EndByBrowser;
  }

  lemma CloseTokens(s: State, sid: Sid)
    ensures var held, t := s.pairing.agentTokens, OnDisconnect(s, sid);
            || (t.pairing.agentTokens == held && t.tokens == s.tokens)
            || (&& t.pairing.agentTokens == held - {sid}
                && t.tokens == if sid in held then BurnCode(s.tokens, held[sid]) else s.tokens)
  {
    hide OnDisconnect, BurnCode, P.AgentGone, P.BrowserGone;
    CloseByRole(s, sid);
    P.AgentsUntouched(s.pairing.(browserAuth := s.pairing.browserAuth - {sid}), sid, sid);
  }

  /** No event but a hello gives a code to anybody. */
  lemma HeldShrinks(w: World, e: Event)
    requires !e.AgentHello?
    ensures var held, held' := w.server.pairing.agentTokens, ServerStep(w, e).pairing.agentTokens;
            forall x :: x in held' ==> x in held && held'[x] == held[x]
  {
    if Bystander(e) {
      BystanderPairing(w, e);
      hide ServerStep;
    } else if e.BrowserHello? || e.BrowserPair? {
      PairAgents(w, e);
      hide ServerStep;
    } else if e.Restart? {
      hide Sweep;
    } else {
      var s := if e.StopWakes? then w.server.(stops := w.server.stops - multiset{e.stop}) else w.server;
      CloseTokens(s, if e.StopWakes? then e.stop.sid else e.sid);
      hide OnDisconnect;
    }
  }

  lemma HelloHeld(w: World, e: Event)
    requires e.AgentHello?
    ensures var held := w.server.pairing.agentTokens;
            ServerStep(w, e).pairing.agentTokens == if Admits(w, e, e.code) then held[e.sid := e.code] else held
  {
    HelloPairing(w.server, e.sid, e.ip, e.code, e.multi, e.order, w.now, w.today);
    AcceptHolds(w.server.pairing, e.sid, e.code, e.multi, e.order);
    hide OnAgentHello, HelloReplyOf, P.Accept;
  }

  /**
   With at most one holder of every code before an event, there is at most one
   after it iff the event is no accepted hello for a live code.
   */
  lemma StepSharesIff(w: World, e: Event, rules: Rules)
    requires Enabled(w, e, rules) && rules.oneHello
    requires PairingOk(w.server.pairing, w.roles, w.helloed, rules.patient)
    requires OneHolder(w.server.pairing.agentTokens)
    ensures OneHolder(ServerStep(w, e).pairing.agentTokens) <==> !Doubles(w, e)
  {
    var held := w.server.pairing.agentTokens;
    if e.AgentHello? {
      HelloHeld(w, e);
      LiveIsHeld(w.server, e.code);
      assert e.sid !in held;
      hide ServerStep, HeldLive, Admits;
      NewHolder(held, e.sid, e.code);
    } else {
      HeldShrinks(w, e);
      hide ServerStep;
    }
  }

  lemma NewHolder(held: map<Sid, Code>, a: Sid, code: Code)
    requires OneHolder(held) && a !in held
    ensures OneHolder(held[a := code]) <==> !P.Live(held, code)
  {
    if P.Live(held, code) {
      var x :| x in held && held[x] == code;
      assert held[a := code][x] == held[a := code][a];
    }
  }

  // ------------------------------------------------------------------
  // How a live code loses its lock

  /** The event charges or frees the lock of a code although an agent that holds it stays connected. */
  predicate Frees(e: Event, code: Code) {
    (e.AdminKick? && e.code == code && e.holder.Some?) || (e.TimerWakes? && e.timer.code == code)
  }

  ghost predicate InUseLive(s: State, code: Code) {
    code in s.tokens && s.tokens[code].inUse && P.Live(s.pairing.agentTokens, code)
  }

  ghost predicate FreeLive(s: State, code: Code) {
    code in s.tokens && !s.tokens[code].inUse && P.Live(s.pairing.agentTokens, code)
  }

  /** The event closes the socket of a holder of the code while another holder stays. */
  ghost predicate LosesHolder(held: map<Sid, Code>, e: Event, code: Code) {
    match Closed(e)
    case None => false
    case Some(sid) => sid in held && held[sid] == code && P.Live(held - {sid}, code)
  }

  /** Nobody plays two roles. */
  ghost predicate Apart(w: World) {
    && P.Wired(w.server.pairing)
    && All(w.server.pairing.agents, w.roles, Agent)
    && All(w.server.desk.controllers, w.roles, Controller)
  }

  lemma CloseOnHolder(s: State, sid: Sid)
    requires s.pairing.agents == s.pairing.agentTokens.Keys && (sid in s.pairing.agents ==> sid !in s.desk.controllers)
    ensures var held, t := s.pairing.agentTokens, OnDisconnect(s, sid);
            && t.pairing.agentTokens == held - {sid}
            && t.tokens == if sid in held then BurnCode(s.tokens, held[sid]) else s.tokens
  {
    hide OnDisconnect, BurnCode, P.AgentGone, P.BrowserGone;
    CloseByRole(s, sid);
    P.AgentsUntouched(s.pairing.(browserAuth := s.pairing.browserAuth - {sid}), sid, sid);
    if sid !in s.pairing.agentTokens {
      assert s.pairing.agentTokens - {sid} == s.pairing.agentTokens;
    }
  }

  lemma CloseFreesIff(s: State, sid: Sid, code: Code)
    requires s.pairing.agents == s.pairing.agentTokens.Keys && (sid in s.pairing.agents ==> sid !in s.desk.controllers)
    requires InUseLive(s, code) && LockFits(s.tokens[code])
    ensures var held := s.pairing.agentTokens;
            FreeLive(OnDisconnect(s, sid), code) <==>
              sid in held && held[sid] == code && P.Live(held - {sid}, code)
  {
    var held := s.pairing.agentTokens;
    CloseOnHolder(s, sid);
    if sid in held {
      BurnFrees(s.tokens, held[sid], code);
    }
    hide OnDisconnect, BurnCode, P.Live;
  }

  lemma ClosingFrees(w: World, e: Event, code: Code)
    requires (e.Close? || e.StopWakes?) && Apart(w) && InUseLive(w.server, code) && LockFits(w.server.tokens[code])
    ensures FreeLive(ServerStep(w, e), code) <==> LosesHolder(w.server.pairing.agentTokens, e, code)
  {
    hide OnDisconnect, P.Live;
    if e.Close? {
      CloseFreesIff(w.server, e.sid, code);
    } else {
      CloseFreesIff(w.server.(stops := w.server.stops - multiset{e.stop}), e.stop.sid, code);
    }
  }

  lemma HelloUnlocks(w: World, e: Event, code: Code)
    requires e.AgentHello? && InUseLive(w.server, code)
    ensures !FreeLive(ServerStep(w, e), code)
  {
    HelloOnTokens(w.server, e.sid, e.ip, e.code, e.multi, e.order, w.now, w.today);
    LiveIsHeld(w.server, code);
    hide OnAgentHello, HelloReplyOf, HeldLive, P.Live, Limiter.IsBlocked, Expired;
  }

  lemma BurnFrees(tokens: TokenFile, burnt: Code, code: Code)
    requires code in tokens && tokens[code].inUse && LockFits(tokens[code])
    ensures code in BurnCode(tokens, burnt) && (BurnCode(tokens, burnt)[code].inUse <==> burnt != code)
  {
  }

  lemma BurningTokens(w: World, e: Event)
    requires e.AdminKick? || e.TimerWakes?
    ensures ServerStep(w, e).tokens ==
            if e.TimerWakes? then BurnCode(w.server.tokens, e.timer.code)
            else if e.holder.Some? && e.holder.value in w.server.pairing.agents then BurnCode(w.server.tokens, e.code)
            else w.server.tokens
  {
    hide BurnCode;
  }

  lemma BurnsUnlock(w: World, e: Event, rules: Rules, code: Code)
    requires (e.AdminKick? || e.TimerWakes?) && Enabled(w, e, rules)
    requires P.Wired(w.server.pairing) && InUseLive(w.server, code) && LockFits(w.server.tokens[code])
    ensures FreeLive(ServerStep(w, e), code) <==> Frees(e, code)
  {
    BystanderPairing(w, e);
    BurningTokens(w, e);
    BurnFrees(w.server.tokens, if e.AdminKick? then e.code else e.timer.code, code);
    assert e.AdminKick? && e.holder.Some? ==> e.holder.value in w.server.pairing.agents;
    hide ServerStep, BurnCode, P.Live, P.Wired, LockFits;
  }

  lemma SweepsUnlockNone(w: World, e: Event, code: Code)
    requires e.SweepOrphans? || e.Restart?
    requires InUseLive(w.server, code)
    ensures !FreeLive(ServerStep(w, e), code)
  {
    LiveIsHeld(w.server, code);
    hide Clear;
  }

  /**
   A live code in use is live and not in use after an event iff the event is a
   kick that found a holder of the code, a timer of the code waking, or the
   closing of one holder's socket while another holder stays.
   */
  lemma StepFreesIff(w: World, e: Event, rules: Rules, code: Code)
    requires Enabled(w, e, rules) && Apart(w) && Healthy(w.server.tokens)
    requires InUseLive(w.server, code)
    ensures FreeLive(ServerStep(w, e), code) <==> Frees(e, code) || LosesHolder(w.server.pairing.agentTokens, e, code)
  {
    assert LockFits(w.server.tokens[code]);
    NoneCloses(w.server.pairing.agentTokens, e, code);
    assert P.Wired(w.server.pairing);
    hide Apart, P.Wired, Healthy, InUseLive, FreeLive, LockFits, LosesHolder;
    if LeavesTokens(e) {
      QuietUnlocksNone(w, e, code);
    } else {
      match e
      case AgentHello(_, _, _, _, _) => HelloUnlocks(w, e, code);
      case Close(_) => ClosingFrees(w, e, code);
      case StopWakes(_) => ClosingFrees(w, e, code);
      case AdminKick(_, _) => BurnsUnlock(w, e, rules, code);
      case TimerWakes(_) => BurnsUnlock(w, e, rules, code);
      case SweepOrphans => SweepsUnlockNone(w, e, code);
      case Restart => SweepsUnlockNone(w, e, code);
    }
  }

  lemma NoneCloses(held: map<Sid, Code>, e: Event, code: Code)
    ensures !(e.Close? || e.StopWakes?) ==> !LosesHolder(held, e, code)
  {
  }

  /** With one holder there is no other to stay. */
  lemma OnlyHolder(held: map<Sid, Code>, e: Event, code: Code)
    requires OneHolder(held)
    ensures !LosesHolder(held, e, code)
  {
  }

  lemma QuietUnlocksNone(w: World, e: Event, code: Code)
    requires LeavesTokens(e) && InUseLive(w.server, code)
    ensures !FreeLive(ServerStep(w, e), code)
  {
    QuietEvents(w, e);
    hide ServerStep;
  }

  // ------------------------------------------------------------------
  // Runs

  /** Every live code is in use, by exactly one agent. */
  ghost predicate Single(s: State) {
    && OneHolder(s.pairing.agentTokens)
    && forall c :: P.Live(s.pairing.agentTokens, c) ==> InUseLive(s, c)
  }

  /** The event frees the lock of a code that somebody holds. */
  predicate Disturbs(w: World, e: Event) {
    (e.AdminKick? && e.holder.Some?) || (e.TimerWakes? && HeldLive(w.server, e.timer.code))
  }

  /** A run without such an event. */
  predicate Calm(w: World, es: seq<Event>)
    decreases |es|
  {
    es == [] || (!Disturbs(w, es[0]) && Calm(Step(w, es[0]), es[1..]))
  }

  lemma CalmStep(w: World, e: Event, rules: Rules)
    requires Enabled(w, e, rules) && rules.oneHello && !Disturbs(w, e)
    requires PairingOk(w.server.pairing, w.roles, w.helloed, rules.patient)
    requires All(w.server.desk.controllers, w.roles, Controller)
    requires Healthy(w.server.tokens) && Single(w.server)
    ensures Single(ServerStep(w, e))
  {
    var s, s' := w.server, ServerStep(w, e);
    NoDoubling(w, e);
    StepSharesIff(w, e, rules);
    forall c | P.Live(s'.pairing.agentTokens, c)
      ensures InUseLive(s', c)
    {
      StaysInUse(w, e, rules, c);
    }
    hide ServerStep, Disturbs, Doubles, Healthy, P.Live, InUseLive;
  }

  /** Where every live code is in use no hello doubles one. */
  lemma NoDoubling(w: World, e: Event)
    requires Single(w.server)
    ensures !Doubles(w, e)
  {
    if e.AgentHello? {
      DoublesIff(w, e);
    }
    hide Admits, HeldLive, P.Live, Limiter.IsBlocked, Unusable;
  }

  lemma StaysInUse(w: World, e: Event, rules: Rules, code: Code)
    requires Enabled(w, e, rules) && rules.oneHello && !Disturbs(w, e)
    requires PairingOk(w.server.pairing, w.roles, w.helloed, rules.patient)
    requires All(w.server.desk.controllers, w.roles, Controller)
    requires Healthy(w.server.tokens) && Single(w.server)
    requires P.Live(ServerStep(w, e).pairing.agentTokens, code)
    ensures InUseLive(ServerStep(w, e), code)
  {
    var s := w.server;
    if P.Live(s.pairing.agentTokens, code) {
      StepOnToken(w, e, code);
      StepFreesIff(w, e, rules, code);
      OnlyHolder(s.pairing.agentTokens, e, code);
      LiveIsHeld(s, code);
      assert FreeLive(ServerStep(w, e), code) || InUseLive(ServerStep(w, e), code);
      hide ServerStep, Healthy, P.Live, HeldLive, Entered, LosesHolder;
    } else {
      NewlyLive(w, e, code);
    }
  }

  lemma NewlyLive(w: World, e: Event, code: Code)
    requires !P.Live(w.server.pairing.agentTokens, code)
    requires P.Live(ServerStep(w, e).pairing.agentTokens, code)
    ensures InUseLive(ServerStep(w, e), code)
  {
    if e.AgentHello? {
      HelloHeld(w, e);
      HelloOnTokens(w.server, e.sid, e.ip, e.code, e.multi, e.order, w.now, w.today);
      hide OnAgentHello, HelloReplyOf, HeldLive, Limiter.IsBlocked, Expired;
    } else {
      HeldShrinks(w, e);
      hide ServerStep;
    }
  }

  /** At some point of the run a code has two holders. */
  ghost predicate EverShared(w: World, es: seq<Event>)
    decreases |es|
  {
    !OneHolder(w.server.pairing.agentTokens) || (es != [] && EverShared(Step(w, es[0]), es[1..]))
  }

  lemma {:induction false} CalmRun(w: World, es: seq<Event>, rules: Rules)
    requires Valid(w, es, rules) && rules.oneHello && Calm(w, es)
    requires PairingOk(w.server.pairing, w.roles, w.helloed, rules.patient) && WorldDeskOk(w, rules.oneAccept)
    requires Healthy(w.server.tokens) && Single(w.server)
    ensures Single(Run(w, es).server) && !EverShared(w, es)
    decreases |es|
  {
    SingleIsOne(w.server);
    hide Enabled, ServerStep, RolesAfter, HelloedAfter, EndsAfter, OpenerAfter, SpentAfter, LastFailAfter,
         FailsAfter, SessionAfter,
         PairingOk, DeskOk, Healthy, Single, OneHolder, Disturbs;
    if es != [] {
      SeatsStay(w, es[0], rules);
      StepKeepsHealthy(w, es[0]);
      ControllersSeated(w, rules.oneAccept);
      CalmStep(w, es[0], rules);
      CalmRun(Step(w, es[0]), es[1..], rules);
    }
  }

  lemma SingleIsOne(s: State)
    requires Single(s)
    ensures OneHolder(s.pairing.agentTokens)
  {
  }

  lemma SeatsStay(w: World, e: Event, rules: Rules)
    requires Enabled(w, e, rules) && rules.oneHello
    requires PairingOk(w.server.pairing, w.roles, w.helloed, rules.patient) && WorldDeskOk(w, rules.oneAccept)
    ensures var v := Step(w, e);
            PairingOk(v.server.pairing, v.roles, v.helloed, rules.patient) && WorldDeskOk(v, rules.oneAccept)
  {
    hide Enabled, ServerStep, RolesAfter, HelloedAfter, EndsAfter, OpenerAfter, SpentAfter, LastFailAfter,
         FailsAfter, SessionAfter, PairingOk;
    StepKeepsPairing(w, e, rules);
    StepKeepsDesk(w, e, rules);
  }

  /** Some hello of the run takes a live code. */
  predicate EverDoubles(w: World, es: seq<Event>)
    decreases |es|
  {
    es != [] && (Doubles(w, es[0]) || EverDoubles(Step(w, es[0]), es[1..]))
  }

  lemma {:induction false} SharedIff(w: World, es: seq<Event>, rules: Rules)
    requires Valid(w, es, rules) && rules.oneHello
    requires PairingOk(w.server.pairing, w.roles, w.helloed, rules.patient) && WorldDeskOk(w, rules.oneAccept)
    requires OneHolder(w.server.pairing.agentTokens)
    ensures EverShared(w, es) <==> EverDoubles(w, es)
    decreases |es|
  {
    hide Enabled, ServerStep, RolesAfter, HelloedAfter, EndsAfter, OpenerAfter, SpentAfter, LastFailAfter,
         FailsAfter, SessionAfter,
         PairingOk, DeskOk, OneHolder, Doubles;
    if es != [] {
      SeatsStay(w, es[0], rules);
      StepSharesIff(w, es[0], rules);
      if !Doubles(w, es[0]) {
        SharedIff(Step(w, es[0]), es[1..], rules);
      }
    }
  }
}
