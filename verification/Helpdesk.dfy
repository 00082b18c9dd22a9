/** In every run the remote-control tables match up and sessions belong to who opened them. */
module Helpdesk {
  import opened Basics
  import opened Tokens
  import opened Relay
  import opened World
  import opened Seating
  import Limiter
  import P = Pairing
  import C = Control

  /** The desk in a reachable state; `once` adds what needs the one-accept rule. */
  ghost predicate DeskOk(d: C.Desk, roles: map<Sid, Role>, opener: map<Sid, Sid>, spent: set<Sid>, once: bool) {
    && C.Matched(d)
    && C.ActivatedByOwn(d, opener)
    && DeskSeated(d, roles)
    && (once ==> C.ActiveIsAssigned(d, spent))
  }

  ghost predicate WorldDeskOk(w: World, once: bool) {
    && DeskOk(w.server.desk, w.roles, w.opener, w.spent, once)
    && All(w.server.pairing.agents, w.roles, Agent)
  }

  // ------------------------------------------------------------------
  // Who is connected as an agent

  lemma AcceptAgents(p: P.Tables, a: Sid, code: Code, multi: bool, order: seq<Sid>)
    ensures P.Accept(p, a, code, multi, order).agents == p.agents + {a}
  {
    P.DrainPairsWinners(P.Enrol(p, a, code, multi), a, multi, order);
  }

  lemma CloseAgents(s: State, sid: Sid, roles: map<Sid, Role>)
    requires All(s.pairing.agents, roles, Agent) && All(s.desk.controllers, roles, Controller)
    ensures All(OnDisconnect(s, sid).pairing.agents, roles - {sid}, Agent)
  {
    hide BurnCode, P.Of, P.Leave, P.Without, C.ControllerGone, C.EndByBrowser;
  }

  lemma HelloAgents(w: World, e: Event)
    requires e.AgentHello? && All(w.server.pairing.agents, w.roles, Agent) && Is(w, e.sid, Agent)
    ensures All(ServerStep(w, e).pairing.agents, w.roles, Agent)
  {
    HelloPairing(w.server, e.sid, e.ip, e.code, e.multi, e.order, w.now, w.today);
    AcceptAgents(w.server.pairing, e.sid, e.code, e.multi, e.order);
    hide OnAgentHello, P.Accept, HelloReplyOf;
  }

  lemma HelloAgentsStay(s: State, b: Sid)
    ensures OnBrowserHello(s, b).pairing.agents == s.pairing.agents
    ensures OnBrowserHello(s, b).pairing.agentTokens == s.pairing.agentTokens
  {
    P.AgentsUntouched(s.pairing.(browserAuth := s.pairing.browserAuth + {b}), b, b);
    hide P.UnpairBrowser;
  }

  lemma PairAgentsStay(s: State, b: Sid, ip: Ip, code: Code, holder: Option<Sid>, now: real, today: int)
    ensures OnBrowserPair(s, b, ip, code, holder, now, today).pairing.agents == s.pairing.agents
    ensures OnBrowserPair(s, b, ip, code, holder, now, today).pairing.agentTokens == s.pairing.agentTokens
  {
    hide PairReplyOf, P.Of, Limiter.RecordFailure;
  }

  lemma PairAgents(w: World, e: Event)
    requires e.BrowserHello? || e.BrowserPair?
    ensures ServerStep(w, e).pairing.agents == w.server.pairing.agents
    ensures ServerStep(w, e).pairing.agentTokens == w.server.pairing.agentTokens
  {
    hide OnBrowserHello, OnBrowserPair;
    match e
    case BrowserHello(b) => HelloAgentsStay(w.server, b);
    case BrowserPair(b, ip, code, holder) => PairAgentsStay(w.server, b, ip, code, holder, w.now, w.today);
  }

  lemma StepKeepsAgents(w: World, e: Event, rules: Rules)
    requires Enabled(w, e, rules)
    requires All(w.server.pairing.agents, w.roles, Agent) && All(w.server.desk.controllers, w.roles, Controller)
    ensures All(ServerStep(w, e).pairing.agents, RolesAfter(w, e), Agent)
  {
    if Bystander(e) {
      BystanderPairing(w, e);
      hide ServerStep;
    } else if e.AgentHello? {
      HelloAgents(w, e);
      hide ServerStep;
    } else if e.BrowserHello? || e.BrowserPair? {
      PairAgents(w, e);
      hide ServerStep;
    } else if e.Restart? {
      hide Sweep;
    } else {
      CloseKeepsAgents(w, e);
      hide ServerStep;
    }
  }

  lemma CloseKeepsAgents(w: World, e: Event)
    requires e.Close? || e.StopWakes?
    requires All(w.server.pairing.agents, w.roles, Agent) && All(w.server.desk.controllers, w.roles, Controller)
    ensures All(ServerStep(w, e).pairing.agents, RolesAfter(w, e), Agent)
  {
    hide OnDisconnect;
    if e.Close? { CloseAgents(w.server, e.sid, w.roles); }
    else { CloseAgents(w.server.(stops := w.server.stops - multiset{e.stop}), e.stop.sid, w.roles); }
  }

  // ------------------------------------------------------------------
  // The desk

  lemma ControllerCloses(d: C.Desk, c: Sid, roles: map<Sid, Role>, opener: map<Sid, Sid>, spent: set<Sid>, once: bool)
    requires DeskOk(d, roles, opener, spent, once) && c in d.controllers
    ensures DeskOk(C.ControllerGone(d, c), roles - {c}, opener, spent, once)
  {
    C.EndsKeep(d, c, opener, spent);
    assert DeskSeated(C.ControllerGone(d, c), roles - {c});
    hide C.Matched, C.ActivatedByOwn, C.ActiveIsAssigned, C.ControllerGone;
  }

  lemma BrowserCloses(d: C.Desk, b: Sid, roles: map<Sid, Role>, opener: map<Sid, Sid>, spent: set<Sid>, once: bool)
    requires DeskOk(d, roles, opener, spent, once) && b !in d.controllers
    ensures DeskOk(C.EndByBrowser(d, b), roles - {b}, opener, spent, once)
  {
    C.EndsKeep(d, b, opener, spent);
    assert DeskSeated(C.EndByBrowser(d, b), roles - {b});
    hide C.Matched, C.ActivatedByOwn, C.ActiveIsAssigned, C.EndByBrowser;
  }

  lemma BrowserEnds(d: C.Desk, b: Sid, roles: map<Sid, Role>, opener: map<Sid, Sid>, spent: set<Sid>, once: bool)
    requires DeskOk(d, roles, opener, spent, once)
    ensures DeskOk(C.EndByBrowser(d, b), roles, opener, spent, once)
  {
    C.EndsKeep(d, b, opener, spent);
    assert DeskSeated(C.EndByBrowser(d, b), roles);
    hide C.Matched, C.ActivatedByOwn, C.ActiveIsAssigned, C.EndByBrowser;
  }

  lemma AgentCloses(d: C.Desk, a: Sid, roles: map<Sid, Role>, opener: map<Sid, Sid>, spent: set<Sid>, once: bool)
    requires DeskOk(d, roles, opener, spent, once) && (a !in roles || roles[a] == Agent)
    ensures DeskOk(d, roles - {a}, opener, spent, once)
  {
    hide C.Matched, C.ActivatedByOwn, C.ActiveIsAssigned;
  }

  lemma CloseDesk(s: State, sid: Sid, roles: map<Sid, Role>, opener: map<Sid, Sid>, spent: set<Sid>, once: bool)
    requires DeskOk(s.desk, roles, opener, spent, once) && All(s.pairing.agents, roles, Agent)
    ensures DeskOk(OnDisconnect(s, sid).desk, roles - {sid}, opener, spent, once)
  {
    hide BurnCode, P.AgentGone, P.BrowserGone, C.ControllerGone, C.EndByBrowser,
         C.Matched, C.ActivatedByOwn, C.ActiveIsAssigned;
    if sid in s.desk.controllers { ControllerCloses(s.desk, sid, roles, opener, spent, once); }
    else if sid in s.pairing.agents { AgentCloses(s.desk, sid, roles, opener, spent, once); }
    else {
      BrowserCloses(s.desk, sid, roles, opener, spent, once);
    }
  }

  lemma Registers(d: C.Desk, c: Sid, code: Code, roles: map<Sid, Role>, opener: map<Sid, Sid>, spent: set<Sid>,
          once: bool)
    requires DeskOk(d, roles, opener, spent, once) && c in roles && roles[c] == Controller
    ensures DeskOk(C.Register(d, c, code), roles, opener, spent, once)
  {
  }

  lemma Accepts(d: C.Desk, c: Sid, roles: map<Sid, Role>, opener: map<Sid, Sid>, spent: set<Sid>, once: bool)
    requires DeskOk(d, roles, opener, spent, once) && (once ==> c !in spent)
    ensures var (d', r) := C.Accept(d, c);
            DeskOk(d', roles, if r.Activated? then opener[r.browser := c] else opener, spent + {c}, once)
  {
    C.AcceptKeeps(d, c, opener, spent);
    hide C.ActivatedByOwn, C.ActiveIsAssigned;
  }

  lemma Requests(d: C.Desk, b: Sid, paired: bool, code: Option<Code>, pick: Option<Sid>, roles: map<Sid, Role>,
          opener: map<Sid, Sid>, spent: set<Sid>, once: bool)
    requires DeskOk(d, roles, opener, spent, once) && b in roles && roles[b] == Browser
    requires code.Some? ==> C.Pick(d, code.value, pick)
    ensures var (d', r) := C.Request(d, b, paired, code, pick);
            DeskOk(d', roles, opener, if r.Asked? then spent - {r.ctrl} else spent, once)
  {
    C.RequestKeeps(d, b, paired, code, pick, opener, spent);
    assert spent - {} == spent;
    hide C.Matched, C.ActivatedByOwn, C.ActiveIsAssigned;
  }

  lemma ControllerEnds(d: C.Desk, c: Sid, roles: map<Sid, Role>, opener: map<Sid, Sid>, spent: set<Sid>, once: bool)
    requires DeskOk(d, roles, opener, spent, once)
    ensures DeskOk(C.EndByController(d, c), roles, opener, spent, once)
  {
    C.EndsKeep(d, c, opener, spent);
    assert DeskSeated(C.EndByController(d, c), roles);
    hide C.Matched, C.ActivatedByOwn, C.ActiveIsAssigned, C.EndByController;
  }

  ghost predicate DeskAfterOk(w: World, e: Event, once: bool) {
    DeskOk(ServerStep(w, e).desk, RolesAfter(w, e), OpenerAfter(w, e), SpentAfter(w, e), once)
  }

  lemma DeskEvent(w: World, e: Event, rules: Rules)
    requires Enabled(w, e, rules) && WorldDeskOk(w, rules.oneAccept)
    requires e.ControllerHello? || e.ControllerAccept? || e.ControllerEnd? || e.RemoteRequest? || e.RemoteEnd?
    ensures DeskAfterOk(w, e, rules.oneAccept)
  {
    hide DeskOk, C.Accept, C.Request, C.Register, C.EndByBrowser, C.EndByController, CtrlReplyOf,
         Limiter.RecordFailure, CodeOf;
    var d := w.server.desk;
    match e
    case ControllerHello(c, _, code, _) =>
      Registers(d, c, code, w.roles, w.opener, w.spent, rules.oneAccept);
    case ControllerAccept(c) => Accepts(d, c, w.roles, w.opener, w.spent, rules.oneAccept);
    case ControllerEnd(c) => ControllerEnds(d, c, w.roles, w.opener, w.spent, rules.oneAccept);
    case RemoteRequest(b, pick) =>
      var paired := b in w.server.pairing.browserAgent;
      Requests(d, b, paired, CodeOf(w.server, b), pick, w.roles, w.opener, w.spent, rules.oneAccept);
    case RemoteEnd(b) =>
      BrowserEnds(d, b, w.roles, w.opener, w.spent, rules.oneAccept);
  }

  /** Events that leave the desk alone. */
  predicate OffDesk(e: Event) {
    !(e.ControllerHello? || e.ControllerAccept? || e.ControllerEnd? || e.RemoteRequest? || e.RemoteEnd?
      || e.Close? || e.StopWakes? || e.Restart?)
  }

  lemma OffDeskDesk(w: World, e: Event)
    requires OffDesk(e)
    ensures ServerStep(w, e).desk == w.server.desk
  {
    hide P.Accept, P.Pair, P.Enqueue, P.UnpairBrowser, HelloReplyOf, PairReplyOf, Admit, BurnCode, Sweep,
         Limiter.RecordFailure, Limiter.Cleanup;
  }

  lemma OffDeskKeeps(w: World, e: Event, rules: Rules)
    requires OffDesk(e) && Enabled(w, e, rules) && WorldDeskOk(w, rules.oneAccept)
    ensures DeskAfterOk(w, e, rules.oneAccept)
  {
    OffDeskDesk(w, e);
    hide ServerStep, C.Matched, C.ActivatedByOwn, C.ActiveIsAssigned;
  }

  lemma CloseKeepsDesk(w: World, e: Event, once: bool)
    requires (e.Close? || e.StopWakes?) && WorldDeskOk(w, once)
    ensures DeskAfterOk(w, e, once)
  {
    hide OnDisconnect, DeskOk;
    if e.Close? {
      CloseDesk(w.server, e.sid, w.roles, w.opener, w.spent, once);
    } else {
      CloseDesk(w.server.(stops := w.server.stops - multiset{e.stop}), e.stop.sid, w.roles, w.opener, w.spent, once);
      if e.stop.sid !in w.roles { assert w.roles - {e.stop.sid} == w.roles; }
    }
  }

  lemma ClosedDesk(opener: map<Sid, Sid>, spent: set<Sid>, once: bool)
    ensures DeskOk(C.CLOSED, map[], opener, spent, once)
  {
  }

  lemma StepKeepsDesk(w: World, e: Event, rules: Rules)
    requires Enabled(w, e, rules) && WorldDeskOk(w, rules.oneAccept)
    ensures WorldDeskOk(Step(w, e), rules.oneAccept)
  {
    hide ServerStep, DeskOk;
    ControllersSeated(w, rules.oneAccept);
    StepKeepsAgents(w, e, rules);
    if OffDesk(e) {
      OffDeskKeeps(w, e, rules);
    } else if e.Close? || e.StopWakes? {
      CloseKeepsDesk(w, e, rules.oneAccept);
    } else if e.Restart? {
      RestartDesk(w, e, rules.oneAccept);
    } else {
      DeskEvent(w, e, rules);
    }
  }

  lemma ControllersSeated(w: World, once: bool)
    requires WorldDeskOk(w, once)
    ensures All(w.server.desk.controllers, w.roles, Controller)
  {
  }

  lemma RestartDesk(w: World, e: Event, once: bool)
    requires e.Restart?
    ensures DeskAfterOk(w, e, once)
  {
    ClosedDesk(w.opener, w.spent, once);
    hide Sweep, DeskOk;
  }

  // ------------------------------------------------------------------
  // Without the rule on repeated accepts

  /** Every active browser has a controller. */
  ghost predicate Assigned(d: C.Desk) { d.active <= d.browserCtrl.Keys }

  /** An accept of a controller whose browser is active already. */
  predicate Repeats(w: World, e: Event) {
    var d := w.server.desk;
    e.ControllerAccept? && e.sid in d.ctrlBrowser && d.ctrlBrowser[e.sid] in d.active
  }

  lemma EndsKeepAssigned(d: C.Desk, s: Sid)
    requires C.Matched(d) && Assigned(d)
    ensures Assigned(C.EndByController(d, s)) && Assigned(C.ControllerGone(d, s)) && Assigned(C.EndByBrowser(d, s))
  {
  }

  lemma AcceptStrandsIff(d: C.Desk, c: Sid)
    requires C.Matched(d) && Assigned(d)
    ensures Assigned(C.Accept(d, c).0) <==> !(c in d.ctrlBrowser && d.ctrlBrowser[c] in d.active)
  {
    var (d', r) := C.Accept(d, c);
    if r.Duplicate? { assert r.of in d'.active && r.of !in d'.browserCtrl; }
  }

  lemma DeskAfterClose(s: State, sid: Sid)
    ensures OnDisconnect(s, sid).desk ==
            if sid in s.desk.controllers then C.ControllerGone(s.desk, sid)
            else if sid in s.pairing.agents then s.desk
            else C.EndByBrowser(s.desk, sid)
  {
    hide BurnCode, P.AgentGone, P.BrowserGone, C.ControllerGone, C.EndByBrowser;
  }

  lemma DeskEventStrandsIff(w: World, e: Event)
    requires C.Matched(w.server.desk) && Assigned(w.server.desk)
    requires e.ControllerHello? || e.ControllerAccept? || e.ControllerEnd? || e.RemoteRequest? || e.RemoteEnd?
    ensures Assigned(ServerStep(w, e).desk) <==> !Repeats(w, e)
  {
    var d := w.server.desk;
    if e.ControllerAccept? {
      AcceptStrandsIff(d, e.sid);
      hide C.Accept, C.Matched;
    } else {
      EndsKeepAssigned(d, e.sid);
      hide C.Matched, C.EndByController, C.EndByBrowser, C.ControllerGone, CtrlReplyOf, CodeOf, Limiter.RecordFailure;
    }
  }

  lemma CloseKeepsAssigned(s: State, sid: Sid)
    requires C.Matched(s.desk) && Assigned(s.desk)
    ensures Assigned(OnDisconnect(s, sid).desk)
  {
    DeskAfterClose(s, sid);
    EndsKeepAssigned(s.desk, sid);
    hide OnDisconnect, C.Matched, C.ControllerGone, C.EndByBrowser;
  }

  /** If every active browser has a controller, this stays so over an event iff it is no repeated accept. */
  lemma StepStrandsIff(w: World, e: Event)
    requires C.Matched(w.server.desk) && Assigned(w.server.desk)
    ensures Assigned(ServerStep(w, e).desk) <==> !Repeats(w, e)
  {
    hide C.Matched, Assigned;
    if OffDesk(e) {
      OffDeskDesk(w, e);
      hide ServerStep;
    } else if e.Close? || e.StopWakes? {
      hide OnDisconnect;
      if e.Close? {
        CloseKeepsAssigned(w.server, e.sid);
      } else {
        CloseKeepsAssigned(w.server.(stops := w.server.stops - multiset{e.stop}), e.stop.sid);
      }
    } else if e.Restart? {
      ClosedIsAssigned();
      hide Sweep;
    } else {
      DeskEventStrandsIff(w, e);
      hide ServerStep;
    }
  }

  lemma ClosedIsAssigned()
    ensures Assigned(C.CLOSED)
  {
  }

  /** At some point of the run a browser is active without a controller. */
  ghost predicate EverStranded(w: World, es: seq<Event>)
    decreases |es|
  {
    !Assigned(w.server.desk) || (es != [] && EverStranded(Step(w, es[0]), es[1..]))
  }

  /** Some accept of the run is repeated. */
  predicate EverRepeats(w: World, es: seq<Event>)
    decreases |es|
  {
    es != [] && (Repeats(w, es[0]) || EverRepeats(Step(w, es[0]), es[1..]))
  }

  lemma {:induction false} StrandedIff(w: World, es: seq<Event>, rules: Rules)
    requires Valid(w, es, rules) && WorldDeskOk(w, rules.oneAccept) && Assigned(w.server.desk)
    ensures EverStranded(w, es) <==> EverRepeats(w, es)
    decreases |es|
  {
    hide Enabled, ServerStep, RolesAfter, HelloedAfter, EndsAfter, OpenerAfter, SpentAfter, LastFailAfter,
         FailsAfter, SessionAfter,
         WorldDeskOk, Assigned, Repeats;
    if es != [] {
      DeskIsMatched(w, rules.oneAccept);
      StepKeepsDesk(w, es[0], rules);
      StepStrandsIff(w, es[0]);
      if !Repeats(w, es[0]) {
        StrandedIff(Step(w, es[0]), es[1..], rules);
      }
    }
  }

  lemma DeskIsMatched(w: World, once: bool)
    requires WorldDeskOk(w, once)
    ensures C.Matched(w.server.desk)
  {
  }
}
