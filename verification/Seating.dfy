/** In every run the pairing tables agree with each other, and agents, paired and waiting browsers are open sockets. */
module Seating {
  import opened Basics
  import opened Tokens
  import opened Relay
  import opened World
  import Limiter
  import P = Pairing
  import C = Control

  ghost predicate All(s: set<Sid>, roles: map<Sid, Role>, role: Role) {
    forall x :: x in s ==> x in roles && roles[x] == role
  }

  /** Agents, paired and waiting browsers are open sockets and play their roles. */
  ghost predicate Seated(p: P.Tables, roles: map<Sid, Role>, helloed: set<Sid>) {
    && p.agents <= helloed
    && All(helloed, roles, Agent)
    && All(p.browserAuth, roles, Browser)
    && All(p.browserAgent.Keys, roles, Browser)
    && (forall c :: All(P.Of(p.pending, c), roles, Browser))
  }

  /** Every socket named on the remote-control desk is open and plays its role. */
  ghost predicate DeskSeated(d: C.Desk, roles: map<Sid, Role>) {
    && All(d.controllers, roles, Controller)
    && All(d.browserCtrl.Keys, roles, Browser)
    && All(d.active, roles, Browser)
  }

  ghost predicate PairingOk(p: P.Tables, roles: map<Sid, Role>, helloed: set<Sid>, exact: bool) {
    && P.Wired(p)
    && Seated(p, roles, helloed)
    && (exact ==> P.Exact(p))
  }

  ghost predicate Kept(w: World, e: Event, exact: bool) {
    PairingOk(ServerStep(w, e).pairing, RolesAfter(w, e), HelloedAfter(w, e), exact)
  }

  lemma SeatedAfterClose(p: P.Tables, p': P.Tables, roles: map<Sid, Role>, helloed: set<Sid>, sid: Sid)
    requires Seated(p, roles, helloed)
    requires p'.agents <= p.agents - {sid} && p'.browserAuth <= p.browserAuth - {sid}
    requires p'.browserAgent.Keys <= p.browserAgent.Keys - {sid}
    requires forall c :: P.Of(p'.pending, c) <= P.Of(p.pending, c) - {sid}
    ensures Seated(p', roles - {sid}, helloed - {sid})
  {
    forall c ensures All(P.Of(p'.pending, c), roles - {sid}, Browser) {
      assert All(P.Of(p.pending, c), roles, Browser);
    }
  }

  lemma ForgetAuth(p: P.Tables, sid: Sid)
    requires P.Wired(p)
    ensures var q := p.(browserAuth := p.browserAuth - {sid});
            P.Wired(q) && (P.Exact(p) ==> P.Exact(q))
  {
  }

  lemma AgentCloseKeeps(p: P.Tables, sid: Sid, roles: map<Sid, Role>, helloed: set<Sid>, exact: bool)
    requires PairingOk(p, roles, helloed, exact) && sid in p.agents && sid !in p.browserAuth
    ensures PairingOk(P.AgentGone(p, sid), roles - {sid}, helloed - {sid}, exact)
  {
    P.AgentGoneKeeps(p, sid);
    NotSeatedElsewhere(p, roles, helloed, sid);
    SeatedAfterClose(p, P.AgentGone(p, sid), roles, helloed, sid);
    hide P.Wired, P.Exact, Seated, P.Of;
  }

  lemma BrowserCloseKeeps(p: P.Tables, sid: Sid, roles: map<Sid, Role>, helloed: set<Sid>, exact: bool)
    requires PairingOk(p, roles, helloed, exact) && sid !in p.agents && sid !in p.browserAuth
    ensures PairingOk(P.BrowserGone(p, sid), roles - {sid}, helloed - {sid}, exact)
  {
    P.BrowserGoneKeeps(p, sid);
    P.WithoutDrops(p.pending, sid);
    hide P.Wired, P.Exact, P.Leave, P.Of;
    SeatedAfterClose(p, P.BrowserGone(p, sid), roles, helloed, sid);
  }

  lemma CloseKeeps(s: State, sid: Sid, roles: map<Sid, Role>, helloed: set<Sid>, exact: bool)
    requires PairingOk(s.pairing, roles, helloed, exact) && DeskSeated(s.desk, roles)
    ensures PairingOk(OnDisconnect(s, sid).pairing, roles - {sid}, helloed - {sid}, exact)
  {
    hide C.ControllerGone, C.EndByBrowser, BurnCode, P.Wired, P.Exact, P.AgentGone, P.BrowserGone, P.Of;
    var p := s.pairing.(browserAuth := s.pairing.browserAuth - {sid});
    ForgetAuth(s.pairing, sid);
    assert PairingOk(p, roles, helloed, exact);
    if sid in s.desk.controllers {
      NotSeatedElsewhere(s.pairing, roles, helloed, sid);
      SeatedAfterClose(s.pairing, p, roles, helloed, sid);
    } else if sid in s.pairing.agents {
      AgentCloseKeeps(p, sid, roles, helloed, exact);
    } else {
      BrowserCloseKeeps(p, sid, roles, helloed, exact);
    }
  }

  /** A controller's or agent's socket is in no browser table. */
  lemma NotSeatedElsewhere(p: P.Tables, roles: map<Sid, Role>, helloed: set<Sid>, sid: Sid)
    requires Seated(p, roles, helloed) && sid in roles && roles[sid] != Browser
    ensures sid !in p.browserAuth && sid !in p.browserAgent
    ensures forall c :: sid !in P.Of(p.pending, c)
    ensures roles[sid] == Controller ==> sid !in p.agents
  {
    forall c ensures sid !in P.Of(p.pending, c) {
      assert All(P.Of(p.pending, c), roles, Browser);
    }
  }

  lemma HelloKeeps(w: World, e: Event, exact: bool)
    requires e.AgentHello? && PairingOk(w.server.pairing, w.roles, w.helloed, exact)
    requires Is(w, e.sid, Agent) && e.sid !in w.helloed
    requires P.Lists(e.order, P.Of(w.server.pairing.pending, e.code))
    ensures Kept(w, e, exact)
  {
    var p := w.server.pairing;
    var q := P.Accept(p, e.sid, e.code, e.multi, e.order);
    P.AcceptKeeps(p, e.sid, e.code, e.multi, e.order);
    AcceptSeats(p, e.sid, e.code, e.multi, e.order, w.roles, w.helloed);
    HelloPairing(w.server, e.sid, e.ip, e.code, e.multi, e.order, w.now, w.today);
    hide OnAgentHello, P.Accept, P.Wired, P.Exact;
    assert Seated(p, w.roles, w.helloed + {e.sid});
  }

  lemma HelloPairing(s: State, a: Sid, ip: Ip, code: Code, multi: bool, order: seq<Sid>, now: real, today: int)
    ensures OnAgentHello(s, a, ip, code, multi, order, now, today).pairing
         == if HelloReplyOf(s, ip, code, now, today).Accepted? then P.Accept(s.pairing, a, code, multi, order)
            else s.pairing
  {
    hide P.Accept, Limiter.RecordFailure, Limiter.RecordSuccess, HelloReplyOf;
  }

  lemma AcceptSeats(p: P.Tables, a: Sid, code: Code, multi: bool, order: seq<Sid>, roles: map<Sid, Role>,
          helloed: set<Sid>)
    requires Seated(p, roles, helloed) && a in roles && roles[a] == Agent
    requires P.Lists(order, P.Of(p.pending, code))
    ensures Seated(P.Accept(p, a, code, multi, order), roles, helloed + {a})
  {
    var e := P.Enrol(p, a, code, multi);
    P.DrainPairsWinners(e, a, multi, order);
    var w := P.Winners(e, a, multi, order);
    assert forall b :: b in w ==> b in P.Of(p.pending, code);
    assert All(P.Of(p.pending, code), roles, Browser);
    forall c ensures All(P.Of(e.pending, c), roles, Browser) {
      assert All(P.Of(p.pending, c), roles, Browser);
    }
  }

  lemma WaitKeeps(p: P.Tables, b: Sid, code: Code, roles: map<Sid, Role>, helloed: set<Sid>, exact: bool)
    requires PairingOk(p, roles, helloed, exact) && b in roles && roles[b] == Browser
    requires b !in p.browserAgent && !P.Live(p.agentTokens, code)
    requires exact ==> !P.WaitsElsewhere(p.pending, b, code)
    ensures PairingOk(P.Enqueue(p, b, code), roles, helloed, exact)
  {
    P.EnqueueKeeps(p, b, code);
    EnqueueSeats(p, b, code, roles, helloed);
    if exact { P.EnqueueKeepsExact(p, b, code); }
    hide P.Wired, P.Exact, Seated, P.Enqueue;
  }

  lemma PairKeeps(p: P.Tables, b: Sid, code: Code, a: Sid, roles: map<Sid, Role>, helloed: set<Sid>, exact: bool)
    requires PairingOk(p, roles, helloed, exact) && b in roles && roles[b] == Browser
    requires b !in p.browserAgent && a in p.agentTokens && p.agentTokens[a] == code
    requires p.allowMulti[a] || P.Of(p.agentBrowser, a) == {}
    requires exact ==> !P.WaitsElsewhere(p.pending, b, code)
    ensures PairingOk(P.Pair(p, b, a), roles, helloed, exact)
  {
    if exact { NotWaiting(p, b, code); }
    P.PairKeeps(p, b, a);
    hide P.Wired, P.Exact, P.Of, P.PointsBack, P.WaitsElsewhere;
  }

  lemma PairRequestKeeps(w: World, e: Event, exact: bool)
    requires e.BrowserPair? && PairingOk(w.server.pairing, w.roles, w.helloed, exact)
    requires Is(w, e.sid, Browser) && P.Holder(w.server.pairing.agentTokens, e.code, e.holder)
    requires exact ==> !P.WaitsElsewhere(w.server.pairing.pending, e.sid, e.code)
    ensures Kept(w, e, exact)
  {
    hide P.Enqueue, P.Pair, P.Exact, P.PointsBack, P.WaitsElsewhere, Limiter.RecordFailure;
    var p := w.server.pairing;
    var reply := PairReplyOf(w.server, e.sid, e.ip, e.code, e.holder, w.now, w.today);
    if reply.PairWaiting? {
      WaitKeeps(p, e.sid, e.code, w.roles, w.helloed, exact);
    } else if reply.PairDone? {
      PairKeeps(p, e.sid, e.code, reply.agent, w.roles, w.helloed, exact);
    }
  }

  lemma EnqueueSeats(p: P.Tables, b: Sid, code: Code, roles: map<Sid, Role>, helloed: set<Sid>)
    requires Seated(p, roles, helloed) && b in roles && roles[b] == Browser
    ensures Seated(P.Enqueue(p, b, code), roles, helloed)
  {
    P.EnqueueKeepsQueue(p.pending, b, code);
    forall c ensures All(P.Of(P.Enqueue(p, b, code).pending, c), roles, Browser) {
      assert All(P.Of(p.pending, c), roles, Browser);
    }
  }

  /** A browser that may ask for a held code waits for nothing. */
  lemma NotWaiting(p: P.Tables, b: Sid, code: Code)
    requires P.Exact(p) && P.Live(p.agentTokens, code) && !P.WaitsElsewhere(p.pending, b, code)
    ensures forall c :: b !in P.Of(p.pending, c)
  {
  }

  lemma AuthKeeps(p: P.Tables, b: Sid, roles: map<Sid, Role>, helloed: set<Sid>, exact: bool)
    requires PairingOk(p, roles, helloed, exact) && b in roles && roles[b] == Browser
    ensures PairingOk(p.(browserAuth := p.browserAuth + {b}), roles, helloed, exact)
  {
    hide P.Of;
  }

  /** The repair branch of `browser_hello` finds nothing to repair. */
  lemma BrowserHelloRepairsNothing(s: State, b: Sid)
    requires P.Wired(s.pairing)
    ensures OnBrowserHello(s, b) == s.(pairing := s.pairing.(browserAuth := s.pairing.browserAuth + {b}))
  {
    var p := s.pairing;
    assert b in p.browserAgent ==> b in P.Of(p.agentBrowser, p.browserAgent[b]);
  }

  lemma BrowserHelloKeeps(w: World, e: Event, exact: bool)
    requires e.BrowserHello? && PairingOk(w.server.pairing, w.roles, w.helloed, exact) && Is(w, e.sid, Browser)
    ensures Kept(w, e, exact)
  {
    BrowserHelloRepairsNothing(w.server, e.sid);
    AuthKeeps(w.server.pairing, e.sid, w.roles, w.helloed, exact);
    hide OnBrowserHello, P.Exact, P.Wired, Seated;
  }

  /** Events that leave the pairing tables and the open sockets as they are, or only open one. */
  predicate Bystander(e: Event) {
    !(e.AgentHello? || e.BrowserHello? || e.BrowserPair? || e.Close? || e.StopWakes? || e.Restart?)
  }

  lemma BystanderPairing(w: World, e: Event)
    requires Bystander(e)
    ensures ServerStep(w, e).pairing == w.server.pairing
  {
    hide C.Accept, RequestOf, CtrlReplyOf, C.EndByBrowser, C.EndByController, Limiter.Cleanup, Limiter.RecordFailure,
         BurnCode, Sweep;
  }

  lemma SocketOpens(p: P.Tables, roles: map<Sid, Role>, helloed: set<Sid>, sid: Sid, role: Role)
    requires Seated(p, roles, helloed) && sid !in roles
    ensures Seated(p, roles[sid := role], helloed)
  {
    forall c ensures All(P.Of(p.pending, c), roles[sid := role], Browser) {
      assert All(P.Of(p.pending, c), roles, Browser);
    }
  }

  lemma BystanderKeeps(w: World, e: Event, exact: bool)
    requires Bystander(e) && PairingOk(w.server.pairing, w.roles, w.helloed, exact)
    requires e.Connect? ==> e.sid !in w.roles
    ensures Kept(w, e, exact)
  {
    BystanderPairing(w, e);
    if e.Connect? { SocketOpens(w.server.pairing, w.roles, w.helloed, e.sid, e.role); }
    hide ServerStep, P.Wired, P.Exact, Seated;
  }

  lemma RestartKeeps(w: World, e: Event, exact: bool)
    requires e.Restart?
    ensures Kept(w, e, exact)
  {
    hide Sweep;
    NobodyOk(exact);
  }

  lemma NobodyOk(exact: bool)
    ensures PairingOk(P.NOBODY, map[], {}, exact)
  {
  }

  lemma StepKeepsPairing(w: World, e: Event, rules: Rules)
    requires Enabled(w, e, rules) && rules.oneHello
    requires PairingOk(w.server.pairing, w.roles, w.helloed, rules.patient) && DeskSeated(w.server.desk, w.roles)
    ensures Kept(w, e, rules.patient)
  {
    if Bystander(e) {
      hide Kept;
      BystanderKeeps(w, e, rules.patient);
    } else if e.Close? || e.StopWakes? {
      hide OnDisconnect, PairingOk;
      if e.Close? {
        CloseKeeps(w.server, e.sid, w.roles, w.helloed, rules.patient);
      } else {
        var s := w.server.(stops := w.server.stops - multiset{e.stop});
        CloseKeeps(s, e.stop.sid, w.roles, w.helloed, rules.patient);
        GoneAlready(w, e.stop.sid, rules.patient);
      }
    } else {
      hide Kept;
      match e
      case AgentHello(_, _, _, _, _) => HelloKeeps(w, e, rules.patient);
      case BrowserHello(_) => BrowserHelloKeeps(w, e, rules.patient);
      case BrowserPair(_, _, _, _) => PairRequestKeeps(w, e, rules.patient);
      case Restart => RestartKeeps(w, e, rules.patient);
    }
  }

  lemma GoneAlready(w: World, sid: Sid, exact: bool)
    requires PairingOk(w.server.pairing, w.roles, w.helloed, exact)
    ensures sid !in w.roles ==> PairingOk(w.server.pairing, w.roles - {sid}, w.helloed - {sid}, exact)
  {
    if sid !in w.roles {
      assert w.roles - {sid} == w.roles;
      assert w.helloed - {sid} == w.helloed;
    }
  }
}
