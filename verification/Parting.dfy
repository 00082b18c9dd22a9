/**
 When `browserAgent` and `agentBrowser` part without the rule that a waiting
 browser asks for no second code: exactly when an accepted agent is given a
 browser that already has one.
 */
module Parting {
  import opened Basics
  import opened Tokens
  import opened Relay
  import opened World
  import opened Ledger
  import opened Seating
  import opened Helpdesk
  import opened Holders
  import opened Assumptions
  import Limiter
  import P = Pairing
  import C = Control

  ghost predicate Inverse(p: P.Tables) { P.Inverse(p.browserAgent, p.agentBrowser) }

  /** An accepted hello that takes over a browser: one of those it is given is paired already. */
  ghost predicate TakesOver(w: World, e: Event) {
    && e.AgentHello? && Admits(w, e, e.code)
    && exists b :: b in P.Winners(P.Enrol(w.server.pairing, e.sid, e.code, e.multi), e.sid, e.multi, e.order)
                   && b in w.server.pairing.browserAgent
  }

  lemma HelloPartsIff(w: World, e: Event, rules: Rules)
    requires e.AgentHello? && Enabled(w, e, rules) && rules.oneHello
    requires PairingOk(w.server.pairing, w.roles, w.helloed, rules.patient) && Inverse(w.server.pairing)
    ensures Inverse(ServerStep(w, e).pairing) <==> !TakesOver(w, e)
  {
    var p := w.server.pairing;
    HelloPairing(w.server, e.sid, e.ip, e.code, e.multi, e.order, w.now, w.today);
    assert e.sid !in p.agents;
    P.AcceptKeepsInverseIff(p, e.sid, e.code, e.multi, e.order);
    hide OnAgentHello, HelloReplyOf, P.Accept, P.Winners, P.Wired, P.Inverse;
  }

  lemma GoneKeepsInverse(p: P.Tables, sid: Sid)
    requires P.Wired(p) && Inverse(p)
    ensures Inverse(P.AgentGone(p, sid)) && Inverse(P.BrowserGone(p, sid))
  {
    P.UngroupKeeps(p.browserAgent, p.agentBrowser, sid);
    if sid in p.browserAgent {
      P.LeaveKeeps(p.browserAgent, p.agentBrowser, sid);
    }
    hide P.Leave, P.Of, P.PointsBack, P.Follows, P.NoneEmpty, P.SinglesKept, P.WaitsForAbsent;
  }

  lemma ForgettingAuth(p: P.Tables, sid: Sid)
    ensures var q := p.(browserAuth := p.browserAuth - {sid});
            (P.Wired(p) ==> P.Wired(q)) && (Inverse(p) <==> Inverse(q))
  {
  }

  lemma CloseKeepsInverse(s: State, sid: Sid)
    requires P.Wired(s.pairing) && Inverse(s.pairing)
    ensures Inverse(OnDisconnect(s, sid).pairing)
  {
    var p := s.pairing.(browserAuth := s.pairing.browserAuth - {sid});
    ForgettingAuth(s.pairing, sid);
    CloseByRole(s, sid);
    GoneKeepsInverse(p, sid);
    hide OnDisconnect, P.Wired, Inverse, P.AgentGone, P.BrowserGone;
  }

  lemma PairKeepsInverse(p: P.Tables, b: Sid, a: Sid)
    requires P.Wired(p) && Inverse(p) && b !in p.browserAgent
    ensures Inverse(P.Pair(p, b, a))
  {
    P.PairNobody(P.Pair(p, b, a), a);
    P.PairThenPairAll(p, a, b, {});
    assert {b} + {} == {b};
    P.PairAllKeepsLinks(p.browserAgent, p.agentBrowser, a, {b});
    hide P.PointsBack, P.Follows, P.NoneEmpty, P.Of, P.Pair;
  }

  lemma PairRequestKeepsInverse(s: State, b: Sid, ip: Ip, code: Code, holder: Option<Sid>, now: real, today: int)
    requires P.Wired(s.pairing) && Inverse(s.pairing)
    ensures Inverse(OnBrowserPair(s, b, ip, code, holder, now, today).pairing)
  {
    var reply := PairReplyOf(s, b, ip, code, holder, now, today);
    if reply.PairDone? {
      PairKeepsInverse(s.pairing, b, reply.agent);
    } else if reply.PairWaiting? {
      WaitingKeepsInverse(s.pairing, b, code);
    }
    hide P.Wired, Inverse, P.Pair, P.Enqueue, P.Of, Limiter.RecordFailure;
  }

  lemma WaitingKeepsInverse(p: P.Tables, b: Sid, code: Code)
    requires Inverse(p)
    ensures Inverse(P.Enqueue(p, b, code))
  {
  }

  lemma GreetingKeepsInverse(s: State, b: Sid)
    requires P.Wired(s.pairing) && Inverse(s.pairing)
    ensures Inverse(OnBrowserHello(s, b).pairing)
  {
    BrowserHelloRepairsNothing(s, b);
    hide OnBrowserHello, P.Wired;
  }

  lemma NobodyInverse()
    ensures Inverse(P.NOBODY)
  {
  }

  /**
   Under no assumption on waiting browsers, inverse tables stay inverse over an
   event iff it does not take over a browser.
   */
  lemma StepPartsIff(w: World, e: Event, rules: Rules)
    requires Enabled(w, e, rules) && rules.oneHello
    requires PairingOk(w.server.pairing, w.roles, w.helloed, rules.patient) && Inverse(w.server.pairing)
    ensures Inverse(ServerStep(w, e).pairing) <==> !TakesOver(w, e)
  {
    assert P.Wired(w.server.pairing);
    if e.AgentHello? {
      HelloPartsIff(w, e, rules);
      hide ServerStep, Inverse, TakesOver;
    } else if Bystander(e) {
      BystanderPairing(w, e);
      hide ServerStep, Inverse;
    } else {
      hide OnDisconnect, OnBrowserHello, OnBrowserPair, Inverse, P.Wired;
      match e
      case Close(sid) => CloseKeepsInverse(w.server, sid);
      case StopWakes(q) => CloseKeepsInverse(w.server.(stops := w.server.stops - multiset{q}), q.sid);
      case BrowserHello(b) => GreetingKeepsInverse(w.server, b);
      case BrowserPair(b, ip, code, holder) => PairRequestKeepsInverse(w.server, b, ip, code, holder, w.now, w.today);
      case Restart => NobodyInverse();
    }
  }

  /** At some point of the run the tables are not inverse. */
  ghost predicate EverParted(w: World, es: seq<Event>)
    decreases |es|
  {
    !Inverse(w.server.pairing) || (es != [] && EverParted(Step(w, es[0]), es[1..]))
  }

  /** Some hello of the run takes over a browser. */
  ghost predicate EverTakesOver(w: World, es: seq<Event>)
    decreases |es|
  {
    es != [] && (TakesOver(w, es[0]) || EverTakesOver(Step(w, es[0]), es[1..]))
  }

  lemma {:induction false} PartedIff(w: World, es: seq<Event>, rules: Rules)
    requires Valid(w, es, rules) && rules.oneHello
    requires PairingOk(w.server.pairing, w.roles, w.helloed, rules.patient) && WorldDeskOk(w, rules.oneAccept)
    requires Inverse(w.server.pairing)
    ensures EverParted(w, es) <==> EverTakesOver(w, es)
    decreases |es|
  {
    hide Enabled, ServerStep, RolesAfter, HelloedAfter, EndsAfter, OpenerAfter, SpentAfter, LastFailAfter,
         FailsAfter, SessionAfter,
         PairingOk, DeskOk, Inverse, TakesOver;
    if es != [] {
      SeatsStay(w, es[0], rules);
      StepPartsIff(w, es[0], rules);
      if !TakesOver(w, es[0]) {
        PartedIff(Step(w, es[0]), es[1..], rules);
      }
    }
  }

  // ------------------------------------------------------------------
  // An impatient browser

  const IP := Ip(0)
  const FIRST := Code(1)
  const SECOND := Code(2)

  /** Everything but patience. */
  const IMPATIENT := Rules(true, false, true, true)

  function TwoCodes(): TokenFile {
    map[FIRST := Created(0, 60, None), SECOND := Created(0, 60, None)]
  }

  ghost predicate Fresh(t: Token) {
    t.unlimited && !t.used && !t.inUse && t.expiry.None?
  }

  /** A world with these pairing tables and sockets, no failures, and these codes not used yet. */
  ghost predicate Stage(w: World, p: P.Tables, roles: map<Sid, Role>, unused: set<Code>) {
    && w.server.pairing == p && w.server.failed == map[] && w.server.desk == C.CLOSED
    && (forall c :: c in unused ==> c in w.server.tokens && Fresh(w.server.tokens[c]))
    && w.roles == roles && w.helloed <= roles.Keys
  }

  ghost predicate LeadsTo(es: seq<Event>, p: P.Tables, roles: map<Sid, Role>, unused: set<Code>, today: int) {
    Valid(Start(TwoCodes(), 0.0, today), es, IMPATIENT)
    && Stage(Run(Start(TwoCodes(), 0.0, today), es), p, roles, unused)
  }

  lemma Begins(today: int)
    ensures LeadsTo([], P.NOBODY, map[], {FIRST, SECOND}, today)
  {
  }

  lemma ConnectStage(w: World, p: P.Tables, roles: map<Sid, Role>, unused: set<Code>, s: Sid, role: Role)
    requires Stage(w, p, roles, unused) && s !in roles
    ensures Enabled(w, Connect(s, role), IMPATIENT)
    ensures Stage(Step(w, Connect(s, role)), p, roles[s := role], unused) && s !in Step(w, Connect(s, role)).helloed
  {
    hide Fresh;
  }

  lemma WaitStage(w: World, p: P.Tables, roles: map<Sid, Role>, unused: set<Code>, b: Sid, code: Code)
    requires Stage(w, p, roles, unused) && b in roles && roles[b] == Browser && b !in p.browserAgent
    requires code in unused && code != Blank && !P.Live(p.agentTokens, code)
    ensures Enabled(w, BrowserPair(b, IP, code, None), IMPATIENT)
    ensures Stage(Step(w, BrowserPair(b, IP, code, None)), P.Enqueue(p, b, code), roles, unused)
  {
    assert PairReplyOf(w.server, b, IP, code, None, w.now, w.today) == PairWaiting;
    hide P.Enqueue, P.Live;
  }

  lemma AcceptReply(s: State, code: Code, now: real, today: int)
    requires s.failed == map[] && code != Blank && code in s.tokens && Fresh(s.tokens[code])
    ensures HelloReplyOf(s, IP, code, now, today).Accepted?
  {
  }

  lemma HelloRest(s: State, a: Sid, code: Code, multi: bool, order: seq<Sid>, now: real, today: int)
    requires s.failed == map[] && HelloReplyOf(s, IP, code, now, today).Accepted?
    ensures var t := OnAgentHello(s, a, IP, code, multi, order, now, today);
            t.failed == map[] && t.desk == s.desk && forall c :: c in s.tokens && c != code ==>
              c in t.tokens && t.tokens[c] == s.tokens[c]
  {
    HelloKeepsOthers(s, a, IP, code, multi, order, now, today);
    assert s.failed - {IP} == map[];
    hide P.Accept, Admit, HelloReplyOf;
  }

  lemma HelloStage(w: World, p: P.Tables, roles: map<Sid, Role>, unused: set<Code>, a: Sid, code: Code, multi: bool,
                   order: seq<Sid>)
    requires Stage(w, p, roles, unused) && a in roles && roles[a] == Agent && a !in w.helloed
    requires code in unused && code != Blank && P.Lists(order, P.Of(p.pending, code))
    ensures var e := AgentHello(a, IP, code, multi, order);
            Enabled(w, e, IMPATIENT) && Stage(Step(w, e), P.Accept(p, a, code, multi, order), roles, unused - {code})
  {
    AcceptReply(w.server, code, w.now, w.today);
    HelloPairing(w.server, a, IP, code, multi, order, w.now, w.today);
    HelloRest(w.server, a, code, multi, order, w.now, w.today);
    hide OnAgentHello, HelloReplyOf, P.Accept, P.Lists, P.Of, Fresh;
  }

  lemma CloseStage(w: World, p: P.Tables, roles: map<Sid, Role>, unused: set<Code>, b: Sid)
    requires Stage(w, p, roles, unused) && b in roles && b !in p.agents && p.browserAuth == {}
    ensures Enabled(w, Close(b), IMPATIENT)
    ensures Stage(Step(w, Close(b)), P.BrowserGone(p, b), roles - {b}, unused)
  {
    CloseByRole(w.server, b);
    BrowserCloseRest(w.server, b);
    assert p.browserAuth - {b} == {};
    hide OnDisconnect, P.BrowserGone, Fresh;
  }

  lemma BrowserCloseRest(s: State, b: Sid)
    requires s.desk == C.CLOSED && b !in s.pairing.agents
    ensures OnDisconnect(s, b).desk == C.CLOSED && OnDisconnect(s, b).failed == s.failed
  {
    hide P.BrowserGone;
  }

  lemma ThenConnect(es: seq<Event>, p: P.Tables, roles: map<Sid, Role>, unused: set<Code>, today: int, s: Sid,
          role: Role)
    requires LeadsTo(es, p, roles, unused, today) && s !in roles
    ensures LeadsTo(es + [Connect(s, role)], p, roles[s := role], unused, today)
    ensures s !in Run(Start(TwoCodes(), 0.0, today), es + [Connect(s, role)]).helloed
  {
    hide Valid, Run, Enabled, Step, Stage;
    var w := Start(TwoCodes(), 0.0, today);
    ConnectStage(Run(w, es), p, roles, unused, s, role);
    Extend(w, es, Connect(s, role), IMPATIENT);
  }

  lemma ThenWait(es: seq<Event>, p: P.Tables, roles: map<Sid, Role>, unused: set<Code>, today: int, b: Sid, code: Code)
    requires LeadsTo(es, p, roles, unused, today) && b in roles && roles[b] == Browser && b !in p.browserAgent
    requires code in unused && code != Blank && !P.Live(p.agentTokens, code)
    ensures LeadsTo(es + [BrowserPair(b, IP, code, None)], P.Enqueue(p, b, code), roles, unused, today)
  {
    hide Valid, Run, Enabled, Step, Stage, P.Enqueue;
    var w := Start(TwoCodes(), 0.0, today);
    WaitStage(Run(w, es), p, roles, unused, b, code);
    Extend(w, es, BrowserPair(b, IP, code, None), IMPATIENT);
  }

  /** An agent's socket opens and says hello. */
  function Joining(a: Sid, code: Code, multi: bool, b: Sid): seq<Event> {
    [Connect(a, Agent), AgentHello(a, IP, code, multi, [b])]
  }

  lemma ThenJoin(es: seq<Event>, p: P.Tables, roles: map<Sid, Role>, unused: set<Code>, today: int, a: Sid, code: Code,
                 multi: bool, b: Sid)
    requires LeadsTo(es, p, roles, unused, today) && a !in roles
    requires code in unused && code != Blank && P.Of(p.pending, code) == {b}
    ensures LeadsTo(es + Joining(a, code, multi, b), P.Accept(p, a, code, multi, [b]), roles[a := Agent],
            unused - {code},
                    today)
  {
    hide Valid, Run, Enabled, Step, Stage, P.Accept, P.Of;
    ThenConnect(es, p, roles, unused, today, a, Agent);
    var w := Start(TwoCodes(), 0.0, today);
    var e := AgentHello(a, IP, code, multi, [b]);
    var fs := es + [Connect(a, Agent)];
    HelloStage(Run(w, fs), p, roles[a := Agent], unused, a, code, multi, [b]);
    Extend(w, fs, e, IMPATIENT);
    assert fs + [e] == es + Joining(a, code, multi, b);
  }

  lemma ThenClose(es: seq<Event>, p: P.Tables, roles: map<Sid, Role>, unused: set<Code>, today: int, b: Sid)
    requires LeadsTo(es, p, roles, unused, today) && b in roles && b !in p.agents && p.browserAuth == {}
    ensures LeadsTo(es + [Close(b)], P.BrowserGone(p, b), roles - {b}, unused, today)
  {
    hide Valid, Run, Enabled, Step, Stage, P.BrowserGone;
    var w := Start(TwoCodes(), 0.0, today);
    CloseStage(Run(w, es), p, roles, unused, b);
    Extend(w, es, Close(b), IMPATIENT);
  }

  /** A browser asks for two codes, and the agents of both come. */
  function ImpatientRun(b: Sid, a: Sid, a': Sid, multi: bool, multi': bool): seq<Event> {
    [Connect(b, Browser)] + [BrowserPair(b, IP, FIRST, None)] + [BrowserPair(b, IP, SECOND, None)]
    + Joining(a, FIRST, multi, b) + Joining(a', SECOND, multi', b)
  }

  /** The pairing tables after it. */
  function TakenOver(b: Sid, a: Sid, a': Sid, multi: bool, multi': bool): P.Tables {
    var waiting := P.Enqueue(P.Enqueue(P.NOBODY, b, FIRST), b, SECOND);
    P.Accept(P.Accept(waiting, a, FIRST, multi, [b]), a', SECOND, multi', [b])
  }

  lemma ImpatientRunLeads(b: Sid, a: Sid, a': Sid, multi: bool, multi': bool, today: int)
    requires a != a' && a != b && a' != b
    ensures LeadsTo(ImpatientRun(b, a, a', multi, multi'), TakenOver(b, a, a', multi, multi'),
                    map[b := Browser, a := Agent, a' := Agent], {}, today)
  {
    hide LeadsTo, P.Accept;
    Begins(today);
    var none := P.NOBODY;
    ThenConnect([], none, map[], {FIRST, SECOND}, today, b, Browser);
    var es := [Connect(b, Browser)];
    assert [] + es == es;
    var roles := map[b := Browser];
    ThenWait(es, none, roles, {FIRST, SECOND}, today, b, FIRST);
    es := es + [BrowserPair(b, IP, FIRST, None)];
    var one := P.Enqueue(none, b, FIRST);
    ThenWait(es, one, roles, {FIRST, SECOND}, today, b, SECOND);
    es := es + [BrowserPair(b, IP, SECOND, None)];
    var two := P.Enqueue(one, b, SECOND);
    ImpatienceUnlinks(b, a, a', FIRST, SECOND, multi, multi');
    ThenJoin(es, two, roles, {FIRST, SECOND}, today, a, FIRST, multi, b);
    es := es + Joining(a, FIRST, multi, b);
    AcceptOne(two, a, FIRST, multi, b);
    assert {FIRST, SECOND} - {FIRST} == {SECOND} && {SECOND} - {SECOND} == {};
    ThenJoin(es, P.Accept(two, a, FIRST, multi, [b]), roles[a := Agent], {SECOND}, today, a', SECOND, multi', b);
  }

  /** No browser is ever paired with the agent on its own request. */
  ghost predicate TurnsAway(s: State, a: Sid) {
    forall x, ip, code, now, today :: !PairReplyOf(s, x, ip, code, Some(a), now, today).PairDone?
  }

  lemma BusyTurnsAway(s: State, a: Sid)
    requires a in s.pairing.allowMulti && !s.pairing.allowMulti[a] && P.Of(s.pairing.agentBrowser, a) != {}
    ensures TurnsAway(s, a)
  {
    forall x, ip, code, now, today
      ensures !PairReplyOf(s, x, ip, code, Some(a), now, today).PairDone?
    {
      hide P.Of, Limiter.IsBlocked, Expired;
    }
  }

  /**
   From a fresh start, with every assumption but patience: the first agent
   lists a browser that follows the second. When the browser's socket closes it
   stays listed there, and a single-mode agent turns every other browser away.
   */
  lemma ImpatientRunParts(b: Sid, a: Sid, a': Sid, multi: bool, multi': bool, today: int)
    requires a != a' && a != b && a' != b
    ensures var w := Start(TwoCodes(), 0.0, today);
            var es := ImpatientRun(b, a, a', multi, multi');
            var p, q := Run(w, es).server.pairing, Run(w, es + [Close(b)]).server.pairing;
            && Valid(w, es + [Close(b)], IMPATIENT) && Valid(w, es, IMPATIENT)
            && b in p.browserAgent && p.browserAgent[b] == a' && b in P.Of(p.agentBrowser, a) && !Inverse(p)
            && b !in Run(w, es + [Close(b)]).roles && P.Of(q.agentBrowser, a) == {b}
            && (!multi ==> TurnsAway(Run(w, es + [Close(b)]).server, a))
  {
    hide P.Accept, P.BrowserGone, Valid, Run;
    ImpatientRunLeads(b, a, a', multi, multi', today);
    ImpatienceUnlinks(b, a, a', FIRST, SECOND, multi, multi');
    ImpatientBrowserLingers(b, a, a', FIRST, SECOND, multi, multi');
    TakenOverAgents(b, a, a', multi, multi');
    var roles := map[b := Browser, a := Agent, a' := Agent];
    ThenClose(ImpatientRun(b, a, a', multi, multi'), TakenOver(b, a, a', multi, multi'), roles, {}, today, b);
    GoneKeepsModes(TakenOver(b, a, a', multi, multi'), b);
    if !multi {
      BusyTurnsAway(Run(Start(TwoCodes(), 0.0, today), ImpatientRun(b, a, a', multi, multi') + [Close(b)]).server, a);
    }
    hide TurnsAway;
  }

  lemma GoneKeepsModes(p: P.Tables, b: Sid)
    ensures P.BrowserGone(p, b).allowMulti == p.allowMulti
  {
    hide P.Leave, P.Without, P.Of;
  }

  lemma TakenOverAgents(b: Sid, a: Sid, a': Sid, multi: bool, multi': bool)
    requires a != a' && a != b && a' != b
    ensures var p := TakenOver(b, a, a', multi, multi'); p.agents == {a, a'} && p.browserAuth == {}
    ensures TakenOver(b, a, a', multi, multi').allowMulti == map[a := multi, a' := multi']
  {
    var waiting := P.Enqueue(P.Enqueue(P.NOBODY, b, FIRST), b, SECOND);
    AcceptRest(waiting, a, FIRST, multi, [b]);
    AcceptRest(P.Accept(waiting, a, FIRST, multi, [b]), a', SECOND, multi', [b]);
    hide P.Accept;
  }

  lemma AcceptRest(p: P.Tables, a: Sid, code: Code, multi: bool, order: seq<Sid>)
    ensures var q := P.Accept(p, a, code, multi, order);
            q.agents == p.agents + {a} && q.browserAuth == p.browserAuth && q.allowMulti == p.allowMulti[a := multi]
  {
    P.DrainPairsWinners(P.Enrol(p, a, code, multi), a, multi, order);
  }
}
