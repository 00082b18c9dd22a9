/**
 The main results about the relay server: what holds after every run from a
 fresh start, for any token file unless the statement says otherwise.
 */
module Runs {
  import opened Basics
  import opened Tokens
  import opened Relay
  import opened World
  import opened Ledger
  import opened Seating
  import opened Helpdesk
  import opened Sessions
  import opened Holders
  import opened Answers
  import opened Changes
  import opened Histories
  import opened Counting
  import Blocking
  import Parting
  import L = Limiter
  import P = Pairing
  import C = Control
  import Page
  import Correlation

  // ------------------------------------------------------------------
  // Pairing

  lemma {:induction false} RunKeepsPairing(w: World, es: seq<Event>, rules: Rules)
    requires Valid(w, es, rules) && rules.oneHello
    requires PairingOk(w.server.pairing, w.roles, w.helloed, rules.patient) && WorldDeskOk(w, rules.oneAccept)
    ensures var v := Run(w, es);
            PairingOk(v.server.pairing, v.roles, v.helloed, rules.patient) && WorldDeskOk(v, rules.oneAccept)
    decreases |es|
  {
    hide Enabled, ServerStep, RolesAfter, HelloedAfter, EndsAfter, OpenerAfter, SpentAfter, PairingOk, DeskOk;
    if es != [] {
      assert DeskSeated(w.server.desk, w.roles) by { DeskIsSeated(w, rules.oneAccept); }
      StepKeepsPairing(w, es[0], rules);
      StepKeepsDesk(w, es[0], rules);
      RunKeepsPairing(Step(w, es[0]), es[1..], rules);
    }
  }

  lemma DeskIsSeated(w: World, once: bool)
    requires WorldDeskOk(w, once)
    ensures DeskSeated(w.server.desk, w.roles)
  {
  }

  lemma StartIsClean(tokens: TokenFile, now: real, today: int, exact: bool, once: bool)
    ensures var w := Start(tokens, now, today);
            PairingOk(w.server.pairing, w.roles, w.helloed, exact) && WorldDeskOk(w, once)
  {
    NobodyOk(exact);
    ClosedDesk(map[], {}, once);
    hide PairingOk, DeskOk;
  }

  lemma ListedAreSeated(p: P.Tables, roles: map<Sid, Role>, helloed: set<Sid>)
    requires P.Exact(p) && Seated(p, roles, helloed)
    ensures forall a :: All(P.Of(p.agentBrowser, a), roles, Browser)
  {
    forall a
      ensures All(P.Of(p.agentBrowser, a), roles, Browser)
    {
      forall b | b in P.Of(p.agentBrowser, a)
        ensures b in roles && roles[b] == Browser
      {
        assert b in p.browserAgent;
      }
    }
  }

  /**
   After every run the tables are wired together, and agents, paired and
   waiting browsers are open sockets; if browsers are patient, `browserAgent` and
   `agentBrowser` are exact inverses, nobody paired is waiting, and every listed
   browser is an open socket too.
   */
  lemma PairingHolds(tokens: TokenFile, now: real, today: int, es: seq<Event>, rules: Rules)
    requires Valid(Start(tokens, now, today), es, rules) && rules.oneHello
    ensures var w := Run(Start(tokens, now, today), es);
            && P.Wired(w.server.pairing)
            && Seated(w.server.pairing, w.roles, w.helloed)
            && (rules.patient ==>
                  && P.Exact(w.server.pairing)
                  && forall a :: All(P.Of(w.server.pairing.agentBrowser, a), w.roles, Browser))
  {
    StartIsClean(tokens, now, today, rules.patient, rules.oneAccept);
    RunKeepsPairing(Start(tokens, now, today), es, rules);
    var w := Run(Start(tokens, now, today), es);
    if rules.patient {
      ListedAreSeated(w.server.pairing, w.roles, w.helloed);
    }
    hide Run, Valid;
  }

  /**
   In any run, patient or not, the two pairing tables ever fail to be inverse
   iff an accepted agent is ever given a browser that is paired already.
   */
  lemma PartedByTakeoverOnly(tokens: TokenFile, now: real, today: int, es: seq<Event>, rules: Rules)
    requires Valid(Start(tokens, now, today), es, rules) && rules.oneHello
    ensures Parting.EverParted(Start(tokens, now, today), es) <==> Parting.EverTakesOver(Start(tokens, now, today), es)
  {
    StartIsClean(tokens, now, today, rules.patient, rules.oneAccept);
    Parting.NobodyInverse();
    Parting.PartedIff(Start(tokens, now, today), es, rules);
  }

  /**
   After any run, an accepted `agent_hello` serves the waiting browsers: all n
   of them in multi mode, min(1, n) in single mode, in any order, and nobody
   is left waiting for the code.
   */
  lemma AdmissionServes(tokens: TokenFile, now: real, today: int, es: seq<Event>, rules: Rules, e: Event)
    requires Valid(Start(tokens, now, today), es, rules) && rules.oneHello
    requires var w := Run(Start(tokens, now, today), es);
             Enabled(w, e, rules) && e.AgentHello? && Admits(w, e, e.code)
    ensures var w := Run(Start(tokens, now, today), es);
            var p, q := w.server.pairing, ServerStep(w, e).pairing;
            var n := |P.Of(p.pending, e.code)|;
            var served := P.Of(q.agentBrowser, e.sid);
            && P.Of(q.pending, e.code) == {}
            && |served| == (if e.multi || n == 0 then n else 1)
            && served <= P.Of(p.pending, e.code)
            && (forall b :: b in served ==> b in q.browserAgent && q.browserAgent[b] == e.sid)
            && (forall x :: x != e.sid ==> P.Of(q.agentBrowser, x) == P.Of(p.agentBrowser, x))
  {
    PairingHolds(tokens, now, today, es, rules);
    var w := Run(Start(tokens, now, today), es);
    var p := w.server.pairing;
    assert e.sid !in p.agents;
    P.AcceptServes(p, e.sid, e.code, e.multi, e.order);
    HelloPairing(w.server, e.sid, e.ip, e.code, e.multi, e.order, w.now, w.today);
    hide OnAgentHello, HelloReplyOf, P.Accept, P.Of, P.Wired, Run, Valid;
  }

  lemma Settles(w: World, rules: Rules)
    requires PairingOk(w.server.pairing, w.roles, w.helloed, rules.patient) && WorldDeskOk(w, rules.oneAccept)
    ensures Settled(w)
  {
    hide P.Wired, P.Exact, Seated, C.Matched, C.ActivatedByOwn, C.ActiveIsAssigned;
  }

  lemma {:induction false} RunKeepsEntries(w: World, es: seq<Event>, rules: Rules)
    requires Valid(w, es, rules) && rules.oneHello
    requires PairingOk(w.server.pairing, w.roles, w.helloed, rules.patient) && WorldDeskOk(w, rules.oneAccept)
    requires EntriesTrue(w)
    ensures Settled(Run(w, es)) && EntriesTrue(Run(w, es))
    decreases |es|
  {
    hide Enabled, Step, PairingOk, WorldDeskOk, EntriesTrue, Settled;
    Settles(w, rules);
    if es != [] {
      StepKeepsEntries(w, es[0], rules);
      assert [es[0]][1..] == [];
      RunKeepsPairing(w, [es[0]], rules);
      RunKeepsEntries(Step(w, es[0]), es[1..], rules);
    }
  }

  lemma RunSettles(tokens: TokenFile, now: real, today: int, es: seq<Event>, rules: Rules)
    requires Valid(Start(tokens, now, today), es, rules) && rules.oneHello
    ensures Settled(Run(Start(tokens, now, today), es)) && EntriesTrue(Run(Start(tokens, now, today), es))
  {
    StartIsClean(tokens, now, today, rules.patient, rules.oneAccept);
    RunKeepsEntries(Start(tokens, now, today), es, rules);
  }

  /** After every run a connected agent holds the code, and has the flag, of the hello that let it in. */
  lemma AgentsAreTheirHellos(tokens: TokenFile, now: real, today: int, es: seq<Event>, rules: Rules, a: Sid)
    requires Valid(Start(tokens, now, today), es, rules) && rules.oneHello
    requires a in Run(Start(tokens, now, today), es).server.pairing.agents
    ensures var w := Run(Start(tokens, now, today), es);
            var p := w.server.pairing;
            && a in w.session && a in p.agentTokens && a in p.allowMulti
            && p.agentTokens[a] == w.session[a].code
            && p.allowMulti[a] == w.session[a].multi
  {
    RunSettles(tokens, now, today, es, rules);
    hide Run, Valid, Settled;
  }

  lemma RunCounts(tokens: TokenFile, now: real, today: int, es: seq<Event>, rules: Rules)
    requires Valid(Start(tokens, now, today), es, rules) && now >= 0.0
    ensures WorldCounts(Run(Start(tokens, now, today), es))
  {
    StartCounts(tokens, now, today);
    RunKeepsCounts(Start(tokens, now, today), es, rules);
  }

  /** An unpaired browser whose address is not barred asks for a code that is known, not used up and in date. */
  ghost predicate AsksRightly(w: World, b: Sid, ip: Ip, code: Code) {
    && !Barred(FailsOf(w.fails, ip), w.now)
    && b !in w.server.pairing.browserAgent
    && code != Blank && code in w.server.tokens
    && !w.server.tokens[code].used
    && (w.server.tokens[code].expiry.Some? ==> w.today <= w.server.tokens[code].expiry.value)
  }

  lemma AskingIs(w: World, b: Sid, ip: Ip, code: Code)
    requires WorldCounts(w)
    ensures AsksRightly(w, b, ip, code) <==> MayAsk(w.server, b, ip, code, w.now) && Usable(w.server, code, w.today)
  {
    BlockedIffBarred(w, ip);
    hide Barred, L.IsBlocked, WorldCounts;
  }

  /** A connected agent whose hello sent the code. */
  ghost predicate Brought(w: World, a: Sid, code: Code) {
    a in w.server.pairing.agents && a in w.session && w.session[a].code == code
  }

  /** The agent lists no browser, or its hello said that it takes many. */
  ghost predicate TakesMore(w: World, a: Sid) {
    P.Of(w.server.pairing.agentBrowser, a) == {} || (a in w.session && w.session[a].multi)
  }

  /** What the search for a code finds, and whether that agent has room, follow from the hellos. */
  lemma FoundByHello(w: World, code: Code, holder: Option<Sid>)
    requires Settled(w) && EntriesTrue(w) && P.Holder(w.server.pairing.agentTokens, code, holder)
    ensures Found(w.server, holder) <==> holder.Some?
    ensures holder.None? <==> forall x :: !Brought(w, x, code)
    ensures holder.Some? ==>
              Brought(w, holder.value, code) && (HasRoom(w.server, holder.value) <==> TakesMore(w, holder.value))
  {
    SettledIsWired(w);
    hide Settled, P.Of;
    if holder.Some? {
      assert Brought(w, holder.value, code);
    }
  }

  /** What `browser_pair` decides about the browser and an agent. */
  ghost predicate PairsRightly(w: World, e: Event, a: Sid)
    requires e.BrowserPair?
  {
    var p, q := w.server.pairing, ServerStep(w, e).pairing;
    var rightly := AsksRightly(w, e.sid, e.ip, e.code);
    && (e.holder == Some(a) ==> Brought(w, a, e.code))
    && (Lookup(q.browserAgent, e.sid) == Some(a) <==>
          Lookup(p.browserAgent, e.sid) == Some(a) || (rightly && e.holder == Some(a) && TakesMore(w, a)))
    && (e.sid in P.Of(q.pending, e.code) <==>
          e.sid in P.Of(p.pending, e.code) || (rightly && forall x :: !Brought(w, x, e.code)))
  }

  lemma HolderIs(w: World, e: Event, rules: Rules)
    requires Enabled(w, e, rules) && (e.BrowserPair? || e.ControllerHello?)
    ensures P.Holder(w.server.pairing.agentTokens, e.code, e.holder)
  {
    hide P.Holder, P.WaitsElsewhere;
  }

  lemma PairRequestLaw(w: World, e: Event, rules: Rules, a: Sid)
    requires Settled(w) && rules.oneHello && Enabled(w, e, rules) && e.BrowserPair?
    ensures var p, q := w.server.pairing, ServerStep(w, e).pairing;
            var asks := MayAsk(w.server, e.sid, e.ip, e.code, w.now) && Usable(w.server, e.code, w.today);
            && (Lookup(q.browserAgent, e.sid) == Some(a) <==>
                  || (!(asks && Found(w.server, e.holder)) && Lookup(p.browserAgent, e.sid) == Some(a))
                  || (asks && Found(w.server, e.holder) && HasRoom(w.server, e.holder.value) && e.holder == Some(a)))
            && (e.sid in P.Of(q.pending, e.code) <==>
                  e.sid in P.Of(p.pending, e.code) || (asks && !Found(w.server, e.holder)))
  {
    PairingLaws(w, e, rules, e.sid, a, e.code);
    PairCause(w, e, e.sid, a, e.code);
    hide ServerStep, Settled, CauseOf, P.Of, HasRoom, Usable, Found, Enabled, AgentEntry, L.IsBlocked;
  }

  lemma PairedInWorld(w: World, e: Event, rules: Rules, a: Sid)
    requires Settled(w) && EntriesTrue(w) && WorldCounts(w) && rules.oneHello && Enabled(w, e, rules) && e.BrowserPair?
    ensures PairsRightly(w, e, a)
  {
    PairRequestLaw(w, e, rules, a);
    AskingIs(w, e.sid, e.ip, e.code);
    HolderIs(w, e, rules);
    FoundByHello(w, e.code, e.holder);
    hide ServerStep, Settled, WorldCounts, AsksRightly, P.Of, P.Holder, HasRoom, TakesMore, Brought, Usable, Found,
         Enabled, L.IsBlocked;
  }

  /**
   After any run, `browser_pair` leaves the browser paired with an agent iff
   it was before, or it asks rightly, the agent is the one found for the code,
   and takes many browsers or lists none; and waiting for the code iff it did
   before, or it asks rightly and no connected agent came with the code.
   */
  lemma PairedIff(tokens: TokenFile, now: real, today: int, es: seq<Event>, rules: Rules, e: Event, a: Sid)
    requires Valid(Start(tokens, now, today), es, rules) && rules.oneHello && now >= 0.0
    requires Enabled(Run(Start(tokens, now, today), es), e, rules) && e.BrowserPair?
    ensures PairsRightly(Run(Start(tokens, now, today), es), e, a)
  {
    RunSettles(tokens, now, today, es, rules);
    RunCounts(tokens, now, today, es, rules);
    hide Run, Valid, PairsRightly;
    PairedInWorld(Run(Start(tokens, now, today), es), e, rules, a);
  }

  /**
   After every run a command of a paired browser is handed to its agent, which
   is connected and lists the browser, iff the shell filter does not object;
   else it is refused under its own id with the objection. A command of an
   unpaired browser is refused under its own id.
   */
  lemma CommandsReachAgents(tokens: TokenFile, now: real, today: int, es: seq<Event>, rules: Rules, b: Sid,
          q: Page.Request, objection: Option<string>)
    requires Valid(Start(tokens, now, today), es, rules) && rules.oneHello
    ensures var p := Run(Start(tokens, now, today), es).server.pairing;
            var routed := Correlation.OnCommand(p.browserAgent, p.agents, objection, b, q);
            && (routed.Forward? <==> b in p.browserAgent && objection.None?)
            && (routed.Forward? ==>
                  && routed == Correlation.Forward(p.browserAgent[b], Page.Command(q.id, q.body, b))
                  && p.browserAgent[b] in p.agents && b in P.Of(p.agentBrowser, p.browserAgent[b]))
            && (routed.Refuse? ==>
                  && routed.reply.id == q.id && routed.reply.about == Page.Command(q.id, q.body, b)
                  && routed.reply.content.Refused?
                  && (b in p.browserAgent ==> routed.reply.content == Page.Refused(objection.value)))
  {
    PairingHolds(tokens, now, today, es, rules);
    var p := Run(Start(tokens, now, today), es).server.pairing;
    hide Run, Valid;
    assert b in p.browserAgent ==> b in P.Of(p.agentBrowser, p.browserAgent[b]);
  }

  // ------------------------------------------------------------------
  // Remote control

  lemma {:induction false} RunKeepsDesk(w: World, es: seq<Event>, rules: Rules)
    requires Valid(w, es, rules) && WorldDeskOk(w, rules.oneAccept)
    ensures WorldDeskOk(Run(w, es), rules.oneAccept)
    decreases |es|
  {
    hide Enabled, Step, WorldDeskOk;
    if es != [] {
      StepKeepsDesk(w, es[0], rules);
      RunKeepsDesk(Step(w, es[0]), es[1..], rules);
    }
  }

  /**
   After every run the two assignment tables are inverse partial injections
   over registered controllers, and an active browser with a controller was
   activated by that controller. If controllers accept a request once, only
   assigned browsers are active.
   */
  lemma DeskHolds(tokens: TokenFile, now: real, today: int, es: seq<Event>, rules: Rules)
    requires Valid(Start(tokens, now, today), es, rules)
    ensures var w := Run(Start(tokens, now, today), es);
            && C.Matched(w.server.desk)
            && C.ActivatedByOwn(w.server.desk, w.opener)
            && DeskSeated(w.server.desk, w.roles)
            && (rules.oneAccept ==> w.server.desk.active <= w.server.desk.browserCtrl.Keys)
  {
    StartIsClean(tokens, now, today, false, rules.oneAccept);
    RunKeepsDesk(Start(tokens, now, today), es, rules);
    hide Run, Valid;
  }

  /** After any run, an accept refused as a duplicate comes from the controller that activated the session. */
  lemma DuplicateAcceptIsRepeat(tokens: TokenFile, now: real, today: int, es: seq<Event>, rules: Rules, c: Sid)
    requires Valid(Start(tokens, now, today), es, rules)
    requires C.Accept(Run(Start(tokens, now, today), es).server.desk, c).1.Duplicate?
    ensures var w := Run(Start(tokens, now, today), es);
            var b := C.Accept(w.server.desk, c).1.of;
            && b in w.opener && w.opener[b] == c
            && (rules.oneAccept ==> c in w.spent)
  {
    StartIsClean(tokens, now, today, false, rules.oneAccept);
    RunKeepsDesk(Start(tokens, now, today), es, rules);
    var w := Run(Start(tokens, now, today), es);
    C.DuplicateIsRepeat(w.server.desk, c, w.opener);
    hide Run, Valid;
  }

  /**
   In any run, whatever controllers do, a browser is ever active without a
   controller iff some controller accepts a browser that is active already.
   */
  lemma StrandedByRepeatOnly(tokens: TokenFile, now: real, today: int, es: seq<Event>, rules: Rules)
    requires Valid(Start(tokens, now, today), es, rules)
    ensures EverStranded(Start(tokens, now, today), es) <==> EverRepeats(Start(tokens, now, today), es)
  {
    StartIsClean(tokens, now, today, false, rules.oneAccept);
    ClosedIsAssigned();
    StrandedIff(Start(tokens, now, today), es, rules);
  }

  /**
   After any run, `remote_control_request` leaves the browser with a controller
   iff it had one, or it was neither assigned nor active, has an agent that
   holds a code, and some registered controller watching that code has no
   browser; a controller that it gets was such a one, and the two then point
   at each other.
   */
  lemma RequestServedIff(tokens: TokenFile, now: real, today: int, es: seq<Event>, rules: Rules, e: Event)
    requires Valid(Start(tokens, now, today), es, rules)
    requires Enabled(Run(Start(tokens, now, today), es), e, rules) && e.RemoteRequest?
    ensures ServesRequest(Run(Start(tokens, now, today), es), e)
  {
    StartIsClean(tokens, now, today, false, rules.oneAccept);
    RunKeepsDesk(Start(tokens, now, today), es, rules);
    hide Run, Valid, ServesRequest;
    RequestInWorld(Run(Start(tokens, now, today), es), e, rules);
  }

  /** A free controller watches the code of the browser's agent. */
  ghost predicate HelpAtHand(s: State, b: Sid, c: Sid, code: Code) {
    AsksFor(s, b, code) && c in s.desk.controllers && C.Free(s.desk, code, c)
  }

  ghost predicate ServesRequest(w: World, e: Event)
    requires e.RemoteRequest?
  {
    var s, d, d' := w.server, w.server.desk, ServerStep(w, e).desk;
    && (e.sid in d'.browserCtrl <==>
          || e.sid in d.browserCtrl
          || (e.sid !in d.active && exists c, code :: HelpAtHand(s, e.sid, c, code)))
    && (e.sid in d'.browserCtrl ==>
          var c := d'.browserCtrl[e.sid];
          && Lookup(d'.ctrlBrowser, c) == Some(e.sid)
          && (e.sid !in d.browserCtrl ==> exists code :: HelpAtHand(s, e.sid, c, code)))
  }

  lemma RequestInWorld(w: World, e: Event, rules: Rules)
    requires WorldDeskOk(w, rules.oneAccept) && Enabled(w, e, rules) && e.RemoteRequest?
    ensures ServesRequest(w, e)
  {
    var s, b := w.server, e.sid;
    var code := CodeOf(s, b);
    RequestAnswers(s, b, e.pick);
    assert code.Some? ==> C.Pick(s.desk, code.value, e.pick);
    DeskIsMatched(w, rules.oneAccept);
    if code.Some? {
      assert AsksFor(s, b, code.value);
      if e.pick.Some? { assert HelpAtHand(s, b, e.pick.value, code.value); }
    }
    hide Enabled, WorldDeskOk;
  }

  /**
   After any run, `controller_hello` leaves the controller watching the code
   iff it did, or its address is not barred and a connected agent came with it.
   */
  lemma WatchesIff(tokens: TokenFile, now: real, today: int, es: seq<Event>, rules: Rules, e: Event)
    requires Valid(Start(tokens, now, today), es, rules) && rules.oneHello && now >= 0.0
    requires Enabled(Run(Start(tokens, now, today), es), e, rules) && e.ControllerHello?
    ensures var w := Run(Start(tokens, now, today), es);
            Lookup(ServerStep(w, e).desk.watching, e.sid) == Some(e.code) <==>
              || Lookup(w.server.desk.watching, e.sid) == Some(e.code)
              || (e.code != Blank && !Barred(FailsOf(w.fails, e.ip), w.now) && exists a :: Brought(w, a, e.code))
  {
    hide *;
    RunSettles(tokens, now, today, es, rules);
    RunCounts(tokens, now, today, es, rules);
    WatchesInWorld(Run(Start(tokens, now, today), es), e, rules);
  }

  lemma WatchesInWorld(w: World, e: Event, rules: Rules)
    requires Settled(w) && EntriesTrue(w) && WorldCounts(w) && Enabled(w, e, rules) && e.ControllerHello?
    ensures Lookup(ServerStep(w, e).desk.watching, e.sid) == Some(e.code) <==>
              || Lookup(w.server.desk.watching, e.sid) == Some(e.code)
              || (e.code != Blank && !Barred(FailsOf(w.fails, e.ip), w.now) && exists a :: Brought(w, a, e.code))
  {
    DeskLaws(w, e, rules, e.sid, e.sid);
    JoinCause(w, e, e.sid, e.sid);
    BlockedIffBarred(w, e.ip);
    HolderIs(w, e, rules);
    FoundByHello(w, e.code, e.holder);
    hide ServerStep, Settled, WorldCounts, DeskCauseOf, Found, Brought, Barred, L.IsBlocked, Enabled, P.Holder;
  }

  /**
   After any run of patient browsers, those told of a closing socket are exactly
   the browsers whose agent it was and the other end of its remote session.
   */
  lemma ToldIff(tokens: TokenFile, now: real, today: int, es: seq<Event>, rules: Rules, sid: Sid, x: Sid)
    requires Valid(Start(tokens, now, today), es, rules) && rules.oneHello && rules.patient
    requires sid in Run(Start(tokens, now, today), es).roles
    ensures var s := Run(Start(tokens, now, today), es).server;
            x in ToldOnDisconnect(s, sid) <==>
              || Lookup(s.pairing.browserAgent, x) == Some(sid)
              || Lookup(s.desk.ctrlBrowser, sid) == Some(x)
              || Lookup(s.desk.browserCtrl, sid) == Some(x)
  {
    PairingHolds(tokens, now, today, es, rules);
    RunSettles(tokens, now, today, es, rules);
    var w := Run(Start(tokens, now, today), es);
    hide Run, Valid;
    ToldInWorld(w, sid, x);
  }

  lemma ToldInWorld(w: World, sid: Sid, x: Sid)
    requires Settled(w) && P.Exact(w.server.pairing) && sid in w.roles
    ensures var s := w.server;
            x in ToldOnDisconnect(s, sid) <==>
              || Lookup(s.pairing.browserAgent, x) == Some(sid)
              || Lookup(s.desk.ctrlBrowser, sid) == Some(x)
              || Lookup(s.desk.browserCtrl, sid) == Some(x)
  {
    DeskSeats(w, sid);
    GoneSeats(w, sid);
    GroupsOfAgents(w, sid);
    FollowsIff(w.server.pairing, x, sid);
    hide Settled, P.Exact, P.Of, C.Matched;
  }

  lemma FollowsIff(p: P.Tables, b: Sid, a: Sid)
    requires P.Exact(p)
    ensures b in P.Of(p.agentBrowser, a) <==> Lookup(p.browserAgent, b) == Some(a)
  {
    hide P.NoneEmpty, P.SinglesKept, P.WaitsForAbsent, P.WaitersUnpaired, P.WaitsOnce;
  }

  /** After any run, an accept makes the controller's browser active, and keeps it assigned iff it was not active. */
  lemma AcceptActivates(tokens: TokenFile, now: real, today: int, es: seq<Event>, rules: Rules, e: Event)
    requires Valid(Start(tokens, now, today), es, rules)
    requires Enabled(Run(Start(tokens, now, today), es), e, rules) && e.ControllerAccept?
    requires e.sid in Run(Start(tokens, now, today), es).server.desk.ctrlBrowser
    ensures var w := Run(Start(tokens, now, today), es);
            var d, d' := w.server.desk, ServerStep(w, e).desk;
            var b := d.ctrlBrowser[e.sid];
            && d'.active == d.active + {b}
            && (Lookup(d'.ctrlBrowser, e.sid) == Some(b) <==> b !in d.active)
            && (Lookup(d'.browserCtrl, b) == Some(e.sid) <==> b !in d.active)
  {
    StartIsClean(tokens, now, today, false, rules.oneAccept);
    RunKeepsDesk(Start(tokens, now, today), es, rules);
    var w := Run(Start(tokens, now, today), es);
    DeskIsMatched(w, rules.oneAccept);
    AcceptOnDesk(w.server, e.sid, w.now);
    hide Run, Valid, Enabled, OnControllerAccept, C.Matched, WorldDeskOk;
  }

  lemma AcceptOnDesk(s: State, c: Sid, now: real)
    requires C.Matched(s.desk) && c in s.desk.ctrlBrowser
    ensures var d, d' := s.desk, OnControllerAccept(s, c, now).desk;
            var b := d.ctrlBrowser[c];
            && d'.active == d.active + {b}
            && (Lookup(d'.ctrlBrowser, c) == Some(b) <==> b !in d.active)
            && (Lookup(d'.browserCtrl, b) == Some(c) <==> b !in d.active)
  {
    var d := s.desk;
    assert d.ctrlBrowser[c] in d.active ==> d.active + {d.ctrlBrowser[c]} == d.active;
  }

  // ------------------------------------------------------------------
  // Locks

  lemma {:induction false} RunKeepsLocks(w: World, es: seq<Event>, rules: Rules, code: Code)
    requires Valid(w, es, rules) && rules.oneHello
    requires PairingOk(w.server.pairing, w.roles, w.helloed, rules.patient) && WorldDeskOk(w, rules.oneAccept)
    requires LocksHeld(w.server) && Healthy(w.server.tokens)
    ensures LocksHeld(Run(w, es).server)
    ensures Forgiven(w, es, code) <= Restarts(es)
    decreases |es|
  {
    hide Enabled, ServerStep, RolesAfter, HelloedAfter, EndsAfter, OpenerAfter, SpentAfter,
         PairingOk, DeskOk, LocksHeld, Healthy;
    if es != [] {
      assert DeskSeated(w.server.desk, w.roles) by { DeskIsSeated(w, rules.oneAccept); }
      StepKeepsPairing(w, es[0], rules);
      StepKeepsDesk(w, es[0], rules);
      StepKeepsHealthy(w, es[0]);
      StepKeepsLocks(w, es[0], rules);
      if Forgives(w, es[0], code) { OnlyRestartForgives(w, es[0], code); }
      RunKeepsLocks(Step(w, es[0]), es[1..], rules, code);
    }
  }

  function Restarts(es: seq<Event>): nat {
    if es == [] then 0 else (if es[0].Restart? then 1 else 0) + Restarts(es[1..])
  }

  lemma StartLocks(tokens: TokenFile, now: real, today: int)
    ensures LocksHeld(Start(tokens, now, today).server) && Healthy(Start(tokens, now, today).server.tokens)
  {
    NoLocksAfterBoot(tokens);
    BootIsHealthy(tokens);
    hide LocksHeld, Healthy;
  }

  /**
   After every run a held lock has a live agent, so the orphan sweep has
   nothing to do and the race recovery of `agent_hello` is never taken.
   */
  lemma LocksAreLive(tokens: TokenFile, now: real, today: int, es: seq<Event>, rules: Rules)
    requires Valid(Start(tokens, now, today), es, rules) && rules.oneHello
    ensures var s := Run(Start(tokens, now, today), es).server;
            && LocksHeld(s)
            && OrphanSweep(s) == s
            && (forall c :: c in s.tokens ==> !Recovers(s.tokens[c], HeldLive(s, c)))
  {
    StartIsClean(tokens, now, today, rules.patient, rules.oneAccept);
    StartLocks(tokens, now, today);
    RunKeepsLocks(Start(tokens, now, today), es, rules, Blank);
    var s := Run(Start(tokens, now, today), es).server;
    SweepIsIdle(s);
    forall c | c in s.tokens ensures !Recovers(s.tokens[c], HeldLive(s, c)) {
      NothingToRecover(s, c);
    }
    hide Run, Valid;
  }

  /**
   A limited code admits at most the sessions that its record has left plus one
   for every restart of the server; a revoked record has none left.
   */
  lemma UsesLeftAreLimited(tokens: TokenFile, now: real, today: int, es: seq<Event>, rules: Rules, code: Code)
    requires Valid(Start(tokens, now, today), es, rules) && rules.oneHello
    requires code in tokens && !tokens[code].unlimited
    ensures Admissions(Start(tokens, now, today), es, code) <= Left(tokens[code]) + Restarts(es)
  {
    var w := Start(tokens, now, today);
    StartIsClean(tokens, now, today, rules.patient, rules.oneAccept);
    StartLocks(tokens, now, today);
    RunKeepsLocks(w, es, rules, code);
    assert LockFits(w.server.tokens[code]) && Left(w.server.tokens[code]) == Left(tokens[code]);
    LeftLimits(w, es, rules, code);
    hide Run, Valid, Admissions, Forgiven, Restarts;
  }

  /** A code created for n uses admits at most n sessions plus one for every restart of the server. */
  lemma UsesAreLimited(tokens: TokenFile, now: real, today: int, es: seq<Event>, rules: Rules,
                       code: Code, n: nat, minutes: int, expiry: Option<int>)
    requires Valid(Start(tokens, now, today), es, rules) && rules.oneHello
    requires n > 0 && code in tokens && tokens[code] == Created(n, minutes, expiry)
    ensures Admissions(Start(tokens, now, today), es, code) <= n + Restarts(es)
  {
    UsesLeftAreLimited(tokens, now, today, es, rules, code);
  }

  // ------------------------------------------------------------------
  // One agent for a code

  lemma StartIsSingle(tokens: TokenFile, now: real, today: int)
    ensures Single(Start(tokens, now, today).server)
  {
  }

  /**
   In a run without a kick that finds its agent and without a timer that wakes
   for a code somebody holds, no code ever has two connected agents, and at the
   end every code that has one is in use.
   */
  lemma OneAgentPerCode(tokens: TokenFile, now: real, today: int, es: seq<Event>, rules: Rules)
    requires Valid(Start(tokens, now, today), es, rules) && rules.oneHello
    requires Calm(Start(tokens, now, today), es)
    ensures !EverShared(Start(tokens, now, today), es)
    ensures Single(Run(Start(tokens, now, today), es).server)
  {
    StartIsClean(tokens, now, today, rules.patient, rules.oneAccept);
    StartLocks(tokens, now, today);
    StartIsSingle(tokens, now, today);
    CalmRun(Start(tokens, now, today), es, rules);
  }

  /** In any run a code ever has two connected agents iff a hello takes a code that has one but is not in use. */
  lemma SharedByHelloOnly(tokens: TokenFile, now: real, today: int, es: seq<Event>, rules: Rules)
    requires Valid(Start(tokens, now, today), es, rules) && rules.oneHello
    ensures EverShared(Start(tokens, now, today), es) <==> EverDoubles(Start(tokens, now, today), es)
  {
    StartIsClean(tokens, now, today, rules.patient, rules.oneAccept);
    StartIsSingle(tokens, now, today);
    SharedIff(Start(tokens, now, today), es, rules);
  }

  /**
   After any run, the next event takes the lock from a code that is in use and
   leaves an agent connected that holds it iff it is a kick that found a holder,
   a timer of the code waking, or the closing of one of several holders.
   */
  lemma LockLostIff(tokens: TokenFile, now: real, today: int, es: seq<Event>, rules: Rules, e: Event, code: Code)
    requires Valid(Start(tokens, now, today), es, rules) && rules.oneHello
    requires Enabled(Run(Start(tokens, now, today), es), e, rules)
    requires InUseLive(Run(Start(tokens, now, today), es).server, code)
    ensures var w := Run(Start(tokens, now, today), es);
            FreeLive(ServerStep(w, e), code)
            <==> Frees(e, code) || LosesHolder(w.server.pairing.agentTokens, e, code)
  {
    StartIsClean(tokens, now, today, rules.patient, rules.oneAccept);
    RunKeepsPairing(Start(tokens, now, today), es, rules);
    StartLocks(tokens, now, today);
    RunKeepsHealthy(Start(tokens, now, today), es, rules);
    var w := Run(Start(tokens, now, today), es);
    ControllersSeated(w, rules.oneAccept);
    hide Run, Valid, Enabled, ServerStep, InUseLive, FreeLive, LosesHolder;
    StepFreesIff(w, e, rules, code);
  }

  // ------------------------------------------------------------------
  // Session length

  lemma {:induction false} RunKeepsSchedule(w: World, es: seq<Event>, rules: Rules)
    requires Valid(w, es, rules) && rules.punctual
    requires Scheduled(w) && WorldDeskOk(w, rules.oneAccept)
    ensures Scheduled(Run(w, es))
    decreases |es|
  {
    hide Enabled, Step, Scheduled, DeskOk;
    if es != [] {
      ControllersSeated(w, rules.oneAccept);
      StepKeepsSchedule(w, es[0], rules);
      StepKeepsDesk(w, es[0], rules);
      RunKeepsSchedule(Step(w, es[0]), es[1..], rules);
    }
  }

  lemma StartIsScheduled(tokens: TokenFile, now: real, today: int)
    requires LengthsOk(tokens)
    ensures Scheduled(Start(tokens, now, today))
  {
  }

  /**
   When sleeping tasks wake on time, no agent is connected later than half a
   second after the length of its code, as the file gave it at the start,
   has passed since its hello; and until then a timer or a forced disconnect
   for it is sleeping.
   */
  lemma NobodyOverstays(tokens: TokenFile, now: real, today: int, es: seq<Event>, rules: Rules, a: Sid)
    requires Valid(Start(tokens, now, today), es, rules) && rules.punctual && LengthsOk(tokens)
    requires a in Run(Start(tokens, now, today), es).server.pairing.agents
    ensures InTime(Run(Start(tokens, now, today), es), tokens, a)
  {
    StartIsClean(tokens, now, today, false, rules.oneAccept);
    StartIsScheduled(tokens, now, today);
    RunKeepsSchedule(Start(tokens, now, today), es, rules);
    StartIsTimed(tokens, now, today);
    RunKeepsTimed(Start(tokens, now, today), es, LengthsOf(tokens));
    EndsInTime(Run(Start(tokens, now, today), es), tokens, a);
    hide Run, Valid, InTime;
  }

  /** The agent's session has not ended, or it ended less than half a second ago, and its end is scheduled. */
  ghost predicate InTime(w: World, tokens: TokenFile, a: Sid) {
    && a in w.session && w.session[a].code in tokens
    && var end := w.session[a].begun + 60.0 * tokens[w.session[a].code].maxMinutes as real;
       w.now <= end + 0.5 && Ending(w.server.timers, w.server.stops, a, end)
  }

  lemma EndsInTime(w: World, tokens: TokenFile, a: Sid)
    requires Scheduled(w) && SessionsTimed(w, LengthsOf(tokens)) && a in w.server.pairing.agents
    ensures InTime(w, tokens, a)
  {
    assert a in w.sessionEnd;
    assert Ending(w.server.timers, w.server.stops, a, w.sessionEnd[a]);
    hide LengthsOk, LengthsAre;
  }

  /** After every run, a held lock expires exactly its length after it was taken. */
  lemma WindowsHold(tokens: TokenFile, now: real, today: int, es: seq<Event>, rules: Rules, code: Code)
    requires Valid(Start(tokens, now, today), es, rules)
    requires code in Run(Start(tokens, now, today), es).server.tokens
    requires Run(Start(tokens, now, today), es).server.tokens[code].inUse
    ensures var t := Run(Start(tokens, now, today), es).server.tokens[code];
            && t.firstUsedAt.Some?
            && t.expiresAt == Some(t.firstUsedAt.value + 60.0 * t.maxMinutes as real)
  {
    StartLocks(tokens, now, today);
    RunKeepsHealthy(Start(tokens, now, today), es, rules);
    hide Run, Valid;
  }

  // ------------------------------------------------------------------
  // Blocking

  lemma {:induction false} RunKeepsOk(w: World, es: seq<Event>, rules: Rules)
    requires Valid(w, es, rules) && L.Ok(w.server.failed, w.lastFail, w.now) && w.now >= 0.0
    ensures L.Ok(Run(w, es).server.failed, Run(w, es).lastFail, Run(w, es).now)
    decreases |es|
  {
    hide Enabled, Step, L.Ok;
    if es != [] {
      Blocking.StepKeepsOk(w, es[0], rules);
      RunKeepsOk(Step(w, es[0]), es[1..], rules);
    }
  }

  /**
   After every run an address has failed at most seven times in its window;
   from the fifth time on its block ends five minutes after its last failure,
   and so at most fifteen after the first one counted.
   */
  lemma BlocksAreBounded(tokens: TokenFile, now: real, today: int, es: seq<Event>, rules: Rules, ip: Ip)
    requires Valid(Start(tokens, now, today), es, rules) && now >= 0.0
    requires ip in Run(Start(tokens, now, today), es).server.failed
    ensures var w := Run(Start(tokens, now, today), es);
            var e := w.server.failed[ip];
            && ip in w.lastFail
            && 1 <= e.count <= 7
            && e.firstFail <= w.lastFail[ip] <= w.now
            && (e.count >= 5 ==>
                  && e.blockedUntil == w.lastFail[ip] + 300.0
                  && e.firstFail + 300.0 * (e.count - 5) as real <= w.lastFail[ip] <= e.firstFail + 600.0)
            && e.blockedUntil <= e.firstFail + 900.0
            && (L.IsBlocked(w.server.failed, ip, w.now) ==> e.count >= 5)
  {
    RunKeepsOk(Start(tokens, now, today), es, rules);
    var w := Run(Start(tokens, now, today), es);
    L.BlockIsBounded(w.server.failed[ip], w.lastFail[ip], w.now);
    hide Run, Valid;
  }

  /**
   After every run an address is blocked iff five of its failures since it was
   last let in, or the server started, fall into one window and the last of
   them is less than five minutes ago.
   */
  lemma BlockedIff(tokens: TokenFile, now: real, today: int, es: seq<Event>, rules: Rules, ip: Ip)
    requires Valid(Start(tokens, now, today), es, rules) && now >= 0.0
    ensures var w := Run(Start(tokens, now, today), es);
            L.IsBlocked(w.server.failed, ip, w.now) <==> Barred(FailsOf(w.fails, ip), w.now)
  {
    RunCounts(tokens, now, today, es, rules);
    hide Run, Valid;
    BlockedIffBarred(Run(Start(tokens, now, today), es), ip);
  }

  /**
   After every run, an address whose last five failures fell into ten minutes
   that followed ten quiet ones is blocked until five minutes after the last.
   */
  lemma FiveFailuresBlock(tokens: TokenFile, now: real, today: int, es: seq<Event>, rules: Rules, ip: Ip)
    requires Valid(Start(tokens, now, today), es, rules) && now >= 0.0
    requires FiveAfterQuiet(FailsOf(Run(Start(tokens, now, today), es).fails, ip))
    ensures var w := Run(Start(tokens, now, today), es);
            var ts := FailsOf(w.fails, ip);
            L.IsBlocked(w.server.failed, ip, w.now) <==> w.now < ts[|ts| - 1] + 300.0
  {
    hide *;
    RunCounts(tokens, now, today, es, rules);
    FiveBlock(Run(Start(tokens, now, today), es), ip);
  }

  /** After any run, a hello that lets in an agent or a controller leaves its address without failures. */
  lemma LetInStartsAfresh(tokens: TokenFile, now: real, today: int, es: seq<Event>, rules: Rules, e: Event)
    requires Valid(Start(tokens, now, today), es, rules) && now >= 0.0
    requires Enabled(Run(Start(tokens, now, today), es), e, rules)
    requires LetIn(Run(Start(tokens, now, today), es), e).Some?
    ensures var v := Step(Run(Start(tokens, now, today), es), e);
            e.ip !in v.server.failed && FailsOf(v.fails, e.ip) == []
  {
    var w := Run(Start(tokens, now, today), es);
    RunCounts(tokens, now, today, es, rules);
    StepKeepsCounts(w, e, rules);
    LetInForgets(w, e);
    hide Run, Valid, Enabled, LetIn, FailsAfter, ServerStep;
  }

  /** A run without its hourly cleanups admits the same sessions and blocks the same addresses. */
  lemma CleanupsDoNotMatter(tokens: TokenFile, now: real, today: int, es: seq<Event>, rules: Rules, code: Code, ip: Ip)
    requires Valid(Start(tokens, now, today), es, rules) && now >= 0.0
    ensures var w := Start(tokens, now, today);
            var v, u := Run(w, es), Run(w, Blocking.Unclean(es));
            && Valid(w, Blocking.Unclean(es), rules)
            && v == u.(server := u.server.(failed := v.server.failed))
            && L.IsBlocked(v.server.failed, ip, v.now) == L.IsBlocked(u.server.failed, ip, v.now)
            && Admissions(w, es, code) == Admissions(w, Blocking.Unclean(es), code)
  {
    var w := Start(tokens, now, today);
    Blocking.CleanupIsUnobservable(w, w, es, rules, code);
    hide Run, Valid, Admissions, Blocking.Unclean;
  }
}
