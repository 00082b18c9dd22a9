/**
 Who changes what: for every event, and every entry of every table, what is
 there afterwards and which condition on the state before decided it.
 */
module Changes {
  import opened Basics
  import opened Tokens
  import opened Relay
  import opened World
  import opened Answers
  import opened Ledger
  import opened Seating
  import opened Helpdesk
  import opened Sessions
  import Limiter
  import P = Pairing
  import C = Control

  /** What holds of every world that a run with one hello for each agent reaches. */
  ghost predicate Settled(w: World) {
    PairingOk(w.server.pairing, w.roles, w.helloed, false) && WorldDeskOk(w, false)
  }

  /** The open socket that closes, if any. */
  function Gone(w: World, e: Event): Option<Sid> {
    match e
    case Close(sid) => Some(sid)
    case StopWakes(q) => if q.sid in w.roles then Some(q.sid) else None
    case _ => None
  }

  // ------------------------------------------------------------------
  // What decides

  /** The event lets this agent in. */
  predicate Enters(w: World, e: Event, a: Sid) {
    e.AgentHello? && e.sid == a && HelloPasses(w.server, e.ip, e.code, w.now, w.today)
  }

  /** The agent that the event gives the browser: the one it asked for, or one that it waited for. */
  function Given(w: World, e: Event, b: Sid): Option<Sid> {
    match e
    case BrowserPair(x, ip, code, holder) =>
      if x == b && MayAsk(w.server, b, ip, code, w.now) && Usable(w.server, code, w.today)
         && Found(w.server, holder) && HasRoom(w.server, holder.value)
      then holder else None
    case AgentHello(a, _, code, multi, order) =>
      if Enters(w, e, a) && b in order && (multi || order[0] == b) then Some(a) else None
    case _ => None
  }

  /** The event makes the browser wait for the code. */
  predicate Queues(w: World, e: Event, b: Sid, code: Code) {
    && e.BrowserPair? && e.sid == b && e.code == code
    && MayAsk(w.server, b, e.ip, code, w.now) && Usable(w.server, code, w.today) && !Found(w.server, e.holder)
  }

  // ------------------------------------------------------------------
  // The pairing tables

  function PairingWithout(s: State, sid: Sid): P.Tables {
    var p := s.pairing.(browserAuth := s.pairing.browserAuth - {sid});
    if sid in s.desk.controllers then p
    else if sid in s.pairing.agents then P.AgentGone(p, sid)
    else P.BrowserGone(p, sid)
  }

  lemma ClosePairing(s: State, sid: Sid)
    ensures OnDisconnect(s, sid).pairing == PairingWithout(s, sid)
  {
    hide BurnCode, P.AgentGone, P.BrowserGone, C.ControllerGone, C.EndByBrowser;
  }

  lemma GonePairing(w: World, e: Event)
    requires e.Close? || e.StopWakes?
    ensures ServerStep(w, e).pairing
         == if Gone(w, e).Some? then PairingWithout(w.server, Gone(w, e).value) else w.server.pairing
  {
    if e.Close? {
      ClosePairing(w.server, e.sid);
    } else {
      ClosePairing(w.server.(stops := w.server.stops - multiset{e.stop}), e.stop.sid);
    }
    hide OnDisconnect, P.AgentGone, P.BrowserGone;
  }

  lemma PairPairing(w: World, e: Event)
    requires e.BrowserPair?
    ensures var p, q := w.server.pairing, ServerStep(w, e).pairing;
            && (Queues(w, e, e.sid, e.code) ==> q == P.Enqueue(p, e.sid, e.code))
            && (Given(w, e, e.sid).Some? ==> q == P.Pair(p, e.sid, Given(w, e, e.sid).value))
            && (!Queues(w, e, e.sid, e.code) && Given(w, e, e.sid).None? ==> q == p)
  {
    PairAnswers(w.server, e.sid, e.ip, e.code, e.holder, w.now, w.today);
    hide PairReplyOf, P.Enqueue, P.Pair, MayAsk, Usable, HasRoom, Found, OutOfDate, Limiter.IsBlocked, Fail;
  }

  lemma HelloPairs(w: World, e: Event)
    requires e.AgentHello?
    ensures ServerStep(w, e).pairing
         == if Enters(w, e, e.sid) then P.Accept(w.server.pairing, e.sid, e.code, e.multi, e.order)
            else w.server.pairing
  {
    HelloPairing(w.server, e.sid, e.ip, e.code, e.multi, e.order, w.now, w.today);
    HelloAnswers(w.server, e.ip, e.code, w.now, w.today);
    hide OnAgentHello, HelloReplyOf, HelloPasses, HelloFails, CountsAsFailure, P.Accept;
  }

  /** The entry of an agent: its code and its flag. */
  function AgentEntry(p: P.Tables, a: Sid): Option<(Code, bool)> {
    if a in p.agents && a in p.agentTokens && a in p.allowMulti then Some((p.agentTokens[a], p.allowMulti[a])) else None
  }

  // One browser and one agent before and after an operation on the tables.

  /** Who is served: everybody who waits, or the first of them. */
  lemma WinnersAre(p: P.Tables, a: Sid, multi: bool, order: seq<Sid>, b: Sid)
    requires P.Of(p.agentBrowser, a) == {}
    ensures b in P.Winners(p, a, multi, order) <==> b in order && (multi || order[0] == b)
  {
  }

  lemma PairAllEntries(p: P.Tables, a: Sid, bs: set<Sid>, b: Sid, x: Sid)
    ensures var q := P.PairAll(p, a, bs);
            && Lookup(q.browserAgent, b) == (if b in bs then Some(a) else Lookup(p.browserAgent, b))
            && (b in P.Of(q.agentBrowser, x) <==> b in P.Of(p.agentBrowser, x) || (x == a && b in bs))
            && q == p.(browserAgent := q.browserAgent, agentBrowser := q.agentBrowser)
  {
  }

  lemma EnrolEntries(p: P.Tables, a: Sid, code: Code, multi: bool, b: Sid, x: Sid, c: Code)
    ensures var q := P.Enrol(p, a, code, multi);
            && (b in P.Of(q.pending, c) <==> c != code && b in P.Of(p.pending, c))
            && AgentEntry(q, x) == (if x == a then Some((code, multi)) else AgentEntry(p, x))
            && q.browserAuth == p.browserAuth && q.browserAgent == p.browserAgent && q.agentBrowser == p.agentBrowser
  {
  }

  lemma AcceptEntries(p: P.Tables, a: Sid, code: Code, multi: bool, order: seq<Sid>, b: Sid, x: Sid, c: Code)
    requires P.Of(p.agentBrowser, a) == {}
    ensures var q := P.Accept(p, a, code, multi, order);
            var chosen := b in order && (multi || order[0] == b);
            && Lookup(q.browserAgent, b) == (if chosen then Some(a) else Lookup(p.browserAgent, b))
            && (b in P.Of(q.agentBrowser, x) <==> b in P.Of(p.agentBrowser, x) || (x == a && chosen))
            && (b in P.Of(q.pending, c) <==> c != code && b in P.Of(p.pending, c))
            && AgentEntry(q, x) == (if x == a then Some((code, multi)) else AgentEntry(p, x))
            && q.browserAuth == p.browserAuth
  {
    var e := P.Enrol(p, a, code, multi);
    EnrolEntries(p, a, code, multi, b, x, c);
    P.DrainPairsWinners(e, a, multi, order);
    WinnersAre(e, a, multi, order, b);
    PairAllEntries(e, a, P.Winners(e, a, multi, order), b, x);
    hide P.Enrol, P.Drain, P.PairAll, P.Winners, P.Of, Lookup;
  }

  lemma PairEntries(p: P.Tables, b: Sid, a: Sid, y: Sid, x: Sid)
    ensures var q := P.Pair(p, b, a);
            && Lookup(q.browserAgent, y) == (if y == b then Some(a) else Lookup(p.browserAgent, y))
            && (y in P.Of(q.agentBrowser, x) <==> y in P.Of(p.agentBrowser, x) || (x == a && y == b))
            && q.pending == p.pending && AgentEntry(q, x) == AgentEntry(p, x) && q.browserAuth == p.browserAuth
  {
  }

  lemma EnqueueEntries(p: P.Tables, b: Sid, code: Code, y: Sid, c: Code)
    ensures var q := P.Enqueue(p, b, code);
            && (y in P.Of(q.pending, c) <==> y in P.Of(p.pending, c) || (y == b && c == code))
            && q == p.(pending := q.pending)
  {
  }

  lemma AgentGoneEntries(p: P.Tables, a: Sid, b: Sid, x: Sid)
    ensures var q := P.AgentGone(p, a);
            && Lookup(q.browserAgent, b) == (if b in P.Of(p.agentBrowser, a) then None else Lookup(p.browserAgent, b))
            && (b in P.Of(q.agentBrowser, x) <==> x != a && b in P.Of(p.agentBrowser, x))
            && q.pending == p.pending && q.browserAuth == p.browserAuth
            && AgentEntry(q, x) == (if x == a then None else AgentEntry(p, x))
  {
  }

  lemma BrowserGoneEntries(p: P.Tables, b: Sid, y: Sid, x: Sid, c: Code)
    ensures var q := P.BrowserGone(p, b);
            && Lookup(q.browserAgent, y) == (if y == b then None else Lookup(p.browserAgent, y))
            && (y in P.Of(q.agentBrowser, x) <==>
                  y in P.Of(p.agentBrowser, x) && !(y == b && Lookup(p.browserAgent, b) == Some(x)))
            && (y in P.Of(q.pending, c) <==> y != b && y in P.Of(p.pending, c))
            && AgentEntry(q, x) == AgentEntry(p, x) && q.browserAuth == p.browserAuth
  {
    P.WithoutDrops(p.pending, b);
    LeaveEntries(p.agentBrowser, b, y, x, if b in p.browserAgent then p.browserAgent[b] else x);
    hide P.Without, P.Leave;
  }

  lemma LeaveEntries(groups: P.Groups<Sid>, b: Sid, y: Sid, x: Sid, a: Sid)
    ensures y in P.Of(P.Leave(groups, a, b), x) <==> y in P.Of(groups, x) && !(y == b && x == a)
  {
  }

  // The laws of the pairing tables.

  /** Events that leave every pairing table as it is. */
  predicate PairsNothing(e: Event) {
    !(e.AgentHello? || e.BrowserHello? || e.BrowserPair? || e.Close? || e.StopWakes? || e.Restart?)
  }

  ghost predicate Fresh(w: World, e: Event) {
    e.AgentHello? ==> e.sid !in w.server.pairing.agents && P.Of(w.server.pairing.agentBrowser, e.sid) == {}
  }

  lemma HelloIsFresh(w: World, e: Event, rules: Rules)
    requires Enabled(w, e, rules) && rules.oneHello && Settled(w)
    ensures Fresh(w, e)
  {
    hide P.Lists, P.Holder, P.WaitsElsewhere, DeskOk;
  }

  /** The seats of the socket that closes: an agent, a controller or a browser, and nothing else besides. */
  lemma GoneSeats(w: World, sid: Sid)
    requires Settled(w) && sid in w.roles
    ensures var s := w.server;
            && (sid in s.desk.controllers ==> w.roles[sid] == Controller)
            && (sid in s.pairing.agents ==> w.roles[sid] == Agent)
            && (w.roles[sid] != Browser ==> sid !in s.pairing.browserAuth && sid !in s.pairing.browserAgent
                                             && forall c :: sid !in P.Of(s.pairing.pending, c))
  {
    if w.roles[sid] != Browser { NotSeatedElsewhere(w.server.pairing, w.roles, w.helloed, sid); }
    hide P.Wired, P.Of;
  }

  /** The event takes the browser's agent away: a restart, or either of the two sockets closes. */
  predicate LosesAgent(w: World, e: Event, b: Sid) {
    || e.Restart?
    || Gone(w, e) == Some(b)
    || (Gone(w, e).Some? && Gone(w, e).value in w.server.pairing.agents
        && b in P.Of(w.server.pairing.agentBrowser, Gone(w, e).value))
  }

  /** The event strikes the browser off the agent's list: a restart, or either socket closes. */
  predicate Unlists(w: World, e: Event, b: Sid, a: Sid) {
    || e.Restart?
    || Gone(w, e) == Some(a)
    || (Gone(w, e) == Some(b) && Lookup(w.server.pairing.browserAgent, b) == Some(a))
  }

  /** The browser no longer waits for the code: a restart, its socket closes, or the code gets its agent. */
  predicate StopsWaiting(w: World, e: Event, b: Sid, code: Code) {
    e.Restart? || Gone(w, e) == Some(b) || (e.AgentHello? && e.code == code && Enters(w, e, e.sid))
  }

  /** Everything about an event that browser b, agent a or the waiting set of the code can notice. */
  datatype Cause = Cause(
    given: Option<Sid>,
    queues: bool,
    loses: bool,
    unlists: bool,
    forgets: bool,
    entry: Option<(Code, bool)>,
    leaves: bool,
    greets: bool,
    closes: bool)

  const NOTHING := Cause(None, false, false, false, false, None, false, false, false)

  function CauseOf(w: World, e: Event, b: Sid, a: Sid, code: Code): Cause {
    Cause(Given(w, e, b), Queues(w, e, b, code), LosesAgent(w, e, b), Unlists(w, e, b, a), StopsWaiting(w, e, b, code),
          if Enters(w, e, a) then Some((e.code, e.multi)) else None, e.Restart? || Gone(w, e) == Some(a),
          e.BrowserHello? && e.sid == b, e.Restart? || Gone(w, e) == Some(b))
  }

  /** What the cause makes of each entry. */
  ghost predicate Changed(p: P.Tables, q: P.Tables, cause: Cause, b: Sid, a: Sid, code: Code) {
    && Lookup(q.browserAgent, b) ==
       (if cause.given.Some? then cause.given else if cause.loses then None else Lookup(p.browserAgent, b))
    && (b in P.Of(q.agentBrowser, a) <==> cause.given == Some(a) || (b in P.Of(p.agentBrowser, a) && !cause.unlists))
    && (b in P.Of(q.pending, code) <==> cause.queues || (b in P.Of(p.pending, code) && !cause.forgets))
    && AgentEntry(q, a) == (if cause.entry.Some? then cause.entry else if cause.leaves then None else AgentEntry(p, a))
    && (b in q.browserAuth <==> cause.greets || (b in p.browserAuth && !cause.closes))
  }

  lemma NothingChanged(p: P.Tables, b: Sid, a: Sid, code: Code)
    ensures Changed(p, p, NOTHING, b, a, code)
  {
    hide P.Of, Lookup, AgentEntry;
  }

  /** Only hellos and requests for a code give anything. */
  lemma NothingGiven(w: World, e: Event, b: Sid, a: Sid, code: Code)
    requires !e.AgentHello? && !e.BrowserPair?
    ensures Given(w, e, b) == None && !Queues(w, e, b, code) && !Enters(w, e, a)
  {
  }

  /** Only a closing socket is gone. */
  lemma NobodyGone(w: World, e: Event)
    requires !e.Close? && !e.StopWakes?
    ensures Gone(w, e) == None
  {
  }

  lemma NoCause(w: World, e: Event, b: Sid, a: Sid, code: Code)
    requires PairsNothing(e) || ((e.Close? || e.StopWakes?) && Gone(w, e).None?)
    ensures CauseOf(w, e, b, a, code) == NOTHING
  {
    NothingGiven(w, e, b, a, code);
    if PairsNothing(e) { NobodyGone(w, e); }
    hide Given, Queues, Enters, Gone;
  }

  lemma HelloCause(w: World, e: Event, b: Sid, a: Sid, code: Code)
    requires e.AgentHello?
    ensures var enters := Enters(w, e, e.sid);
            var chosen := enters && b in e.order && (e.multi || e.order[0] == b);
            CauseOf(w, e, b, a, code) ==
              Cause(if chosen then Some(e.sid) else None, false, false, false, enters && e.code == code,
                    if enters && a == e.sid then Some((e.code, e.multi)) else None, false, false, false)
  {
    NobodyGone(w, e);
    hide HelloPasses, Gone;
  }

  lemma HelloChanges(w: World, e: Event, b: Sid, a: Sid, code: Code)
    requires e.AgentHello? && Fresh(w, e)
    ensures PairingChanges(w, e, b, a, code)
  {
    HelloPairs(w, e);
    HelloCause(w, e, b, a, code);
    NothingChanged(w.server.pairing, b, a, code);
    AcceptEntries(w.server.pairing, e.sid, e.code, e.multi, e.order, b, a, code);
    hide ServerStep, CauseOf, Enters, P.Accept, P.Of, Lookup, AgentEntry;
  }

  lemma PairCause(w: World, e: Event, b: Sid, a: Sid, code: Code)
    requires e.BrowserPair?
    ensures CauseOf(w, e, b, a, code) ==
            NOTHING.(given := if b == e.sid then Given(w, e, e.sid) else None,
                     queues := b == e.sid && code == e.code && Queues(w, e, e.sid, e.code))
    ensures !(Given(w, e, e.sid).Some? && Queues(w, e, e.sid, e.code))
  {
    NobodyGone(w, e);
    hide MayAsk, Usable, HasRoom, Gone;
  }

  lemma PairChanges(w: World, e: Event, b: Sid, a: Sid, code: Code)
    requires e.BrowserPair?
    ensures PairingChanges(w, e, b, a, code)
  {
    PairPairing(w, e);
    PairCause(w, e, b, a, code);
    if Given(w, e, e.sid).Some? {
      PairEntries(w.server.pairing, e.sid, Given(w, e, e.sid).value, b, a);
    } else if Queues(w, e, e.sid, e.code) {
      EnqueueEntries(w.server.pairing, e.sid, e.code, b, code);
    } else {
      NothingChanged(w.server.pairing, b, a, code);
    }
    hide ServerStep, CauseOf, Given, Queues, P.Pair, P.Enqueue, P.Of, Lookup, AgentEntry;
  }

  /** The cause when an open socket closes. */
  function Closing(s: State, sid: Sid, b: Sid, a: Sid): Cause {
    NOTHING.(loses := b == sid || (sid in s.pairing.agents && b in P.Of(s.pairing.agentBrowser, sid)),
             unlists := a == sid || (b == sid && Lookup(s.pairing.browserAgent, b) == Some(a)),
             forgets := b == sid, leaves := a == sid, closes := b == sid)
  }

  lemma GoneCause(w: World, e: Event, b: Sid, a: Sid, code: Code)
    requires (e.Close? || e.StopWakes?) && Gone(w, e).Some?
    ensures CauseOf(w, e, b, a, code) == Closing(w.server, Gone(w, e).value, b, a)
  {
    NothingGiven(w, e, b, a, code);
    hide Given, Queues, Enters, Gone;
  }

  lemma AgentLeaves(p: P.Tables, x: Sid, b: Sid, a: Sid, code: Code)
    requires x !in p.browserAuth && x !in p.browserAgent && x !in P.Of(p.pending, code)
    ensures Changed(p, P.AgentGone(p.(browserAuth := p.browserAuth - {x}), x),
                    NOTHING.(loses := b == x || b in P.Of(p.agentBrowser, x),
                             unlists := a == x || (b == x && Lookup(p.browserAgent, b) == Some(a)),
                             forgets := b == x, leaves := a == x, closes := b == x), b, a, code)
  {
    AgentGoneEntries(p.(browserAuth := p.browserAuth - {x}), x, b, a);
    hide P.AgentGone, P.Of;
  }

  lemma AgentCloses(w: World, x: Sid, b: Sid, a: Sid, code: Code)
    requires Settled(w) && x in w.roles && x in w.server.pairing.agents
    ensures Changed(w.server.pairing, PairingWithout(w.server, x), Closing(w.server, x, b, a), b, a, code)
  {
    GoneSeats(w, x);
    AgentLeaves(w.server.pairing, x, b, a, code);
    hide P.AgentGone, P.Of, Settled, Changed;
  }

  lemma GroupsOfAgents(w: World, a: Sid)
    requires Settled(w)
    ensures a !in w.server.pairing.agents ==> P.Of(w.server.pairing.agentBrowser, a) == {}
    ensures a !in w.server.pairing.agents ==> AgentEntry(w.server.pairing, a) == None
  {
    hide Seated, DeskOk;
  }

  lemma BrowserCloses(w: World, x: Sid, b: Sid, a: Sid, code: Code)
    requires Settled(w) && x !in w.server.pairing.agents && x !in w.server.desk.controllers
    ensures Changed(w.server.pairing, PairingWithout(w.server, x), Closing(w.server, x, b, a), b, a, code)
  {
    var p := w.server.pairing;
    GroupsOfAgents(w, a);
    BrowserGoneEntries(p.(browserAuth := p.browserAuth - {x}), x, b, a, code);
    hide P.BrowserGone, P.Of, Settled, AgentEntry;
  }

  lemma ControllerCloses(w: World, x: Sid, b: Sid, a: Sid, code: Code)
    requires Settled(w) && x in w.roles && x in w.server.desk.controllers
    ensures Changed(w.server.pairing, PairingWithout(w.server, x), Closing(w.server, x, b, a), b, a, code)
  {
    GoneSeats(w, x);
    GroupsOfAgents(w, a);
    hide P.Of, Settled;
  }

  lemma CloseChanges(w: World, e: Event, b: Sid, a: Sid, code: Code)
    requires (e.Close? || e.StopWakes?) && Settled(w) && (Gone(w, e).Some? ==> Gone(w, e).value in w.roles)
    ensures PairingChanges(w, e, b, a, code)
  {
    hide Changed, Settled, CauseOf, Closing, Gone, ServerStep, PairingWithout;
    GonePairing(w, e);
    if Gone(w, e).None? {
      NoCause(w, e, b, a, code);
      NothingChanged(w.server.pairing, b, a, code);
    } else {
      var x := Gone(w, e).value;
      GoneCause(w, e, b, a, code);
      if x in w.server.desk.controllers {
        ControllerCloses(w, x, b, a, code);
      } else if x in w.server.pairing.agents {
        AgentCloses(w, x, b, a, code);
      } else {
        BrowserCloses(w, x, b, a, code);
      }
    }
  }

  lemma RestartChanges(w: World, e: Event, b: Sid, a: Sid, code: Code)
    requires e.Restart?
    ensures PairingChanges(w, e, b, a, code)
  {
    NothingGiven(w, e, b, a, code);
    hide Sweep, Given, Queues, Enters;
  }

  lemma OtherChanges(w: World, e: Event, b: Sid, a: Sid, code: Code)
    requires PairsNothing(e)
    ensures PairingChanges(w, e, b, a, code)
  {
    NoCause(w, e, b, a, code);
    BystanderPairing(w, e);
    NothingChanged(w.server.pairing, b, a, code);
    hide ServerStep, CauseOf, Changed;
  }

  lemma AuthCause(w: World, e: Event, b: Sid, a: Sid, code: Code)
    requires e.BrowserHello?
    ensures CauseOf(w, e, b, a, code) == NOTHING.(greets := b == e.sid)
  {
    NothingGiven(w, e, b, a, code);
    NobodyGone(w, e);
    hide Given, Queues, Enters, Gone;
  }

  lemma AuthChanges(w: World, e: Event, b: Sid, a: Sid, code: Code)
    requires e.BrowserHello? && Settled(w)
    ensures PairingChanges(w, e, b, a, code)
  {
    AuthCause(w, e, b, a, code);
    BrowserHelloRepairsNothing(w.server, e.sid);
    hide OnBrowserHello, CauseOf, P.Of, Lookup;
  }

  /** What becomes of browser b, agent a and the waiting set of the code. */
  ghost predicate PairingChanges(w: World, e: Event, b: Sid, a: Sid, code: Code) {
    Changed(w.server.pairing, ServerStep(w, e).pairing, CauseOf(w, e, b, a, code), b, a, code)
  }

  /** What any event makes of the pairing tables, entry by entry. */
  lemma PairingLaws(w: World, e: Event, rules: Rules, b: Sid, a: Sid, code: Code)
    requires Enabled(w, e, rules) && rules.oneHello && Settled(w)
    ensures PairingChanges(w, e, b, a, code)
  {
    hide PairingChanges, Settled;
    match e
    case AgentHello(_, _, _, _, _) => HelloIsFresh(w, e, rules); HelloChanges(w, e, b, a, code);
    case BrowserPair(_, _, _, _) => PairChanges(w, e, b, a, code);
    case BrowserHello(_) => AuthChanges(w, e, b, a, code);
    case Close(_) => CloseChanges(w, e, b, a, code);
    case StopWakes(_) => CloseChanges(w, e, b, a, code);
    case Restart => RestartChanges(w, e, b, a, code);
    case _ => OtherChanges(w, e, b, a, code);
  }

  // ------------------------------------------------------------------
  // The remote-control desk

  /** The event registers this controller. */
  predicate Joins(w: World, e: Event, c: Sid) {
    && e.ControllerHello? && e.sid == c && e.code != Blank
    && !Limiter.IsBlocked(w.server.failed, e.ip, w.now) && Found(w.server, e.holder)
  }

  /** The browser whose request the event hands to the controller. */
  function Handed(w: World, e: Event, c: Sid): Option<Sid> {
    if e.RemoteRequest? && e.pick == Some(c) && Unattended(w.server, e.sid) && CodeOf(w.server, e.sid).Some?
    then Some(e.sid) else None
  }

  /**
   The event ends what the controller is doing: a restart, either socket
   closes, either end ends it, or the controller repeats its accept.
   */
  predicate Releases(w: World, e: Event, c: Sid) {
    var d := w.server.desk;
    || e.Restart?
    || Gone(w, e) == Some(c)
    || (e.ControllerEnd? && e.sid == c)
    || (Repeats(w, e) && e.sid == c)
    || (c in d.ctrlBrowser && (Gone(w, e) == Some(d.ctrlBrowser[c]) || (e.RemoteEnd? && e.sid == d.ctrlBrowser[c])))
  }

  /** The event ends the remote control of the browser; a repeated accept does not. */
  predicate Deactivates(w: World, e: Event, b: Sid) {
    var d := w.server.desk;
    || e.Restart?
    || Gone(w, e) == Some(b)
    || (e.RemoteEnd? && e.sid == b)
    || (b in d.browserCtrl && (Gone(w, e) == Some(d.browserCtrl[b]) || (e.ControllerEnd? && e.sid == d.browserCtrl[b])))
  }

  /** Everything about an event that controller c or browser b can notice. */
  datatype DeskCause = DeskCause(
    joins: Option<Code>,
    vanishes: bool,
    handed: Option<Sid>,
    releases: bool,
    activates: bool,
    deactivates: bool)

  const DESK_NOTHING := DeskCause(None, false, None, false, false, false)

  function DeskCauseOf(w: World, e: Event, c: Sid, b: Sid): DeskCause {
    DeskCause(if Joins(w, e, c) then Some(e.code) else None, e.Restart? || Gone(w, e) == Some(c),
              Handed(w, e, c), Releases(w, e, c),
              e.ControllerAccept? && Lookup(w.server.desk.ctrlBrowser, e.sid) == Some(b), Deactivates(w, e, b))
  }

  /** What the cause makes of each entry. */
  ghost predicate DeskChanged(d: C.Desk, d': C.Desk, cause: DeskCause, c: Sid, b: Sid) {
    && Lookup(d'.watching, c) ==
       (if cause.joins.Some? then cause.joins else if cause.vanishes then None else Lookup(d.watching, c))
    && Lookup(d'.ctrlBrowser, c) ==
       (if cause.handed.Some? then cause.handed else if cause.releases then None else Lookup(d.ctrlBrowser, c))
    && (b in d'.active <==> cause.activates || (b in d.active && !cause.deactivates))
  }

  /** What becomes of controller c and browser b. */
  ghost predicate DeskChanges(w: World, e: Event, c: Sid, b: Sid) {
    DeskChanged(w.server.desk, ServerStep(w, e).desk, DeskCauseOf(w, e, c, b), c, b)
  }

  lemma NothingOnDesk(d: C.Desk, c: Sid, b: Sid)
    ensures DeskChanged(d, d, DESK_NOTHING, c, b)
  {
  }

  /** Nobody asks, accepts or ends anything. */
  lemma NoDeskCause(w: World, e: Event, c: Sid, b: Sid)
    requires OffDesk(e) || ((e.Close? || e.StopWakes?) && Gone(w, e).None?)
    ensures DeskCauseOf(w, e, c, b) == DESK_NOTHING
  {
    if OffDesk(e) { NobodyGone(w, e); }
    hide Gone;
  }

  lemma OffDeskChanges(w: World, e: Event, c: Sid, b: Sid)
    requires OffDesk(e)
    ensures DeskChanges(w, e, c, b)
  {
    OffDeskDesk(w, e);
    NoDeskCause(w, e, c, b);
    NothingOnDesk(w.server.desk, c, b);
    hide ServerStep, DeskCauseOf, DeskChanged;
  }

  // One controller and one browser before and after an operation on the desk.

  lemma RegisterEntries(d: C.Desk, x: Sid, code: Code, c: Sid, b: Sid)
    ensures DeskChanged(d, C.Register(d, x, code), DESK_NOTHING.(joins := if c == x then Some(code) else None), c, b)
  {
  }

  lemma AssignEntries(d: C.Desk, x: Sid, y: Sid, c: Sid, b: Sid)
    ensures DeskChanged(d, C.Assign(d, x, y), DESK_NOTHING.(handed := if c == x then Some(y) else None), c, b)
  {
  }

  lemma AcceptChanges(d: C.Desk, x: Sid, c: Sid, b: Sid)
    requires C.Matched(d)
    ensures var given := Lookup(d.ctrlBrowser, x);
            DeskChanged(d, C.Accept(d, x).0,
                        DESK_NOTHING.(releases := c == x && given.Some? && given.value in d.active,
                                      activates := given == Some(b)), c, b)
  {
  }

  lemma ControllerEndEntries(d: C.Desk, x: Sid, c: Sid, b: Sid)
    requires C.Matched(d)
    ensures var cause := DESK_NOTHING.(releases := c == x, deactivates := Lookup(d.browserCtrl, b) == Some(x));
            && DeskChanged(d, C.EndByController(d, x), cause, c, b)
            && DeskChanged(d, C.ControllerGone(d, x), cause.(vanishes := c == x), c, b)
  {
  }

  lemma BrowserEndEntries(d: C.Desk, y: Sid, c: Sid, b: Sid)
    requires C.Matched(d)
    ensures DeskChanged(d, C.EndByBrowser(d, y),
                        DESK_NOTHING.(releases := Lookup(d.ctrlBrowser, c) == Some(y), deactivates := b == y), c, b)
  {
  }

  // The causes.

  lemma JoinCause(w: World, e: Event, c: Sid, b: Sid)
    requires e.ControllerHello?
    ensures DeskCauseOf(w, e, c, b) ==
            DESK_NOTHING.(joins := if c == e.sid && Joins(w, e, c) then Some(e.code) else None)
  {
    NobodyGone(w, e);
    hide Gone, Found;
  }

  lemma HandCause(w: World, e: Event, c: Sid, b: Sid)
    requires e.RemoteRequest?
    ensures DeskCauseOf(w, e, c, b) == DESK_NOTHING.(handed := Handed(w, e, c))
  {
    NobodyGone(w, e);
    hide Gone, Unattended, CodeOf;
  }

  lemma AcceptCause(w: World, e: Event, c: Sid, b: Sid)
    requires e.ControllerAccept?
    ensures var given := Lookup(w.server.desk.ctrlBrowser, e.sid);
            DeskCauseOf(w, e, c, b) ==
              DESK_NOTHING.(releases := c == e.sid && given.Some? && given.value in w.server.desk.active,
                            activates := given == Some(b))
  {
    NobodyGone(w, e);
    hide Gone;
  }

  lemma EndCause(w: World, e: Event, c: Sid, b: Sid)
    requires e.ControllerEnd? || e.RemoteEnd?
    ensures var d := w.server.desk;
            DeskCauseOf(w, e, c, b) ==
              if e.ControllerEnd? then
                DESK_NOTHING.(releases := c == e.sid, deactivates := Lookup(d.browserCtrl, b) == Some(e.sid))
              else
                DESK_NOTHING.(releases := Lookup(d.ctrlBrowser, c) == Some(e.sid), deactivates := b == e.sid)
  {
    NobodyGone(w, e);
    hide Gone;
  }

  lemma GoneDeskCause(w: World, e: Event, c: Sid, b: Sid)
    requires (e.Close? || e.StopWakes?) && Gone(w, e).Some?
    ensures var d, x := w.server.desk, Gone(w, e).value;
            DeskCauseOf(w, e, c, b) ==
              DESK_NOTHING.(vanishes := c == x, releases := c == x || Lookup(d.ctrlBrowser, c) == Some(x),
                            deactivates := b == x || Lookup(d.browserCtrl, b) == Some(x))
  {
    hide Gone;
  }

  // The laws.

  lemma JoinChanges(w: World, e: Event, c: Sid, b: Sid)
    requires e.ControllerHello?
    ensures DeskChanges(w, e, c, b)
  {
    JoinCause(w, e, c, b);
    ControllerAnswers(w.server, e.ip, e.code, e.holder, w.now);
    RegisterEntries(w.server.desk, e.sid, e.code, c, b);
    NothingOnDesk(w.server.desk, c, b);
    hide DeskCauseOf, DeskChanged, CtrlReplyOf, C.Register, Found, Limiter.IsBlocked, Limiter.RecordFailure,
         Limiter.RecordSuccess;
  }

  lemma HandChanges(w: World, e: Event, c: Sid, b: Sid)
    requires e.RemoteRequest?
    ensures DeskChanges(w, e, c, b)
  {
    HandCause(w, e, c, b);
    if e.pick.Some? { AssignEntries(w.server.desk, e.pick.value, e.sid, c, b); }
    NothingOnDesk(w.server.desk, c, b);
    hide DeskCauseOf, DeskChanged, C.Assign, CodeOf;
  }

  lemma AcceptDeskChanges(w: World, e: Event, c: Sid, b: Sid)
    requires e.ControllerAccept? && C.Matched(w.server.desk)
    ensures DeskChanges(w, e, c, b)
  {
    AcceptCause(w, e, c, b);
    AcceptChanges(w.server.desk, e.sid, c, b);
    hide DeskCauseOf, DeskChanged, C.Accept, C.Matched;
  }

  lemma EndChanges(w: World, e: Event, c: Sid, b: Sid)
    requires (e.ControllerEnd? || e.RemoteEnd?) && C.Matched(w.server.desk)
    ensures DeskChanges(w, e, c, b)
  {
    EndCause(w, e, c, b);
    if e.ControllerEnd? {
      ControllerEndEntries(w.server.desk, e.sid, c, b);
    } else {
      BrowserEndEntries(w.server.desk, e.sid, c, b);
    }
    hide DeskCauseOf, DeskChanged, C.EndByController, C.EndByBrowser, C.Matched;
  }

  lemma GoneDesk(w: World, e: Event)
    requires e.Close? || e.StopWakes?
    ensures var s, gone := w.server, Gone(w, e);
            ServerStep(w, e).desk ==
              if gone.None? then s.desk
              else if gone.value in s.desk.controllers then C.ControllerGone(s.desk, gone.value)
              else if gone.value in s.pairing.agents then s.desk
              else C.EndByBrowser(s.desk, gone.value)
  {
    if e.Close? {
      DeskAfterClose(w.server, e.sid);
    } else {
      DeskAfterClose(w.server.(stops := w.server.stops - multiset{e.stop}), e.stop.sid);
    }
    hide OnDisconnect, C.ControllerGone, C.EndByBrowser;
  }

  /** A socket plays one role on the desk, and an agent's none. */
  lemma DeskSeats(w: World, x: Sid)
    requires Settled(w) && x in w.roles
    ensures var d := w.server.desk;
            && C.Matched(d)
            && (x !in d.controllers ==> x !in d.ctrlBrowser && x !in d.watching
                                         && forall b :: Lookup(d.browserCtrl, b) != Some(x))
            && (w.roles[x] != Browser ==> x !in d.active && x !in d.browserCtrl
                                           && forall c :: Lookup(d.ctrlBrowser, c) != Some(x))
  {
    hide PairingOk, C.ActivatedByOwn, C.ActiveIsAssigned;
  }

  lemma CloseDeskChanges(w: World, e: Event, c: Sid, b: Sid)
    requires (e.Close? || e.StopWakes?) && Settled(w) && (Gone(w, e).Some? ==> Gone(w, e).value in w.roles)
    ensures DeskChanges(w, e, c, b)
  {
    GoneDesk(w, e);
    if Gone(w, e).None? {
      NoDeskCause(w, e, c, b);
      NothingOnDesk(w.server.desk, c, b);
      hide ServerStep, Gone, DeskCauseOf, DeskChanged;
    } else {
      var d, x := w.server.desk, Gone(w, e).value;
      GoneDeskCause(w, e, c, b);
      DeskSeats(w, x);
      GoneSeats(w, x);
      if x in d.controllers {
        ControllerEndEntries(d, x, c, b);
      } else if x !in w.server.pairing.agents {
        BrowserEndEntries(d, x, c, b);
      }
      hide ServerStep, Gone, DeskCauseOf, C.ControllerGone, C.EndByBrowser, C.Matched, Settled, P.Of;
    }
  }

  lemma RestartDeskChanges(w: World, e: Event, c: Sid, b: Sid)
    requires e.Restart?
    ensures DeskChanges(w, e, c, b)
  {
    NobodyGone(w, e);
    hide Sweep, Gone, Found, CodeOf, Unattended;
  }

  /** What any event makes of the desk, entry by entry. */
  lemma DeskLaws(w: World, e: Event, rules: Rules, c: Sid, b: Sid)
    requires Enabled(w, e, rules) && Settled(w)
    ensures DeskChanges(w, e, c, b)
  {
    DeskMatches(w);
    hide DeskChanges, Settled, C.Matched;
    match e
    case ControllerHello(_, _, _, _) => JoinChanges(w, e, c, b);
    case RemoteRequest(_, _) => HandChanges(w, e, c, b);
    case ControllerAccept(_) => AcceptDeskChanges(w, e, c, b);
    case ControllerEnd(_) => EndChanges(w, e, c, b);
    case RemoteEnd(_) => EndChanges(w, e, c, b);
    case Close(_) => CloseDeskChanges(w, e, c, b);
    case StopWakes(_) => CloseDeskChanges(w, e, c, b);
    case Restart => RestartDeskChanges(w, e, c, b);
    case _ => OffDeskChanges(w, e, c, b);
  }

  lemma DeskMatches(w: World)
    requires Settled(w)
    ensures C.Matched(w.server.desk)
  {
  }
}
