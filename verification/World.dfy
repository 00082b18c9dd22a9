/**
 The relay server in its world: sockets that come and go, a clock, and every
 interleaving of handlers, background tasks and restarts as a run of events.
 */
module World {
  import opened Basics
  import opened Tokens
  import opened Relay
  import Limiter
  import P = Pairing
  import C = Control

  datatype Role = Agent | Browser | Controller

  /**
   The server and what surrounds it. The fields from `helloed` on are history
   that the properties speak about: sockets that said `agent_hello`, when each
   accepted session is due to end by the record of its code, which controller
   activated a browser, which controllers have accepted their current request,
   when an address last failed, all its failures since it was last let in, and
   the hello by which each agent was let in.
   */
  datatype World = World(
    server: State,
    now: real,
    today: int,
    roles: map<Sid, Role>,
    helloed: set<Sid>,
    sessionEnd: map<Sid, real>,
    opener: map<Sid, Sid>,
    spent: set<Sid>,
    lastFail: map<Ip, real>,
    fails: map<Ip, seq<real>>,
    session: map<Sid, Session>)

  /** When an agent said hello, with which code and flag. */
  datatype Session = Session(begun: real, code: Code, multi: bool)

  /** `order`, `holder` and `pick` are the iteration order of a set and the first match in a dict. */
  datatype Event =
    | Connect(sid: Sid, role: Role)
    | Close(sid: Sid)
    | AgentHello(sid: Sid, ip: Ip, code: Code, multi: bool, order: seq<Sid>)
    | BrowserHello(sid: Sid)
    | BrowserPair(sid: Sid, ip: Ip, code: Code, holder: Option<Sid>)
    | ControllerHello(sid: Sid, ip: Ip, code: Code, holder: Option<Sid>)
    | ControllerAccept(sid: Sid)
    | ControllerEnd(sid: Sid)
    | RemoteRequest(sid: Sid, pick: Option<Sid>)
    | RemoteEnd(sid: Sid)
    | AdminKick(code: Code, holder: Option<Sid>)
    | TimerWakes(timer: Timer)
    | StopWakes(stop: Stop)
    | SweepOrphans
    | CleanFailures
    | Restart
    | Tick(now: real, today: int)

  /**
   Assumptions on a run beyond the roles of sockets; the shipped clients keep
   the first three. `oneHello`: an agent socket says hello once. `patient`: a
   browser waiting for a code asks for no other. `oneAccept`: a controller
   accepts a request once. `punctual`: sleeping tasks wake exactly when due.
   */
  datatype Rules = Rules(oneHello: bool, patient: bool, oneAccept: bool, punctual: bool)

  ghost predicate Is(w: World, sid: Sid, role: Role) {
    sid in w.roles && w.roles[sid] == role
  }

  ghost predicate Enabled(w: World, e: Event, rules: Rules) {
    var p := w.server.pairing;
    match e
    case Connect(sid, _) => sid !in w.roles
    case Close(sid) => sid in w.roles
    case AgentHello(sid, _, code, _, order) =>
      && Is(w, sid, Agent)
      && (rules.oneHello ==> sid !in w.helloed)
      && P.Lists(order, P.Of(p.pending, code))
    case BrowserHello(sid) => Is(w, sid, Browser)
    case BrowserPair(sid, _, code, holder) =>
      && Is(w, sid, Browser)
      && P.Holder(p.agentTokens, code, holder)
      && (rules.patient ==> !P.WaitsElsewhere(p.pending, sid, code))
    case ControllerHello(sid, _, code, holder) => Is(w, sid, Controller) && P.Holder(p.agentTokens, code, holder)
    case ControllerAccept(sid) => Is(w, sid, Controller) && (rules.oneAccept ==> sid !in w.spent)
    case ControllerEnd(sid) => Is(w, sid, Controller)
    case RemoteRequest(sid, pick) =>
      && Is(w, sid, Browser)
      && (CodeOf(w.server, sid).Some? ==> C.Pick(w.server.desk, CodeOf(w.server, sid).value, pick))
    case RemoteEnd(sid) => Is(w, sid, Browser)
    case AdminKick(code, holder) => P.Holder(p.agentTokens, code, holder)
    case TimerWakes(t) => t in w.server.timers && t.due <= w.now
    case StopWakes(q) => q in w.server.stops && q.due <= w.now
    case SweepOrphans => true
    case CleanFailures => true
    case Restart => true
    case Tick(now, today) =>
      && w.now <= now && w.today <= today
      && (rules.punctual ==>
            && (forall t :: t in w.server.timers ==> now <= t.due)
            && (forall q :: q in w.server.stops ==> now <= q.due))
  }

  function ServerStep(w: World, e: Event): State {
    var s := w.server;
    match e
    case Connect(_, _) => s
    case Close(sid) => OnDisconnect(s, sid)
    case AgentHello(a, ip, code, multi, order) => OnAgentHello(s, a, ip, code, multi, order, w.now, w.today)
    case BrowserHello(b) => OnBrowserHello(s, b)
    case BrowserPair(b, ip, code, holder) => OnBrowserPair(s, b, ip, code, holder, w.now, w.today)
    case ControllerHello(c, ip, code, holder) => OnControllerHello(s, c, ip, code, holder, w.now)
    case ControllerAccept(c) => OnControllerAccept(s, c, w.now)
    case ControllerEnd(c) => OnControllerEnd(s, c)
    case RemoteRequest(b, pick) => OnRemoteRequest(s, b, pick)
    case RemoteEnd(b) => OnRemoteEnd(s, b)
    case AdminKick(code, holder) => Kick(s, code, holder, w.now)
    case TimerWakes(t) => TimerFires(s, t, w.now)
    case StopWakes(q) => StopFires(s, q, q.sid in w.roles)
    case SweepOrphans => OrphanSweep(s)
    case CleanFailures => CleanFailed(s, w.now)
    case Restart => Boot(s.tokens)
    case Tick(_, _) => s
  }

  /** The socket that the event closes, if any. */
  function Closed(e: Event): Option<Sid> {
    match e
    case Close(sid) => Some(sid)
    case StopWakes(q) => Some(q.sid)
    case _ => None
  }

  function RolesAfter(w: World, e: Event): map<Sid, Role> {
    if e.Restart? then map[]
    else if e.Connect? then w.roles[e.sid := e.role]
    else if Closed(e).Some? then w.roles - {Closed(e).value}
    else w.roles
  }

  function HelloedAfter(w: World, e: Event): set<Sid> {
    if e.Restart? then {}
    else if e.AgentHello? then w.helloed + {e.sid}
    else if Closed(e).Some? then w.helloed - {Closed(e).value}
    else w.helloed
  }

  /**
   The checks of `agent_hello` in plain terms: an unblocked address and a known
   code that is not used up, has uses left, is in date and not in use by a
   connected agent.
   */
  predicate HelloPasses(s: State, ip: Ip, code: Code, now: real, today: int) {
    && !Limiter.IsBlocked(s.failed, ip, now)
    && code != Blank && code in s.tokens
    && var t := s.tokens[code];
       && !t.used
       && (t.unlimited || t.useCount < t.maxUses)
       && (t.expiry.Some? ==> today <= t.expiry.value)
       && !(t.inUse && HeldLive(s, code))
  }

  /** A hello that counts against its address: no such code, a dead one, or one out of date that nobody is using. */
  predicate HelloFails(s: State, ip: Ip, code: Code, now: real, today: int) {
    && !Limiter.IsBlocked(s.failed, ip, now)
    && (code == Blank || code !in s.tokens
        || var t := s.tokens[code];
           || t.used
           || (!t.unlimited && t.useCount >= t.maxUses)
           || (t.expiry.Some? && today > t.expiry.value && !(t.inUse && HeldLive(s, code))))
  }

  /** An unpaired browser at an unblocked address asks for some code. */
  predicate MayAsk(s: State, b: Sid, ip: Ip, code: Code, now: real) {
    code != Blank && !Limiter.IsBlocked(s.failed, ip, now) && b !in s.pairing.browserAgent
  }

  /** The code is known, not used up and in date. */
  predicate Usable(s: State, code: Code, today: int) {
    code in s.tokens && !s.tokens[code].used && (s.tokens[code].expiry.Some? ==> today <= s.tokens[code].expiry.value)
  }

  /** The agent found for a code, if any, is connected. */
  predicate Found(s: State, holder: Option<Sid>) {
    holder.Some? && holder.value in s.pairing.agents
  }

  /** The address that the event counts against, if any. */
  function CountedFailure(w: World, e: Event): Option<Ip> {
    match e
    case AgentHello(_, ip, code, _, _) => if HelloFails(w.server, ip, code, w.now, w.today) then Some(ip) else None
    case BrowserPair(b, ip, code, _) =>
      if MayAsk(w.server, b, ip, code, w.now) && !Usable(w.server, code, w.today) then Some(ip) else None
    case ControllerHello(_, ip, code, holder) =>
      if !Limiter.IsBlocked(w.server.failed, ip, w.now) && code != Blank && !Found(w.server, holder)
      then Some(ip) else None
    case _ => None
  }

  /** The address that the event lets in, if any. */
  function LetIn(w: World, e: Event): Option<Ip> {
    match e
    case AgentHello(_, ip, code, _, _) => if HelloPasses(w.server, ip, code, w.now, w.today) then Some(ip) else None
    case ControllerHello(_, ip, code, holder) =>
      if !Limiter.IsBlocked(w.server.failed, ip, w.now) && code != Blank && Found(w.server, holder)
      then Some(ip) else None
    case _ => None
  }

  function EndsAfter(w: World, e: Event): map<Sid, real> {
    if e.AgentHello? && HelloPasses(w.server, e.ip, e.code, w.now, w.today) then
      w.sessionEnd[e.sid := w.now + 60.0 * w.server.tokens[e.code].maxMinutes as real]
    else w.sessionEnd
  }

  function SessionAfter(w: World, e: Event): map<Sid, Session> {
    if e.AgentHello? && HelloPasses(w.server, e.ip, e.code, w.now, w.today) then
      w.session[e.sid := Session(w.now, e.code, e.multi)]
    else w.session
  }

  function OpenerAfter(w: World, e: Event): map<Sid, Sid> {
    if !e.ControllerAccept? then w.opener
    else
      var r := C.Accept(w.server.desk, e.sid).1;
      if r.Activated? then w.opener[r.browser := e.sid] else w.opener
  }

  function SpentAfter(w: World, e: Event): set<Sid> {
    if e.ControllerAccept? then w.spent + {e.sid}
    else if e.RemoteRequest? then
      var r := RequestOf(w.server, e.sid, e.pick).1;
      if r.Asked? then w.spent - {r.ctrl} else w.spent
    else w.spent
  }

  function LastFailAfter(w: World, e: Event): map<Ip, real> {
    match CountedFailure(w, e)
    case None => w.lastFail
    case Some(ip) => w.lastFail[ip := w.now]
  }

  /** The failures of an address since it was last let in or the server started. */
  function FailsOf(fails: map<Ip, seq<real>>, ip: Ip): seq<real> {
    if ip in fails then fails[ip] else []
  }

  function FailsAfter(w: World, e: Event): map<Ip, seq<real>> {
    if e.Restart? then map[]
    else if LetIn(w, e).Some? then w.fails - {LetIn(w, e).value}
    else match CountedFailure(w, e)
      case None => w.fails
      case Some(ip) => w.fails[ip := FailsOf(w.fails, ip) + [w.now]]
  }

  function Step(w: World, e: Event): World {
    World(ServerStep(w, e),
          if e.Tick? then e.now else w.now,
          if e.Tick? then e.today else w.today,
          RolesAfter(w, e), HelloedAfter(w, e), EndsAfter(w, e), OpenerAfter(w, e), SpentAfter(w, e),
          LastFailAfter(w, e), FailsAfter(w, e), SessionAfter(w, e))
  }

  /** A world whose server has just started on some token file. */
  function Start(tokens: TokenFile, now: real, today: int): World {
    World(Boot(tokens), now, today, map[], {}, map[], map[], {}, map[], map[], map[])
  }

  ghost predicate Valid(w: World, es: seq<Event>, rules: Rules)
    decreases |es|
  {
    es == [] || (Enabled(w, es[0], rules) && Valid(Step(w, es[0]), es[1..], rules))
  }

  function Run(w: World, es: seq<Event>): World
    decreases |es|
  {
    if es == [] then w else Run(Step(w, es[0]), es[1..])
  }

  /** One more event at the end of a run. */
  lemma {:induction false} Extend(w: World, es: seq<Event>, e: Event, rules: Rules)
    requires Valid(w, es, rules) && Enabled(Run(w, es), e, rules)
    ensures Valid(w, es + [e], rules) && Run(w, es + [e]) == Step(Run(w, es), e)
    decreases |es|
  {
    hide Enabled, Step;
    if es == [] {
      assert es + [e] == [e] && [e][1..] == [];
    } else {
      Extend(Step(w, es[0]), es[1..], e, rules);
      assert (es + [e])[1..] == es[1..] + [e];
    }
  }

  /** The session that the event starts, if any. */
  predicate Admits(w: World, e: Event, code: Code) {
    && e.AgentHello? && e.code == code
    && HelloReplyOf(w.server, e.ip, code, w.now, w.today).Accepted?
  }

  /** Whether the event clears the code's lock without charging a use. */
  predicate Forgives(w: World, e: Event, code: Code) {
    && code in w.server.tokens
    && match e
       case Restart => w.server.tokens[code].inUse
       case SweepOrphans => w.server.tokens[code].inUse && !HeldLive(w.server, code)
       case AgentHello(_, ip, c, _, _) =>
         && c == code
         && code != Blank
         && !Limiter.IsBlocked(w.server.failed, ip, w.now)
         && Recovers(w.server.tokens[code], HeldLive(w.server, code))
       case _ => false
  }

  function Admissions(w: World, es: seq<Event>, code: Code): nat
    decreases |es|
  {
    if es == [] then 0
    else (if Admits(w, es[0], code) then 1 else 0) + Admissions(Step(w, es[0]), es[1..], code)
  }

  function Forgiven(w: World, es: seq<Event>, code: Code): nat
    decreases |es|
  {
    if es == [] then 0
    else (if Forgives(w, es[0], code) then 1 else 0) + Forgiven(Step(w, es[0]), es[1..], code)
  }
}
