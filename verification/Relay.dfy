/**
 The relay server's handlers as functions on its whole state: the pairing
 tables, the remote-control desk, the token file, the failure counters and the
 background tasks that are sleeping.
 */
module Relay {
  import opened Basics
  import opened Tokens
  import Limiter
  import P = Pairing
  import C = Control

  /** A sleeping `_session_timer`: bound to a socket and a code. */
  datatype Timer = Timer(agent: Sid, code: Code, due: real)

  /** A pending forced disconnect. */
  datatype Stop = Stop(sid: Sid, due: real)

  const GRACE := 0.5

  datatype State = State(
    pairing: P.Tables,
    desk: C.Desk,
    tokens: TokenFile,
    failed: Limiter.Attempts,
    timers: multiset<Timer>,
    stops: multiset<Stop>)

  /** A freshly started server: nothing in memory, every held lock cleared. */
  function Boot(tokens: TokenFile): State {
    State(P.NOBODY, C.CLOSED, Sweep(tokens, {}), map[], multiset{}, multiset{})
  }

  function Fail(s: State, ip: Ip, now: real): State {
    s.(failed := Limiter.RecordFailure(s.failed, ip, now))
  }

  function StopLater(s: State, sid: Sid, now: real): State {
    s.(stops := s.stops + multiset{Stop(sid, now + GRACE)})
  }

  // ------------------------------------------------------------------
  // Agents

  /** Whether a live agent holds the code, as `on_agent_hello` looks it up. */
  predicate HeldLive(s: State, code: Code) {
    code in s.pairing.agentTokens.Values
  }

  /** What `on_agent_hello` answers. */
  function HelloReplyOf(s: State, ip: Ip, code: Code, now: real, today: int): HelloReply {
    if Limiter.IsBlocked(s.failed, ip, now) then Blocked
    else if code == Blank then CodeMissing
    else if code !in s.tokens then CodeUnknown
    else Admit(s.tokens[code], HeldLive(s, code), today, now).1
  }

  /** A refusal that counts against the address. */
  predicate CountsAsFailure(r: HelloReply) {
    r.CodeMissing? || r.CodeUnknown? || r.CodeUsedUp? || r.CodeExpired?
  }

  function OnAgentHello(s: State, a: Sid, ip: Ip, code: Code, multi: bool, order: seq<Sid>, now: real,
          today: int): State {
    var reply := HelloReplyOf(s, ip, code, now, today);
    var s1 :=
      if reply.Blocked? || reply.CodeMissing? || reply.CodeUnknown? then s
      else s.(tokens := s.tokens[code := Admit(s.tokens[code], HeldLive(s, code), today, now).0]);
    if reply.Accepted? then
      s1.(failed := Limiter.RecordSuccess(s1.failed, ip),
          pairing := P.Accept(s1.pairing, a, code, multi, order),
          timers := s1.timers + multiset{Timer(a, code, now + 60.0 * reply.minutes as real)})
    else
      StopLater(if CountsAsFailure(reply) then Fail(s1, ip, now) else s1, a, now)
  }

  /** The admin kick: charges the code at once, disconnects half a second later. */
  function Kick(s: State, code: Code, holder: Option<Sid>, now: real): State {
    match holder
    case None => s
    case Some(a) =>
      if a !in s.pairing.agents then s
      else StopLater(s.(tokens := BurnCode(s.tokens, code)), a, now)
  }

  /** A session timer wakes up. */
  function TimerFires(s: State, t: Timer, now: real): State {
    var s1 := s.(timers := s.timers - multiset{t}, tokens := BurnCode(s.tokens, t.code));
    if t.agent in s.pairing.agents then StopLater(s1, t.agent, now) else s1
  }

  function OrphanSweep(s: State): State {
    s.(tokens := Sweep(s.tokens, s.pairing.agentTokens.Values))
  }

  // ------------------------------------------------------------------
  // Sockets closing

  function OnDisconnect(s: State, sid: Sid): State {
    var s1 := s.(pairing := s.pairing.(browserAuth := s.pairing.browserAuth - {sid}));
    if sid in s.desk.controllers then
      s1.(desk := C.ControllerGone(s.desk, sid))
    else if sid in s.pairing.agents then
      s1.(pairing := P.AgentGone(s1.pairing, sid),
          tokens := if sid in s.pairing.agentTokens then BurnCode(s.tokens, s.pairing.agentTokens[sid]) else s.tokens)
    else
      s1.(desk := C.EndByBrowser(s.desk, sid), pairing := P.BrowserGone(s1.pairing, sid))
  }

  /** The sockets told about it: an agent's browsers, or the other end of a remote session. */
  function ToldOnDisconnect(s: State, sid: Sid): set<Sid> {
    if sid in s.desk.controllers then (if sid in s.desk.ctrlBrowser then {s.desk.ctrlBrowser[sid]} else {})
    else if sid in s.pairing.agents then P.Of(s.pairing.agentBrowser, sid)
    else if sid in s.desk.browserCtrl then {s.desk.browserCtrl[sid]} else {}
  }

  /** A forced disconnect wakes up; the socket may be gone by then. */
  function StopFires(s: State, q: Stop, connected: bool): State {
    var s1 := s.(stops := s.stops - multiset{q});
    if connected then OnDisconnect(s1, q.sid) else s1
  }

  // ------------------------------------------------------------------
  // Browsers

  function OnBrowserHello(s: State, b: Sid): State {
    var p := s.pairing.(browserAuth := s.pairing.browserAuth + {b});
    s.(pairing :=
         if b in p.browserAgent && p.browserAgent[b] !in p.agents then P.UnpairBrowser(p, b) else p)
  }

  datatype PairReply =
    | PairBlank
    | PairBlocked
    | PairAlready
    | PairUnknown
    | PairUsed
    | PairExpired
    | PairWaiting
    | PairBusy
    | PairDone(agent: Sid)

  function PairReplyOf(s: State, b: Sid, ip: Ip, code: Code, holder: Option<Sid>, now: real, today: int): PairReply {
    if code == Blank then PairBlank
    else if Limiter.IsBlocked(s.failed, ip, now) then PairBlocked
    else if b in s.pairing.browserAgent then PairAlready
    else if code !in s.tokens then PairUnknown
    else if s.tokens[code].used then PairUsed
    else if Expired(s.tokens[code], today) then PairExpired
    else if holder.None? || holder.value !in s.pairing.agents then PairWaiting
    else
      var a := holder.value;
      var multi := a in s.pairing.allowMulti && s.pairing.allowMulti[a];
      if !multi && P.Of(s.pairing.agentBrowser, a) != {} then PairBusy else PairDone(a)
  }

  function OnBrowserPair(s: State, b: Sid, ip: Ip, code: Code, holder: Option<Sid>, now: real, today: int): State {
    match PairReplyOf(s, b, ip, code, holder, now, today)
    case PairUnknown => Fail(s, ip, now)
    case PairUsed => Fail(s, ip, now)
    case PairExpired => Fail(s, ip, now)
    case PairWaiting => s.(pairing := P.Enqueue(s.pairing, b, code))
    case PairDone(a) => s.(pairing := P.Pair(s.pairing, b, a))
    case _ => s
  }

  // ------------------------------------------------------------------
  // Remote control

  datatype CtrlReply = CtrlBlocked | CtrlBlank | CtrlNoAgent | CtrlReady

  function CtrlReplyOf(s: State, ip: Ip, code: Code, holder: Option<Sid>, now: real): CtrlReply {
    if Limiter.IsBlocked(s.failed, ip, now) then CtrlBlocked
    else if code == Blank then CtrlBlank
    else if holder.None? || holder.value !in s.pairing.agents then CtrlNoAgent
    else CtrlReady
  }

  function OnControllerHello(s: State, c: Sid, ip: Ip, code: Code, holder: Option<Sid>, now: real): State {
    match CtrlReplyOf(s, ip, code, holder, now)
    case CtrlNoAgent => StopLater(Fail(s, ip, now), c, now)
    case CtrlReady => s.(failed := Limiter.RecordSuccess(s.failed, ip), desk := C.Register(s.desk, c, code))
    case _ => StopLater(s, c, now)
  }

  function OnControllerAccept(s: State, c: Sid, now: real): State {
    var (d, r) := C.Accept(s.desk, c);
    var s1 := s.(desk := d);
    if r.Duplicate? then StopLater(s1, c, now) else s1
  }

  /** The code held by the browser's agent. */
  function CodeOf(s: State, b: Sid): Option<Code> {
    if b in s.pairing.browserAgent && s.pairing.browserAgent[b] in s.pairing.agentTokens
    then Some(s.pairing.agentTokens[s.pairing.browserAgent[b]]) else None
  }

  function RequestOf(s: State, b: Sid, pick: Option<Sid>): (C.Desk, C.RequestReply) {
    C.Request(s.desk, b, b in s.pairing.browserAgent, CodeOf(s, b), pick)
  }

  function OnRemoteRequest(s: State, b: Sid, pick: Option<Sid>): State {
    s.(desk := RequestOf(s, b, pick).0)
  }

  function OnRemoteEnd(s: State, b: Sid): State {
    s.(desk := C.EndByBrowser(s.desk, b))
  }

  function OnControllerEnd(s: State, c: Sid): State {
    s.(desk := C.EndByController(s.desk, c))
  }

  /** The hourly cleanup of failure counters. */
  function CleanFailed(s: State, now: real): State {
    s.(failed := Limiter.Cleanup(s.failed, now))
  }
}
