/**
 The relay server as the program keeps it: module-level dicts and sets that
 handlers and background tasks update in place. Every method is proved against
 the state function of the same name in `Relay`.
 */
module Server {
  import opened Basics
  import opened Tokens
  import opened Relay
  import L = Limiter
  import P = Pairing
  import C = Control
  import Page
  import Correlation

  class RelayServer {
    var agents: set<Sid>
    var agentTokens: map<Sid, Code>
    var allowMulti: map<Sid, bool>
    var browserAuth: set<Sid>
    var browserAgent: map<Sid, Sid>
    var agentBrowser: map<Sid, set<Sid>>
    var pending: map<Code, set<Sid>>

    var controllers: set<Sid>
    var watching: map<Sid, Code>
    var ctrlBrowser: map<Sid, Sid>
    var browserCtrl: map<Sid, Sid>
    var rcActive: set<Sid>

    var failedAttempts: map<Ip, L.Entry>
    var tokensFile: TokenFile
    var timers: multiset<Timer>
    var stops: multiset<Stop>

    ghost function Tables(): P.Tables
      reads this
    {
      P.Tables(agents, agentTokens, allowMulti, browserAuth, browserAgent, agentBrowser, pending)
    }

    ghost function Desk(): C.Desk
      reads this
    {
      C.Desk(controllers, watching, ctrlBrowser, browserCtrl, rcActive)
    }

    /** The state that the specification functions speak about. */
    ghost function View(): State
      reads this
    {
      State(Tables(), Desk(), tokensFile, failedAttempts, timers, stops)
    }

    /** A server starting on an existing token file. */
    constructor (tokens: TokenFile)
      ensures View() == Boot(tokens)
    {
      agents, agentTokens, allowMulti, browserAuth := {}, map[], map[], {};
      browserAgent, agentBrowser, pending := map[], map[], map[];
      controllers, watching, ctrlBrowser, browserCtrl, rcActive := {}, map[], map[], map[], {};
      failedAttempts, timers, stops := map[], multiset{}, multiset{};
      tokensFile := tokens;
      new;
      ClearLocks({});
    }

    // ----------------------------------------------------------------
    // Failure counters

    method IsBlocked(ip: Ip, now: real) returns (blocked: bool)
      ensures blocked == L.IsBlocked(failedAttempts, ip, now)
    {
      if ip !in failedAttempts { return false; }
      return now < failedAttempts[ip].blockedUntil;
    }

    method RecordFailure(ip: Ip, now: real)
      modifies this`failedAttempts
      ensures View() == Fail(old(View()), ip, now)
    {
      var entry := if ip in failedAttempts then failedAttempts[ip] else L.Entry(0, now, 0.0);
      if now - entry.firstFail > L.FAIL_WINDOW {
        entry := L.Entry(0, now, 0.0);
      }
      entry := entry.(count := entry.count + 1);
      if entry.count >= L.FAIL_MAX {
        entry := entry.(blockedUntil := now + L.BLOCK_SEC);
      }
      failedAttempts := failedAttempts[ip := entry];
    }

    method RecordSuccess(ip: Ip)
      modifies this`failedAttempts
      ensures View() == old(View()).(failed := L.RecordSuccess(old(View()).failed, ip))
    {
      failedAttempts := failedAttempts - {ip};
    }

    method CleanupFailedAttempts(now: real)
      modifies this`failedAttempts
      ensures View() == CleanFailed(old(View()), now)
    {
      var expired := set ip | ip in failedAttempts && now - failedAttempts[ip].firstFail > L.FAIL_WINDOW * 2.0;
      ghost var before := failedAttempts;
      ghost var dropped: set<Ip> := {};
      while expired != {}
        invariant expired !! dropped
        invariant forall ip :: ip in expired + dropped <==> ip in before && L.Stale(before[ip], now)
        invariant failedAttempts == before - dropped
        decreases |expired|
      {
        var ip :| ip in expired;
        failedAttempts := failedAttempts - {ip};
        expired := expired - {ip};
        dropped := dropped + {ip};
      }
      assert failedAttempts == L.Cleanup(before, now);
    }

    // ----------------------------------------------------------------
    // Tokens

    /** Clears every held lock whose code is not in `active`. */
    method ClearLocks(active: set<Code>)
      modifies this`tokensFile
      ensures tokensFile == Sweep(old(tokensFile), active)
    {
      var tokens := tokensFile;
      var changed := set c | c in tokens && tokens[c].inUse && c !in active;
      SweepIsCleared(tokens, active, changed);
      ghost var done: set<Code> := {};
      ghost var all := changed;
      while changed != {}
        invariant done == all - changed && changed <= all <= tokensFile.Keys
        invariant tokensFile == old(tokensFile) && tokens == Cleared(tokensFile, done)
        decreases |changed|
      {
        var code :| code in changed;
        ClearedOneMore(tokensFile, done, code);
        tokens := tokens[code := tokens[code].(inUse := false, firstUsedAt := None, expiresAt := None)];
        changed := changed - {code};
        done := done + {code};
      }
      assert done == all;
      tokensFile := tokens;
    }

    method CleanupOrphanedTokens()
      modifies this`tokensFile
      ensures View() == OrphanSweep(old(View()))
    {
      ClearLocks(agentTokens.Values);
    }

    method BurnToken(code: Code)
      modifies this`tokensFile
      ensures View() == old(View()).(tokens := BurnCode(old(View()).tokens, code))
    {
      var tokens := tokensFile;
      if code !in tokens || tokens[code].used { return; }
      if !tokens[code].inUse { return; }
      var t := tokens[code].(inUse := false, firstUsedAt := None, expiresAt := None);
      if t.unlimited {
        tokensFile := tokens[code := t];
        return;
      }
      var useCount := t.useCount + 1;
      t := t.(useCount := useCount);
      if useCount >= t.maxUses {
        t := t.(used := true);
      }
      tokensFile := tokens[code := t];
    }

    // ----------------------------------------------------------------
    // Background tasks

    method DelayedDisconnect(sid: Sid, now: real)
      modifies this`stops
      ensures View() == StopLater(old(View()), sid, now)
    {
      stops := stops + multiset{Stop(sid, now + GRACE)};
    }

    /** The timer wakes: the burn, and the disconnect that follows later. */
    method SessionTimer(t: Timer, now: real)
      modifies this`timers, this`tokensFile, this`stops
      ensures View() == TimerFires(old(View()), t, now)
    {
      hide BurnCode;
      var kick := t.agent in agents;
      assert kick == (t.agent in View().pairing.agents);
      TimerSpent(t);
      BurnToken(t.code);
      hide View;
      if kick {
        DelayedDisconnect(t.agent, now);
      }
    }

    method TimerSpent(t: Timer)
      modifies this`timers
      ensures View() == old(View()).(timers := old(View()).timers - multiset{t})
    {
      timers := timers - multiset{t};
    }

    method TimerStarts(t: Timer)
      modifies this`timers
      ensures View() == old(View()).(timers := old(View()).timers + multiset{t})
    {
      timers := timers + multiset{t};
    }

    /** A forced disconnect wakes; the socket library calls back `OnDisconnect`. */
    method StopWakes(q: Stop, connected: bool)
      modifies this
      ensures View() == StopFires(old(View()), q, connected)
    {
      stops := stops - multiset{q};
      if connected {
        var _ := OnDisconnect(q.sid);
      }
    }

    method AdminKick(code: Code, now: real) returns (ok: bool, ghost holder: Option<Sid>)
      modifies this`tokensFile, this`stops
      ensures P.Holder(old(agentTokens), code, holder)
      ensures ok == (holder.Some? && holder.value in agents)
      ensures View() == Kick(old(View()), code, holder, now)
    {
      var agent := FindHolder(code);
      holder := agent;
      if agent.None? || agent.value !in agents { return false, holder; }
      BurnToken(code);
      DelayedDisconnect(agent.value, now);
      ok := true;
    }

    /** The first agent found that holds the code. */
    method FindHolder(code: Code) returns (holder: Option<Sid>)
      ensures P.Holder(agentTokens, code, holder)
    {
      var rest := agentTokens.Keys;
      while rest != {}
        invariant rest <= agentTokens.Keys
        invariant forall a :: a in agentTokens && agentTokens[a] == code ==> a in rest
        decreases |rest|
      {
        var a :| a in rest;
        if agentTokens[a] == code { return Some(a); }
        rest := rest - {a};
      }
      return None;
    }

    // ----------------------------------------------------------------
    // Pairing

    method PairUp(b: Sid, a: Sid)
      modifies this`browserAgent, this`agentBrowser
      ensures View() == old(View()).(pairing := P.Pair(old(View()).pairing, b, a))
    {
      browserAgent := browserAgent[b := a];
      if a !in agentBrowser { agentBrowser := agentBrowser[a := {}]; }
      agentBrowser := agentBrowser[a := agentBrowser[a] + {b}];
    }

    method UnpairBrowser(b: Sid)
      modifies this`browserAgent, this`agentBrowser
      ensures Tables() == P.UnpairBrowser(old(Tables()), b)
    {
      if b !in browserAgent { return; }
      var a := browserAgent[b];
      browserAgent := browserAgent - {b};
      if a in agentBrowser && agentBrowser[a] != {} {
        agentBrowser := agentBrowser[a := agentBrowser[a] - {b}];
        if agentBrowser[a] == {} {
          agentBrowser := agentBrowser - {a};
        }
      }
    }

    method UnpairAgent(a: Sid) returns (browsers: set<Sid>)
      modifies this`browserAgent, this`agentBrowser, this`allowMulti
      ensures browsers == P.Of(old(agentBrowser), a)
      ensures Tables() == P.UnpairAgent(old(Tables()), a)
    {
      browsers := if a in agentBrowser then agentBrowser[a] else {};
      agentBrowser := agentBrowser - {a};
      var rest := browsers;
      ghost var before := browserAgent;
      while rest != {}
        invariant rest <= browsers
        invariant browserAgent == before - (browsers - rest)
        decreases |rest|
        modifies this`browserAgent
      {
        var b :| b in rest;
        browserAgent := browserAgent - {b};
        rest := rest - {b};
      }
      assert browsers - rest == browsers;
      allowMulti := allowMulti - {a};
    }

    /** `told` are the sockets that hear of it. */
    method OnDisconnect(sid: Sid) returns (told: set<Sid>)
      modifies this`agents, this`agentTokens, this`allowMulti, this`browserAuth, this`browserAgent,
               this`agentBrowser, this`pending, this`controllers, this`watching, this`ctrlBrowser,
               this`browserCtrl, this`rcActive, this`tokensFile
      ensures View() == Relay.OnDisconnect(old(View()), sid)
      ensures told == ToldOnDisconnect(old(View()), sid)
    {
      hide Relay.OnDisconnect;
      if sid in controllers {
        told := ControllerCloses(sid);
      } else if sid in agents {
        told := AgentCloses(sid);
      } else {
        told := BrowserCloses(sid);
      }
    }

    method ControllerCloses(c: Sid) returns (told: set<Sid>)
      requires c in controllers
      modifies this`browserAuth, this`controllers, this`watching, this`ctrlBrowser, this`browserCtrl, this`rcActive
      ensures View() == Relay.OnDisconnect(old(View()), c)
      ensures told == if c in old(ctrlBrowser) then {old(ctrlBrowser)[c]} else {}
    {
      hide C.ControllerGone;
      browserAuth := browserAuth - {c};
      told := ControllerLeaves(c);
    }

    method AgentCloses(a: Sid) returns (told: set<Sid>)
      requires a !in controllers && a in agents
      modifies this`browserAuth, this`agents, this`agentTokens, this`allowMulti, this`browserAgent, this`agentBrowser,
               this`tokensFile
      ensures View() == Relay.OnDisconnect(old(View()), a)
      ensures told == P.Of(old(agentBrowser), a)
    {
      hide P.AgentGone, BurnCode, P.Of;
      browserAuth := browserAuth - {a};
      told := AgentLeaves(a);
    }

    method BrowserCloses(b: Sid) returns (told: set<Sid>)
      requires b !in controllers && b !in agents
      modifies this`browserAuth, this`browserAgent, this`agentBrowser, this`pending, this`ctrlBrowser, this`browserCtrl,
               this`rcActive
      ensures View() == Relay.OnDisconnect(old(View()), b)
      ensures told == if b in old(browserCtrl) then {old(browserCtrl)[b]} else {}
    {
      hide P.BrowserGone, C.EndByBrowser;
      browserAuth := browserAuth - {b};
      told := BrowserLeaves(b);
    }

    method ControllerLeaves(c: Sid) returns (told: set<Sid>)
      requires c in controllers
      modifies this`controllers, this`watching, this`ctrlBrowser, this`browserCtrl, this`rcActive
      ensures Desk() == C.ControllerGone(old(Desk()), c)
      ensures told == if c in old(ctrlBrowser) then {old(ctrlBrowser)[c]} else {}
    {
      told := {};
      controllers := controllers - {c};
      watching := watching - {c};
      if c in ctrlBrowser {
        var b := ctrlBrowser[c];
        ctrlBrowser := ctrlBrowser - {c};
        browserCtrl := browserCtrl - {b};
        rcActive := rcActive - {b};
        told := {b};
      }
    }

    method AgentLeaves(a: Sid) returns (told: set<Sid>)
      modifies this`agents, this`agentTokens, this`allowMulti, this`browserAgent, this`agentBrowser, this`tokensFile
      ensures Tables() == P.AgentGone(old(Tables()), a)
      ensures tokensFile ==
              if a in old(agentTokens) then BurnCode(old(tokensFile), old(agentTokens)[a]) else old(tokensFile)
      ensures told == P.Of(old(agentBrowser), a)
    {
      if a in agentTokens {
        var code := agentTokens[a];
        agentTokens := agentTokens - {a};
        BurnToken(code);
      }
      told := UnpairAgent(a);
      agents := agents - {a};
    }

    method BrowserLeaves(b: Sid) returns (told: set<Sid>)
      modifies this`browserAgent, this`agentBrowser, this`pending, this`ctrlBrowser, this`browserCtrl, this`rcActive
      ensures Tables() == P.BrowserGone(old(Tables()), b)
      ensures Desk() == C.EndByBrowser(old(Desk()), b)
      ensures told == if b in old(browserCtrl) then {old(browserCtrl)[b]} else {}
    {
      told := EndRemote(b);
      StopWaiting(b);
      UnpairBrowser(b);
    }

    method StopWaiting(b: Sid)
      modifies this`pending
      ensures pending == P.Without(old(pending), b)
    {
      var codes := pending.Keys;
      ghost var before := pending;
      while codes != {}
        invariant codes <= before.Keys && pending.Keys == before.Keys
        invariant forall c :: c in before ==> pending[c] == if c in codes then before[c] else before[c] - {b}
        decreases |codes|
      {
        var code :| code in codes;
        pending := pending[code := pending[code] - {b}];
        codes := codes - {code};
      }
    }

    // ----------------------------------------------------------------
    // Agents

    /** A refusal: counted unless the caller says otherwise, then disconnected. */
    method Reject(a: Sid, ip: Ip, now: real, recordFail: bool)
      modifies this`failedAttempts, this`stops
      ensures View() == StopLater(if recordFail then Fail(old(View()), ip, now) else old(View()), a, now)
    {
      hide View, L.RecordFailure;
      if recordFail {
        RecordFailure(ip, now);
      }
      DelayedDisconnect(a, now);
    }

    /** The checks of `agent_hello` that look only at the record of the code. */
    method CheckRecord(code: Code, now: real, today: int) returns (reply: HelloReply)
      requires code in tokensFile
      modifies this`tokensFile
      ensures var (t, r) := Admit(old(tokensFile)[code], code in agentTokens.Values, today, now);
              reply == r && tokensFile == old(tokensFile)[code := t]
    {
      var tokens := tokensFile;
      var token := tokens[code];
      if token.used { return CodeUsedUp; }
      if !token.unlimited && token.useCount >= token.maxUses {
        tokensFile := tokens[code := token.(used := true)];
        return CodeUsedUp;
      }
      if token.inUse {
        if code in agentTokens.Values { return CodeBusy; }
        token := token.(inUse := false, firstUsedAt := None, expiresAt := None);
        tokens := tokens[code := token];
        tokensFile := tokens;
      }
      if token.expiry.Some? && today > token.expiry.value { return CodeExpired; }
      var expiresAt := now + 60.0 * token.maxMinutes as real;
      token := token.(inUse := true, firstUsedAt := Some(now), expiresAt := Some(expiresAt));
      tokensFile := tokens[code := token];
      reply := Accepted(token.maxMinutes);
    }

    /** All the checks of `agent_hello`. */
    method JudgeHello(ip: Ip, code: Code, now: real, today: int) returns (reply: HelloReply)
      modifies this`tokensFile
      ensures reply == HelloReplyOf(old(View()), ip, code, now, today)
      ensures View() == old(View()).(tokens := TokensAfterHello(old(View()), reply, code, now, today))
    {
      hide Admit, L.IsBlocked;
      var blocked := IsBlocked(ip, now);
      if blocked { return Blocked; }
      if code == Blank { return CodeMissing; }
      if code !in tokensFile { return CodeUnknown; }
      RecordReplies(tokensFile[code], code in agentTokens.Values, today, now);
      reply := CheckRecord(code, now, today);
    }

    /** `order` is the order in which the waiting set was iterated. */
    method AgentHello(a: Sid, ip: Ip, code: Code, multi: bool, now: real, today: int)
      returns (reply: HelloReply, ghost order: seq<Sid>)
      modifies this`tokensFile, this`agents, this`agentTokens, this`allowMulti, this`pending, this`browserAgent,
               this`agentBrowser, this`failedAttempts, this`timers, this`stops
      ensures P.Lists(order, P.Of(old(View()).pairing.pending, code))
      ensures reply == HelloReplyOf(old(View()), ip, code, now, today)
      ensures View() == OnAgentHello(old(View()), a, ip, code, multi, order, now, today)
    {
      hide View, OnAgentHello, P.Lists, P.Accept, HelloReplyOf, TokensAfterHello, L.RecordFailure, L.RecordSuccess;
      var listed := WaitingFor(code);
      order := listed;
      HelloEffects(View(), a, ip, code, multi, order, now, today);
      reply := JudgeHello(ip, code, now, today);
      if reply.Accepted? {
        RecordSuccess(ip);
        TimerStarts(Timer(a, code, now + 60.0 * reply.minutes as real));
        Welcome(a, code, multi, listed);
      } else {
        Reject(a, ip, now, !reply.Blocked? && !reply.CodeBusy?);
      }
    }

    /** The browsers waiting for the code, in the order of the iteration. */
    method WaitingFor(code: Code) returns (order: seq<Sid>)
      ensures P.Lists(order, P.Of(View().pairing.pending, code))
    {
      var waiting := if code in pending then pending[code] else {};
      order := ListOf(waiting);
    }

    method Enrol(a: Sid, code: Code, multi: bool)
      modifies this`agents, this`agentTokens, this`allowMulti, this`pending
      ensures View() == old(View()).(pairing := P.Enrol(old(View()).pairing, a, code, multi))
    {
      agents := agents + {a};
      agentTokens := agentTokens[a := code];
      allowMulti := allowMulti[a := multi];
      pending := pending - {code};
    }

    /** Whether some browser is listed under the agent. */
    method HasBrowser(a: Sid) returns (busy: bool)
      ensures busy == (P.Of(View().pairing.agentBrowser, a) != {})
    {
      busy := a in agentBrowser && agentBrowser[a] != {};
    }

    /** Registers an accepted agent and serves the browsers that wait for it. */
    method Welcome(a: Sid, code: Code, multi: bool, waiting: seq<Sid>)
      modifies this`agents, this`agentTokens, this`allowMulti, this`pending, this`browserAgent, this`agentBrowser
      ensures View() == old(View()).(pairing := P.Accept(old(View()).pairing, a, code, multi, waiting))
    {
      hide View, P.Of, P.Enrol;
      Enrol(a, code, multi);
      var i := 0;
      ghost var start := View();
      while i < |waiting|
        invariant 0 <= i <= |waiting|
        invariant View() == start.(pairing := View().pairing)
        invariant P.Drain(View().pairing, a, multi, waiting[i..]) == P.Drain(start.pairing, a, multi, waiting)
        modifies this`browserAgent, this`agentBrowser
      {
        assert waiting[i..][1..] == waiting[i + 1..];
        var busy := HasBrowser(a);
        if multi || !busy {
          PairUp(waiting[i], a);
        }
        i := i + 1;
      }
    }

    // ----------------------------------------------------------------
    // Browsers

    method BrowserHello(b: Sid)
      modifies this`browserAuth, this`browserAgent, this`agentBrowser
      ensures View() == OnBrowserHello(old(View()), b)
    {
      browserAuth := browserAuth + {b};
      if b in browserAgent && browserAgent[b] !in agents {
        UnpairBrowser(b);
      }
    }

    method Enqueue(b: Sid, code: Code)
      modifies this`pending
      ensures View() == old(View()).(pairing := P.Enqueue(old(View()).pairing, b, code))
    {
      if code !in pending { pending := pending[code := {}]; }
      pending := pending[code := pending[code] + {b}];
    }

    /** The checks of `browser_pair`, given what `FindHolder` found. */
    method JudgePair(b: Sid, ip: Ip, code: Code, agent: Option<Sid>, now: real, today: int) returns (reply: PairReply)
      ensures reply == PairReplyOf(View(), b, ip, code, agent, now, today)
    {
      if code == Blank { return PairBlank; }
      var blocked := IsBlocked(ip, now);
      if blocked { return PairBlocked; }
      if b in browserAgent { return PairAlready; }
      if code !in tokensFile { return PairUnknown; }
      var token := tokensFile[code];
      if token.used { return PairUsed; }
      if token.expiry.Some? && today > token.expiry.value { return PairExpired; }
      if agent.None? || agent.value !in agents { return PairWaiting; }
      var a := agent.value;
      var multi := a in allowMulti && allowMulti[a];
      if !multi && a in agentBrowser && agentBrowser[a] != {} { return PairBusy; }
      reply := PairDone(a);
    }

    method BrowserPair(b: Sid, ip: Ip, code: Code, now: real, today: int)
      returns (reply: PairReply, ghost holder: Option<Sid>)
      modifies this`failedAttempts, this`pending, this`browserAgent, this`agentBrowser
      ensures P.Holder(old(agentTokens), code, holder)
      ensures reply == PairReplyOf(old(View()), b, ip, code, holder, now, today)
      ensures View() == OnBrowserPair(old(View()), b, ip, code, holder, now, today)
    {
      hide P.Holder, P.Enqueue, P.Pair, L.RecordFailure, PairReplyOf;
      var agent := FindHolder(code);
      holder := agent;
      reply := JudgePair(b, ip, code, agent, now, today);
      hide View;
      if reply.PairUnknown? || reply.PairUsed? || reply.PairExpired? {
        RecordFailure(ip, now);
      } else if reply.PairWaiting? {
        Enqueue(b, code);
      } else if reply.PairDone? {
        PairUp(b, reply.agent);
      }
    }

    /** `on_command`; `blocked` is what the shell filter objects, if it does. */
    method OnCommand(b: Sid, q: Page.Request, blocked: Option<string>) returns (routed: Correlation.Routed)
      ensures routed == Correlation.OnCommand(browserAgent, agents, blocked, b, q)
    {
      var command := Page.Command(q.id, q.body, b);
      if b !in browserAgent || browserAgent[b] !in agents {
        return Correlation.Refuse(Page.Reply(q.id, Page.Refused("no agent"), command));
      }
      if blocked.Some? {
        return Correlation.Refuse(Page.Reply(q.id, Page.Refused(blocked.value), command));
      }
      routed := Correlation.Forward(browserAgent[b], command);
    }

    // ----------------------------------------------------------------
    // Remote control

    method Register(c: Sid, code: Code)
      modifies this`controllers, this`watching
      ensures View() == old(View()).(desk := C.Register(old(View()).desk, c, code))
    {
      controllers := controllers + {c};
      watching := watching[c := code];
    }

    method ControllerHello(c: Sid, ip: Ip, code: Code, now: real) returns (reply: CtrlReply, ghost holder: Option<Sid>)
      modifies this`failedAttempts, this`stops, this`controllers, this`watching
      ensures P.Holder(old(agentTokens), code, holder)
      ensures reply == CtrlReplyOf(old(View()), ip, code, holder, now)
      ensures View() == OnControllerHello(old(View()), c, ip, code, holder, now)
    {
      hide P.Holder, L.RecordFailure, L.RecordSuccess, L.IsBlocked;
      var agent := FindHolder(code);
      holder := agent;
      var blocked := IsBlocked(ip, now);
      reply :=
        if blocked then CtrlBlocked
        else if code == Blank then CtrlBlank
        else if agent.None? || agent.value !in agents then CtrlNoAgent
        else CtrlReady;
      assert reply == CtrlReplyOf(View(), ip, code, holder, now);
      hide View, CtrlReplyOf;
      if reply.CtrlReady? {
        RecordSuccess(ip);
        Register(c, code);
      } else {
        Reject(c, ip, now, reply.CtrlNoAgent?);
      }
    }

    method ControllerAccept(c: Sid, now: real) returns (reply: C.AcceptReply)
      modifies this`ctrlBrowser, this`browserCtrl, this`rcActive, this`stops
      ensures reply == C.Accept(old(Desk()), c).1
      ensures View() == OnControllerAccept(old(View()), c, now)
    {
      if c !in controllers { return C.Ignored; }
      if c !in ctrlBrowser { return C.Ignored; }
      var b := ctrlBrowser[c];
      if b in rcActive {
        Unassign(c, b);
        assert OnControllerAccept(old(View()), c, now) == StopLater(View(), c, now);
        hide View;
        DelayedDisconnect(c, now);
        return C.Duplicate(b);
      }
      rcActive := rcActive + {b};
      reply := C.Activated(b);
    }

    method Unassign(c: Sid, b: Sid)
      modifies this`ctrlBrowser, this`browserCtrl
      ensures Desk() == old(Desk()).(ctrlBrowser := old(ctrlBrowser) - {c}, browserCtrl := old(browserCtrl) - {b})
    {
      ctrlBrowser := ctrlBrowser - {c};
      browserCtrl := browserCtrl - {b};
    }

    method ControllerEnd(c: Sid)
      modifies this`ctrlBrowser, this`browserCtrl, this`rcActive
      ensures View() == OnControllerEnd(old(View()), c)
    {
      if c !in controllers || c !in ctrlBrowser { return; }
      var b := ctrlBrowser[c];
      ctrlBrowser := ctrlBrowser - {c};
      browserCtrl := browserCtrl - {b};
      rcActive := rcActive - {b};
    }

    method RemoteControlRequest(b: Sid) returns (reply: C.RequestReply, ghost pick: Option<Sid>)
      modifies this`ctrlBrowser, this`browserCtrl
      ensures CodeOf(old(View()), b).Some? ==> C.Pick(old(Desk()), CodeOf(old(View()), b).value, pick)
      ensures reply == RequestOf(old(View()), b, pick).1
      ensures View() == OnRemoteRequest(old(View()), b, pick)
    {
      var paired := b in browserAgent && browserAgent[b] in agentTokens;
      var code := if paired then Some(agentTokens[browserAgent[b]]) else None;
      var free := None;
      if code.Some? { free := FindFree(code.value); }
      pick := free;
      if b in browserCtrl || b in rcActive { return C.AlreadyAsked, pick; }
      if b !in browserAgent { return C.NoAgent, pick; }
      if code.None? { return C.NoCode, pick; }
      if free.None? { return C.NoController, pick; }
      ctrlBrowser := ctrlBrowser[free.value := b];
      browserCtrl := browserCtrl[b := free.value];
      reply := C.Asked(free.value);
    }

    /** A controller watching the code that has no browser yet. */
    method FindFree(code: Code) returns (pick: Option<Sid>)
      ensures C.Pick(Desk(), code, pick)
    {
      var rest := watching.Keys;
      while rest != {}
        invariant rest <= watching.Keys
        invariant forall c :: C.Free(Desk(), code, c) ==> c in rest
        decreases |rest|
      {
        var c :| c in rest;
        if watching[c] == code && c !in ctrlBrowser { return Some(c); }
        rest := rest - {c};
      }
      return None;
    }

    method EndRemote(b: Sid) returns (told: set<Sid>)
      modifies this`ctrlBrowser, this`browserCtrl, this`rcActive
      ensures View() == OnRemoteEnd(old(View()), b)
      ensures told == if b in old(browserCtrl) then {old(browserCtrl)[b]} else {}
    {
      told := {};
      if b in browserCtrl {
        var c := browserCtrl[b];
        browserCtrl := browserCtrl - {b};
        ctrlBrowser := ctrlBrowser - {c};
        told := {c};
      }
      rcActive := rcActive - {b};
    }
  }

  /** The token file after the checks of `agent_hello`. */
  function TokensAfterHello(s: State, reply: HelloReply, code: Code, now: real, today: int): TokenFile {
    if reply.Blocked? || reply.CodeMissing? || reply.CodeUnknown? || code !in s.tokens then s.tokens
    else s.tokens[code := Admit(s.tokens[code], HeldLive(s, code), today, now).0]
  }

  /** `OnAgentHello` as the checks followed by one of two effects. */
  lemma HelloEffects(s: State, a: Sid, ip: Ip, code: Code, multi: bool, order: seq<Sid>, now: real, today: int)
    ensures var reply := HelloReplyOf(s, ip, code, now, today);
            var s1 := s.(tokens := TokensAfterHello(s, reply, code, now, today));
            OnAgentHello(s, a, ip, code, multi, order, now, today) ==
              if reply.Accepted? then
                s1.(failed := L.RecordSuccess(s1.failed, ip),
                    timers := s1.timers + multiset{Timer(a, code, now + 60.0 * reply.minutes as real)},
                    pairing := P.Accept(s1.pairing, a, code, multi, order))
              else
                StopLater(if !reply.Blocked? && !reply.CodeBusy? then Fail(s1, ip, now) else s1, a, now)
  {
    HelloKnowsCode(s, ip, code, now, today);
    hide P.Accept, Admit, HeldLive, HelloReplyOf, L.RecordFailure, L.RecordSuccess, L.IsBlocked;
  }

  lemma HelloKnowsCode(s: State, ip: Ip, code: Code, now: real, today: int)
    ensures var reply := HelloReplyOf(s, ip, code, now, today);
            reply.Blocked? || reply.CodeMissing? || reply.CodeUnknown? || code in s.tokens
  {
  }

  /** A set as a list, in whatever order it is iterated. */
  method ListOf(s: set<Sid>) returns (order: seq<Sid>)
    ensures P.Lists(order, s)
  {
    order := [];
    var rest := s;
    while rest != {}
      invariant rest <= s
      invariant P.Lists(order, s - rest)
      decreases |rest|
    {
      var b :| b in rest;
      order := order + [b];
      rest := rest - {b};
    }
    assert s - rest == s;
  }

  /** A token file in which the locks of the codes in `done` have been cleared. */
  function Cleared(tokens: TokenFile, done: set<Code>): TokenFile {
    map c | c in tokens :: if c in done then Clear(tokens[c]) else tokens[c]
  }

  lemma ClearedOneMore(tokens: TokenFile, done: set<Code>, code: Code)
    requires code in tokens && code !in done
    ensures Cleared(tokens, done)[code := Clear(Cleared(tokens, done)[code])] == Cleared(tokens, done + {code})
  {
  }

  lemma SweepIsCleared(tokens: TokenFile, active: set<Code>, changed: set<Code>)
    requires forall c :: c in changed <==> c in tokens && tokens[c].inUse && c !in active
    ensures Sweep(tokens, active) == Cleared(tokens, changed)
    ensures Cleared(tokens, {}) == tokens
  {
  }

  lemma RecordReplies(t: Token, live: bool, today: int, now: real)
    ensures var r := Admit(t, live, today, now).1;
            r.Accepted? || r.CodeBusy? || r.CodeUsedUp? || r.CodeExpired?
  {
  }
}
