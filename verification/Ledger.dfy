/** What every run of the server does to the access codes. */
module Ledger {
  import opened Basics
  import opened Tokens
  import opened Relay
  import opened World
  import Limiter
  import P = Pairing
  import C = Control

  /** One record before and after an event: it only wears, stays sound, and the ledger balances. */
  ghost predicate Entered(t: Token, t': Token, admitted: bool, forgiven: bool) {
    && Wears(t, t')
    && (Sound(t) ==> Sound(t'))
    && (LockFits(t) ==> LockFits(t') && (WithinLimit(t) ==> WithinLimit(t')))
    && (Windowed(t) ==> Windowed(t'))
    && (!t.unlimited ==> Held(t') + (if forgiven then 1 else 0) == Held(t) + (if admitted then 1 else 0))
  }

  lemma SameEnters(t: Token)
    ensures Entered(t, t, false, false)
  {
  }

  lemma BurnEnters(tokens: TokenFile, burnt: Code, code: Code)
    requires code in tokens
    ensures code in BurnCode(tokens, burnt)
    ensures Entered(tokens[code], BurnCode(tokens, burnt)[code], false, false)
  {
  }

  lemma SweepEnters(tokens: TokenFile, active: set<Code>, code: Code)
    requires code in tokens
    ensures code in Sweep(tokens, active)
    ensures Entered(tokens[code], Sweep(tokens, active)[code], false, tokens[code].inUse && code !in active)
  {
  }

  /** The address may try, and the code is on file. */
  predicate Judged(s: State, ip: Ip, code: Code, now: real) {
    !Limiter.IsBlocked(s.failed, ip, now) && code != Blank && code in s.tokens
  }

  lemma HelloOnTokens(s: State, a: Sid, ip: Ip, code: Code, multi: bool, order: seq<Sid>, now: real, today: int)
    ensures var tokens' := OnAgentHello(s, a, ip, code, multi, order, now, today).tokens;
            var reply := HelloReplyOf(s, ip, code, now, today);
            if Judged(s, ip, code, now) then
              var (t, r) := Admit(s.tokens[code], HeldLive(s, code), today, now);
              reply == r && tokens' == s.tokens[code := t]
            else
              !reply.Accepted? && tokens' == s.tokens
  {
    AdmitAnswers(s, code, now, today);
    hide P.Accept, Admit, HeldLive, Limiter.IsBlocked, Limiter.RecordFailure, Limiter.RecordSuccess;
  }

  /** The record checks never give the answers of the checks before them. */
  lemma AdmitAnswers(s: State, code: Code, now: real, today: int)
    ensures code in s.tokens ==>
              var r := Admit(s.tokens[code], HeldLive(s, code), today, now).1;
              !r.Blocked? && !r.CodeMissing? && !r.CodeUnknown?
  {
    hide HeldLive;
  }

  lemma HelloEnters(s: State, a: Sid, ip: Ip, code: Code, multi: bool, order: seq<Sid>, now: real, today: int, c: Code)
    requires c in s.tokens
    ensures c in OnAgentHello(s, a, ip, code, multi, order, now, today).tokens
    ensures var reply := HelloReplyOf(s, ip, code, now, today);
            Entered(s.tokens[c], OnAgentHello(s, a, ip, code, multi, order, now, today).tokens[c],
                    c == code && reply.Accepted?,
                    && c == code && code != Blank && !Limiter.IsBlocked(s.failed, ip, now)
                    && Recovers(s.tokens[c], HeldLive(s, c)))
  {
    HelloOnTokens(s, a, ip, code, multi, order, now, today);
    AdmitEnters(s.tokens[c], HeldLive(s, c), today, now);
    SameEnters(s.tokens[c]);
    hide OnAgentHello, HelloReplyOf, Admit, HeldLive, Recovers, Entered, Limiter.IsBlocked;
  }

  lemma AdmitEnters(t: Token, live: bool, today: int, now: real)
    ensures var (t', r) := Admit(t, live, today, now); Entered(t, t', r.Accepted?, Recovers(t, live))
  {
    AdmitAccounts(t, live, today, now);
  }

  lemma CloseEnters(s: State, sid: Sid, code: Code)
    requires code in s.tokens
    ensures code in OnDisconnect(s, sid).tokens
    ensures Entered(s.tokens[code], OnDisconnect(s, sid).tokens[code], false, false)
  {
    if sid in s.pairing.agentTokens { BurnEnters(s.tokens, s.pairing.agentTokens[sid], code); }
    SameEnters(s.tokens[code]);
    hide BurnCode, Entered;
  }

  /** Events whose handlers never open the token file for writing. */
  predicate LeavesTokens(e: Event) {
    !(e.AgentHello? || e.Close? || e.StopWakes? || e.AdminKick? || e.TimerWakes? || e.SweepOrphans? || e.Restart?)
  }

  /** The event keeps the code and books it. */
  ghost predicate Booked(w: World, e: Event, code: Code)
    requires code in w.server.tokens
  {
    && code in ServerStep(w, e).tokens
    && Entered(w.server.tokens[code], ServerStep(w, e).tokens[code], Admits(w, e, code), Forgives(w, e, code))
  }

  lemma QuietEvents(w: World, e: Event)
    requires LeavesTokens(e)
    ensures ServerStep(w, e).tokens == w.server.tokens
  {
    hide C.Accept, RequestOf, PairReplyOf, CtrlReplyOf, P.Pair, P.Enqueue, P.UnpairBrowser,
         C.EndByBrowser, C.EndByController, Limiter.Cleanup, Limiter.RecordFailure;
  }

  lemma QuietBooked(w: World, e: Event, code: Code)
    requires code in w.server.tokens && LeavesTokens(e)
    ensures Booked(w, e, code)
  {
    QuietEvents(w, e);
    SameEnters(w.server.tokens[code]);
    hide ServerStep, Entered, HelloReplyOf;
  }

  lemma HelloBooked(w: World, e: Event, code: Code)
    requires code in w.server.tokens && e.AgentHello?
    ensures Booked(w, e, code)
  {
    hide OnAgentHello, HelloReplyOf, Entered;
    HelloEnters(w.server, e.sid, e.ip, e.code, e.multi, e.order, w.now, w.today, code);
  }

  lemma CloseBooked(w: World, e: Event, code: Code)
    requires code in w.server.tokens && (e.Close? || e.StopWakes?)
    ensures Booked(w, e, code)
  {
    hide OnDisconnect, Entered, HelloReplyOf;
    if e.Close? {
      CloseEnters(w.server, e.sid, code);
    } else {
      CloseEnters(w.server.(stops := w.server.stops - multiset{e.stop}), e.stop.sid, code);
      SameEnters(w.server.tokens[code]);
    }
  }

  lemma BurnBooked(w: World, e: Event, code: Code)
    requires code in w.server.tokens && (e.AdminKick? || e.TimerWakes?)
    ensures Booked(w, e, code)
  {
    hide BurnCode, Entered, HelloReplyOf;
    BurnEnters(w.server.tokens, if e.AdminKick? then e.code else e.timer.code, code);
    SameEnters(w.server.tokens[code]);
  }

  lemma SweepBooked(w: World, e: Event, code: Code)
    requires code in w.server.tokens && (e.SweepOrphans? || e.Restart?)
    ensures Booked(w, e, code)
  {
    hide Sweep, Entered, HelloReplyOf;
    SweepEnters(w.server.tokens, w.server.pairing.agentTokens.Values, code);
    SweepEnters(w.server.tokens, {}, code);
  }

  lemma StepOnToken(w: World, e: Event, code: Code)
    requires code in w.server.tokens
    ensures Booked(w, e, code)
  {
    hide ServerStep, Booked;
    if LeavesTokens(e) {
      QuietBooked(w, e, code);
    } else {
      match e
      case AgentHello(_, _, _, _, _) => HelloBooked(w, e, code);
      case Close(_) => CloseBooked(w, e, code);
      case StopWakes(_) => CloseBooked(w, e, code);
      case AdminKick(_, _) => BurnBooked(w, e, code);
      case TimerWakes(_) => BurnBooked(w, e, code);
      case SweepOrphans => SweepBooked(w, e, code);
      case Restart => SweepBooked(w, e, code);
    }
  }

  /**
   Conservation, from any state and under no assumption on the sockets: every
   admitted session of a limited code is charged, still held, or was released
   uncharged by a restart, the orphan sweep or the race recovery.
   */
  lemma {:induction false} SessionsAreAccounted(w: World, es: seq<Event>, rules: Rules, code: Code)
    requires Valid(w, es, rules) && code in w.server.tokens && !w.server.tokens[code].unlimited
    ensures code in Run(w, es).server.tokens
    ensures var t, t' := w.server.tokens[code], Run(w, es).server.tokens[code];
            Wears(t, t') && Held(t) + Admissions(w, es, code) == Held(t') + Forgiven(w, es, code)
    decreases |es|
  {
    if es != [] {
      StepOnToken(w, es[0], code);
      SessionsAreAccounted(Step(w, es[0]), es[1..], rules, code);
    }
  }

  /** What a restart makes of any token file. */
  ghost predicate Healthy(tokens: TokenFile) {
    forall c :: c in tokens ==> LockFits(tokens[c]) && Windowed(tokens[c])
  }

  lemma BootIsHealthy(tokens: TokenFile)
    ensures Healthy(Boot(tokens).tokens)
  {
  }

  lemma HelloInventsNoCode(s: State, a: Sid, ip: Ip, code: Code, multi: bool, order: seq<Sid>, now: real, today: int)
    ensures OnAgentHello(s, a, ip, code, multi, order, now, today).tokens.Keys <= s.tokens.Keys
  {
    HelloOnTokens(s, a, ip, code, multi, order, now, today);
    hide OnAgentHello, HelloReplyOf, Admit, HeldLive, Limiter.IsBlocked;
  }

  lemma ClosingInventsNoCode(s: State, sid: Sid)
    ensures OnDisconnect(s, sid).tokens.Keys <= s.tokens.Keys
  {
    hide Burn, C.ControllerGone, C.EndByBrowser, P.AgentGone, P.BrowserGone;
  }

  lemma TasksInventNoCode(w: World, e: Event)
    requires e.AdminKick? || e.TimerWakes? || e.SweepOrphans? || e.Restart?
    ensures ServerStep(w, e).tokens.Keys <= w.server.tokens.Keys
  {
    hide Burn, Clear;
  }

  /** No handler invents a code. */
  lemma StepInventsNoCode(w: World, e: Event)
    ensures ServerStep(w, e).tokens.Keys <= w.server.tokens.Keys
  {
    if LeavesTokens(e) {
      QuietEvents(w, e);
      hide ServerStep;
    } else {
      hide OnAgentHello, OnDisconnect, Kick, TimerFires, OrphanSweep, Boot;
      match e
      case AgentHello(a, ip, code, multi, order) =>
        HelloInventsNoCode(w.server, a, ip, code, multi, order, w.now, w.today);
      case Close(sid) => ClosingInventsNoCode(w.server, sid);
      case StopWakes(q) => ClosingInventsNoCode(w.server.(stops := w.server.stops - multiset{q}), q.sid);
      case _ => TasksInventNoCode(w, e);
    }
  }

  lemma StepKeepsHealthy(w: World, e: Event)
    requires Healthy(w.server.tokens)
    ensures Healthy(Step(w, e).server.tokens)
    ensures forall c :: c in Step(w, e).server.tokens ==>
              c in w.server.tokens && (Sound(w.server.tokens[c]) ==> Sound(Step(w, e).server.tokens[c]))
  {
    StepInventsNoCode(w, e);
    forall c | c in Step(w, e).server.tokens
      ensures LockFits(Step(w, e).server.tokens[c]) && Windowed(Step(w, e).server.tokens[c])
      ensures c in w.server.tokens && (Sound(w.server.tokens[c]) ==> Sound(Step(w, e).server.tokens[c]))
    {
      assert c in w.server.tokens;
      StepOnToken(w, e, c);
    }
  }

  lemma {:induction false} RunKeepsHealthy(w: World, es: seq<Event>, rules: Rules)
    requires Valid(w, es, rules) && Healthy(w.server.tokens)
    ensures Healthy(Run(w, es).server.tokens)
    decreases |es|
  {
    if es != [] {
      StepKeepsHealthy(w, es[0]);
      RunKeepsHealthy(Step(w, es[0]), es[1..], rules);
    }
  }

  /**
   A code as it was created, limited to `n` uses, is never charged more than
   n times, is dead exactly when charged n times, is never dead and locked at
   once, and admits no more than n sessions plus the forgiven ones.
   */
  lemma LimitHolds(w: World, es: seq<Event>, rules: Rules, code: Code, n: nat, minutes: int, expiry: Option<int>)
    requires Valid(w, es, rules) && code in w.server.tokens
    requires n > 0 && w.server.tokens[code] == Created(n, minutes, expiry)
    ensures code in Run(w, es).server.tokens
    ensures var t := Run(w, es).server.tokens[code];
            && 0 <= t.useCount <= n
            && (t.used <==> t.useCount == n)
            && !(t.used && t.inUse)
            && Admissions(w, es, code) == t.useCount + (if t.inUse then 1 else 0) + Forgiven(w, es, code)
            && Admissions(w, es, code) <= n + Forgiven(w, es, code)
  {
    SessionsAreAccounted(w, es, rules, code);
    RunKeepsSound(w, es, rules, code);
  }

  lemma {:induction false} RunKeepsSound(w: World, es: seq<Event>, rules: Rules, code: Code)
    requires Valid(w, es, rules) && code in w.server.tokens && Sound(w.server.tokens[code])
    ensures code in Run(w, es).server.tokens && Sound(Run(w, es).server.tokens[code])
    decreases |es|
  {
    if es != [] {
      StepOnToken(w, es[0], code);
      RunKeepsSound(Step(w, es[0]), es[1..], rules, code);
    }
  }

  lemma {:induction false} RunKeepsWithin(w: World, es: seq<Event>, rules: Rules, code: Code)
    requires Valid(w, es, rules) && code in w.server.tokens
    requires LockFits(w.server.tokens[code]) && WithinLimit(w.server.tokens[code])
    ensures code in Run(w, es).server.tokens
    ensures LockFits(Run(w, es).server.tokens[code]) && WithinLimit(Run(w, es).server.tokens[code])
    decreases |es|
  {
    hide Step, Enabled;
    if es != [] {
      StepOnToken(w, es[0], code);
      StepTokens(w, es[0]);
      RunKeepsWithin(Step(w, es[0]), es[1..], rules, code);
    }
  }

  lemma StepTokens(w: World, e: Event)
    ensures Step(w, e).server == ServerStep(w, e)
  {
    hide ServerStep;
  }

  /** What is left of a limited code, whatever its record says. */
  function Left(t: Token): nat {
    if t.used || t.useCount >= t.maxUses then 0 else t.maxUses - t.useCount
  }

  /** From any record that locks only what fits, no more sessions are admitted than are left, plus the forgiven ones. */
  lemma LeftLimits(w: World, es: seq<Event>, rules: Rules, code: Code)
    requires Valid(w, es, rules) && code in w.server.tokens && !w.server.tokens[code].unlimited
    requires LockFits(w.server.tokens[code])
    ensures Admissions(w, es, code) <= Left(w.server.tokens[code]) + Forgiven(w, es, code)
  {
    var t := w.server.tokens[code];
    if Unusable(t, w.today) {
      DeadStaysDead(w, es, rules, code);
    } else {
      SessionsAreAccounted(w, es, rules, code);
      RunKeepsWithin(w, es, rules, code);
    }
  }

  /** A new code is let in for its minutes unless it is out of date; a limited one has all its uses left. */
  lemma NewCodes(n: nat, minutes: int, expiry: Option<int>, live: bool, today: int, now: real)
    ensures var t := Created(n, minutes, expiry);
            && (t.unlimited <==> n == 0)
            && (n > 0 ==> Left(t) == n)
            && !t.inUse
            && Admit(t, live, today, now).1 ==
               if expiry.Some? && today > expiry.value then CodeExpired else Accepted(minutes)
  {
  }

  // ------------------------------------------------------------------
  // Dead codes

  /**
   `on_agent_hello` admits exactly: an unblocked address, a known code that the
   administration script would keep, and no live agent using its lock.
   */
  lemma HelloAdmitsIff(w: World, e: Event)
    requires e.AgentHello?
    ensures var s := w.server;
            Admits(w, e, e.code) <==>
              && !Limiter.IsBlocked(s.failed, e.ip, w.now)
              && e.code != Blank
              && e.code in s.tokens
              && !Unusable(s.tokens[e.code], w.today)
              && !(s.tokens[e.code].inUse && P.Live(s.pairing.agentTokens, e.code))
  {
    var at := w.server.pairing.agentTokens;
    assert HeldLive(w.server, e.code) <==> P.Live(at, e.code);
    if e.code in w.server.tokens {
      AdmitIff(w.server.tokens[e.code], HeldLive(w.server, e.code), w.today, w.now);
    }
  }

  /** Once the administration script judges a code dead, no run revives it or admits it. */
  lemma {:induction false} DeadStaysDead(w: World, es: seq<Event>, rules: Rules, code: Code)
    requires Valid(w, es, rules) && code in w.server.tokens && Unusable(w.server.tokens[code], w.today)
    ensures code in Run(w, es).server.tokens && Unusable(Run(w, es).server.tokens[code], Run(w, es).today)
    ensures Admissions(w, es, code) == 0
    decreases |es|
  {
    if es != [] {
      var v := Step(w, es[0]);
      StepOnToken(w, es[0], code);
      if es[0].AgentHello? && es[0].code == code { HelloAdmitsIff(w, es[0]); }
      WearKeepsUnusable(w.server.tokens[code], v.server.tokens[code], w.today, v.today);
      DeadStaysDead(v, es[1..], rules, code);
    }
  }

  /** A code that is not in the file, because it was purged or never made, stays out and admits nobody. */
  lemma {:induction false} PurgedStaysOut(w: World, es: seq<Event>, rules: Rules, code: Code)
    requires Valid(w, es, rules) && code !in w.server.tokens
    ensures code !in Run(w, es).server.tokens && Admissions(w, es, code) == 0
    decreases |es|
  {
    hide ServerStep, Enabled;
    if es != [] {
      StepInventsNoCode(w, es[0]);
      if es[0].AgentHello? && es[0].code == code { HelloAdmitsIff(w, es[0]); }
      hide Admits;
      PurgedStaysOut(Step(w, es[0]), es[1..], rules, code);
    }
  }
}
