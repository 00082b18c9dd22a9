/** In every run of the server: how long an address can stay blocked, and why the hourly cleanup cannot be noticed. */
module Blocking {
  import opened Basics
  import opened Tokens
  import opened Relay
  import opened World
  import opened Answers
  import L = Limiter
  import P = Pairing
  import C = Control

  /** Events whose handlers touch the failure counters. */
  predicate Counts(e: Event) {
    e.AgentHello? || e.BrowserPair? || e.ControllerHello? || e.CleanFailures? || e.Restart?
  }

  /** Closing a socket neither reads nor writes the failure counters. */
  lemma CloseUncounted(s: State, sid: Sid, f: L.Attempts)
    ensures OnDisconnect(s.(failed := f), sid) == OnDisconnect(s, sid).(failed := f)
    ensures OnDisconnect(s, sid).failed == s.failed
  {
    hide P.AgentGone, P.BrowserGone, C.EndByBrowser, C.ControllerGone, BurnCode;
  }

  lemma KickUncounted(s: State, code: Code, holder: Option<Sid>, now: real, f: L.Attempts)
    ensures Kick(s.(failed := f), code, holder, now) == Kick(s, code, holder, now).(failed := f)
    ensures Kick(s, code, holder, now).failed == s.failed
  {
    hide BurnCode;
  }

  lemma TimerUncounted(s: State, t: Timer, now: real, f: L.Attempts)
    ensures TimerFires(s.(failed := f), t, now) == TimerFires(s, t, now).(failed := f)
    ensures TimerFires(s, t, now).failed == s.failed
  {
    hide BurnCode;
  }

  lemma SweepUncounted(s: State, f: L.Attempts)
    ensures OrphanSweep(s.(failed := f)) == OrphanSweep(s).(failed := f)
    ensures OrphanSweep(s).failed == s.failed
  {
    hide Sweep;
  }

  lemma TaskUncounted(w: World, e: Event, f: L.Attempts)
    requires e.AdminKick? || e.TimerWakes? || e.SweepOrphans?
    ensures ServerStep(w.(server := w.server.(failed := f)), e) == ServerStep(w, e).(failed := f)
    ensures ServerStep(w, e).failed == w.server.failed
  {
    hide Kick, TimerFires, OrphanSweep;
    match e
    case AdminKick(code, holder) => KickUncounted(w.server, code, holder, w.now, f);
    case TimerWakes(t) => TimerUncounted(w.server, t, w.now, f);
    case SweepOrphans => SweepUncounted(w.server, f);
  }

  lemma BrowserUncounted(s: State, b: Sid, f: L.Attempts)
    ensures OnBrowserHello(s.(failed := f), b) == OnBrowserHello(s, b).(failed := f)
    ensures OnBrowserHello(s, b).failed == s.failed
  {
    hide P.UnpairBrowser;
  }

  lemma DeskUncounted(w: World, e: Event, f: L.Attempts)
    requires e.ControllerAccept? || e.ControllerEnd? || e.RemoteRequest? || e.RemoteEnd?
    ensures ServerStep(w.(server := w.server.(failed := f)), e) == ServerStep(w, e).(failed := f)
    ensures ServerStep(w, e).failed == w.server.failed
  {
    hide C.Accept, C.Request, C.EndByBrowser, C.EndByController;
  }

  lemma Uncounted(w: World, e: Event, f: L.Attempts)
    requires !Counts(e)
    ensures ServerStep(w.(server := w.server.(failed := f)), e) == ServerStep(w, e).(failed := f)
    ensures ServerStep(w, e).failed == w.server.failed
  {
    var s := w.server;
    match e {
      case Connect(_, _) =>
      case Tick(_, _) =>
      case Close(sid) => CloseUncounted(s, sid, f); hide OnDisconnect;
      case StopWakes(q) =>
        CloseUncounted(s.(stops := s.stops - multiset{q}), q.sid, f);
        assert s.(failed := f).(stops := s.stops - multiset{q}) == s.(stops := s.stops - multiset{q}).(failed := f);
        hide OnDisconnect;
      case BrowserHello(b) => BrowserUncounted(s, b, f); hide OnBrowserHello;
      case ControllerAccept(_) => DeskUncounted(w, e, f); hide ServerStep;
      case ControllerEnd(_) => DeskUncounted(w, e, f); hide ServerStep;
      case RemoteRequest(_, _) => DeskUncounted(w, e, f); hide ServerStep;
      case RemoteEnd(_) => DeskUncounted(w, e, f); hide ServerStep;
      case _ => TaskUncounted(w, e, f); hide ServerStep;
    }
  }

  lemma HelloFailed(s: State, a: Sid, ip: Ip, code: Code, multi: bool, order: seq<Sid>, now: real, today: int)
    ensures var reply := HelloReplyOf(s, ip, code, now, today);
            OnAgentHello(s, a, ip, code, multi, order, now, today).failed
            == if reply.Accepted? then L.RecordSuccess(s.failed, ip)
               else if CountsAsFailure(reply) then L.RecordFailure(s.failed, ip, now) else s.failed
    ensures CountsAsFailure(HelloReplyOf(s, ip, code, now, today)) ==> !L.IsBlocked(s.failed, ip, now)
  {
    hide P.Accept, L.RecordFailure, L.RecordSuccess, L.IsBlocked, Admit;
  }

  lemma AskersFailed(w: World, e: Event)
    requires e.BrowserPair? || e.ControllerHello?
    ensures FailedAfter(w, e)
  {
    if e.BrowserPair? {
      PairAnswers(w.server, e.sid, e.ip, e.code, e.holder, w.now, w.today);
    } else {
      ControllerAnswers(w.server, e.ip, e.code, e.holder, w.now);
    }
    hide PairReplyOf, CtrlReplyOf, Usable, Found, L.RecordFailure, L.RecordSuccess, L.IsBlocked, P.Pair, P.Enqueue,
         C.Register;
  }

  /** A counted failure is recorded, by an address that is not blocked; nothing else adds to the counters. */
  ghost predicate FailedAfter(w: World, e: Event)
    requires e.AgentHello? || e.BrowserPair? || e.ControllerHello?
  {
    var f, f' := w.server.failed, ServerStep(w, e).failed;
    match CountedFailure(w, e)
    case Some(ip) => ip == e.ip && f' == L.RecordFailure(f, ip, w.now) && !L.IsBlocked(f, ip, w.now)
    case None => f' == match LetIn(w, e) case None => f case Some(ip) => L.RecordSuccess(f, ip)
  }

  lemma AgentsFailed(w: World, e: Event)
    requires e.AgentHello?
    ensures FailedAfter(w, e)
  {
    HelloFailed(w.server, e.sid, e.ip, e.code, e.multi, e.order, w.now, w.today);
    HelloAnswers(w.server, e.ip, e.code, w.now, w.today);
    hide OnAgentHello, HelloReplyOf, CountsAsFailure, HelloFails, HelloPasses,
         L.RecordFailure, L.RecordSuccess, L.IsBlocked;
  }

  lemma AskingKeepsOk(w: World, e: Event)
    requires e.AgentHello? || e.BrowserPair? || e.ControllerHello?
    requires L.Ok(w.server.failed, w.lastFail, w.now) && w.now >= 0.0 && FailedAfter(w, e)
    ensures L.Ok(ServerStep(w, e).failed, LastFailAfter(w, e), w.now)
  {
    if CountedFailure(w, e).Some? {
      L.FailureKeepsOk(w.server.failed, w.lastFail, e.ip, w.now);
      hide L.Ok;
    }
    hide ServerStep, CountedFailure, L.RecordFailure, L.IsBlocked;
  }

  lemma QuietKeepsOk(w: World, e: Event, rules: Rules)
    requires Enabled(w, e, rules) && L.Ok(w.server.failed, w.lastFail, w.now) && !Counts(e)
    ensures L.Ok(ServerStep(w, e).failed, LastFailAfter(w, e), if e.Tick? then e.now else w.now)
  {
    Uncounted(w, e, w.server.failed);
    hide ServerStep;
  }

  lemma DroppingKeepsOk(w: World, e: Event)
    requires (e.Restart? || e.CleanFailures?) && L.Ok(w.server.failed, w.lastFail, w.now)
    ensures L.Ok(ServerStep(w, e).failed, LastFailAfter(w, e), w.now)
  {
    hide Sweep;
  }

  lemma StepKeepsOk(w: World, e: Event, rules: Rules)
    requires Enabled(w, e, rules) && L.Ok(w.server.failed, w.lastFail, w.now) && w.now >= 0.0
    ensures L.Ok(Step(w, e).server.failed, Step(w, e).lastFail, Step(w, e).now) && Step(w, e).now >= 0.0
  {
    hide ServerStep, LastFailAfter, FailsAfter, SessionAfter, L.Ok, FailedAfter;
    if !Counts(e) {
      QuietKeepsOk(w, e, rules);
    } else if e.Restart? || e.CleanFailures? {
      DroppingKeepsOk(w, e);
    } else {
      if e.AgentHello? {
        AgentsFailed(w, e);
      } else {
        AskersFailed(w, e);
      }
      AskingKeepsOk(w, e);
    }
  }

  // ------------------------------------------------------------------
  // The hourly cleanup is unobservable

  /** `v` is `w` except that some stale failure entries are missing. */
  ghost predicate Alike(v: World, w: World) {
    && v == w.(server := w.server.(failed := v.server.failed))
    && L.Thinned(v.server.failed, w.server.failed, w.now)
  }

  /** `on_agent_hello` apart from the failure counters, given the answer. */
  function HelloRest(s: State, reply: HelloReply, a: Sid, code: Code, multi: bool, order: seq<Sid>, now: real,
          today: int): State {
    var s1 :=
      if reply.Blocked? || reply.CodeMissing? || reply.CodeUnknown? || code !in s.tokens then s
      else s.(tokens := s.tokens[code := Admit(s.tokens[code], HeldLive(s, code), today, now).0]);
    if reply.Accepted? then
      s1.(pairing := P.Accept(s1.pairing, a, code, multi, order),
          timers := s1.timers + multiset{Timer(a, code, now + 60.0 * reply.minutes as real)})
    else StopLater(s1, a, now)
  }

  lemma KnownWhenAdmitted(s: State, ip: Ip, code: Code, now: real, today: int)
    ensures var reply := HelloReplyOf(s, ip, code, now, today);
            reply.Blocked? || reply.CodeMissing? || reply.CodeUnknown? || code in s.tokens
  {
    hide Admit, L.IsBlocked, HeldLive;
  }

  lemma HelloSplits(s: State, a: Sid, ip: Ip, code: Code, multi: bool, order: seq<Sid>, now: real, today: int)
    ensures var s' := OnAgentHello(s, a, ip, code, multi, order, now, today);
            var reply := HelloReplyOf(s, ip, code, now, today);
            s' == HelloRest(s, reply, a, code, multi, order, now, today).(failed := s'.failed)
  {
    KnownWhenAdmitted(s, ip, code, now, today);
    hide P.Accept, L.RecordFailure, L.RecordSuccess, L.IsBlocked, Admit, HeldLive, HelloReplyOf, CountsAsFailure;
  }

  lemma RestUncounted(s: State, f: L.Attempts, reply: HelloReply, a: Sid, code: Code, multi: bool,
          order: seq<Sid>, now: real, today: int)
    ensures HelloRest(s.(failed := f), reply, a, code, multi, order, now, today)
         == HelloRest(s, reply, a, code, multi, order, now, today).(failed := f)
  {
    hide P.Accept, Admit;
  }

  lemma ReplyAlike(s: State, f: L.Attempts, ip: Ip, code: Code, now: real, today: int)
    requires L.IsBlocked(f, ip, now) == L.IsBlocked(s.failed, ip, now)
    ensures HelloReplyOf(s.(failed := f), ip, code, now, today) == HelloReplyOf(s, ip, code, now, today)
  {
    hide Admit, L.IsBlocked;
  }

  lemma HelloAlike(s: State, f: L.Attempts, last: map<Ip, real>, a: Sid, ip: Ip, code: Code, multi: bool,
          order: seq<Sid>,
          now: real, today: int)
    requires L.Thinned(f, s.failed, now) && L.Ok(s.failed, last, now)
    ensures var r := s.(failed := f);
            var s' := OnAgentHello(s, a, ip, code, multi, order, now, today);
            var r' := OnAgentHello(r, a, ip, code, multi, order, now, today);
            && HelloReplyOf(r, ip, code, now, today) == HelloReplyOf(s, ip, code, now, today)
            && r' == s'.(failed := r'.failed) && L.Thinned(r'.failed, s'.failed, now)
  {
    var r := s.(failed := f);
    var reply := HelloReplyOf(s, ip, code, now, today);
    L.ThinnedAnswersAlike(f, s.failed, last, ip, now);
    ReplyAlike(s, f, ip, code, now, today);
    HelloSplits(s, a, ip, code, multi, order, now, today);
    HelloSplits(r, a, ip, code, multi, order, now, today);
    RestUncounted(s, f, reply, a, code, multi, order, now, today);
    HelloFailed(s, a, ip, code, multi, order, now, today);
    HelloFailed(r, a, ip, code, multi, order, now, today);
    hide OnAgentHello, HelloReplyOf, HelloRest, CountsAsFailure,
         L.RecordFailure, L.RecordSuccess, L.IsBlocked, L.Thinned, L.Ok;
  }

  lemma PairReplyAlike(s: State, f: L.Attempts, b: Sid, ip: Ip, code: Code, holder: Option<Sid>, now: real, today: int)
    requires L.IsBlocked(f, ip, now) == L.IsBlocked(s.failed, ip, now)
    ensures PairReplyOf(s.(failed := f), b, ip, code, holder, now, today)
         == PairReplyOf(s, b, ip, code, holder, now, today)
  {
    hide L.IsBlocked, P.Of, Expired;
  }

  lemma PairAlike(s: State, f: L.Attempts, last: map<Ip, real>, b: Sid, ip: Ip, code: Code,
          holder: Option<Sid>, now: real, today: int)
    requires L.Thinned(f, s.failed, now) && L.Ok(s.failed, last, now)
    ensures var r := s.(failed := f);
            var s' := OnBrowserPair(s, b, ip, code, holder, now, today);
            var r' := OnBrowserPair(r, b, ip, code, holder, now, today);
            && r' == s'.(failed := r'.failed) && L.Thinned(r'.failed, s'.failed, now)
  {
    L.ThinnedAnswersAlike(f, s.failed, last, ip, now);
    PairReplyAlike(s, f, b, ip, code, holder, now, today);
    hide PairReplyOf, P.Pair, P.Enqueue, L.RecordFailure, L.IsBlocked, L.Thinned, L.Ok;
  }

  lemma CtrlReplyAlike(s: State, f: L.Attempts, ip: Ip, code: Code, holder: Option<Sid>, now: real)
    requires L.IsBlocked(f, ip, now) == L.IsBlocked(s.failed, ip, now)
    ensures CtrlReplyOf(s.(failed := f), ip, code, holder, now) == CtrlReplyOf(s, ip, code, holder, now)
  {
    hide L.IsBlocked;
  }

  lemma ControllerAlike(s: State, f: L.Attempts, last: map<Ip, real>, c: Sid, ip: Ip, code: Code,
          holder: Option<Sid>, now: real)
    requires L.Thinned(f, s.failed, now) && L.Ok(s.failed, last, now)
    ensures var r := s.(failed := f);
            var s' := OnControllerHello(s, c, ip, code, holder, now);
            var r' := OnControllerHello(r, c, ip, code, holder, now);
            && r' == s'.(failed := r'.failed) && L.Thinned(r'.failed, s'.failed, now)
  {
    L.ThinnedAnswersAlike(f, s.failed, last, ip, now);
    CtrlReplyAlike(s, f, ip, code, holder, now);
    hide CtrlReplyOf, C.Register, L.RecordFailure, L.RecordSuccess, L.IsBlocked, L.Thinned, L.Ok;
  }

  ghost predicate ServersAlike(v: World, w: World, e: Event) {
    && ServerStep(v, e) == ServerStep(w, e).(failed := ServerStep(v, e).failed)
    && L.Thinned(ServerStep(v, e).failed, ServerStep(w, e).failed, Step(w, e).now)
  }

  lemma LaterStillThinned(f: L.Attempts, g: L.Attempts, now: real, later: real)
    requires L.Thinned(f, g, now) && now <= later
    ensures L.Thinned(f, g, later)
  {
  }

  lemma QuietServersAlike(v: World, w: World, e: Event, rules: Rules)
    requires Alike(v, w) && !Counts(e) && Enabled(w, e, rules)
    ensures ServersAlike(v, w, e)
  {
    Uncounted(w, e, v.server.failed);
    LaterStillThinned(v.server.failed, w.server.failed, w.now, Step(w, e).now);
    hide ServerStep, L.Thinned, RolesAfter, HelloedAfter, EndsAfter, OpenerAfter, SpentAfter, LastFailAfter,
         FailsAfter, SessionAfter;
  }

  lemma AskingServersAlike(v: World, w: World, e: Event)
    requires Alike(v, w) && L.Ok(w.server.failed, w.lastFail, w.now)
    requires e.AgentHello? || e.BrowserPair? || e.ControllerHello? || e.Restart?
    ensures ServersAlike(v, w, e)
  {
    var s, f := w.server, v.server.failed;
    hide OnAgentHello, OnBrowserPair, OnControllerHello, L.Thinned, L.Ok,
         RolesAfter, HelloedAfter, EndsAfter, OpenerAfter, SpentAfter, LastFailAfter, FailsAfter, SessionAfter;
    match e
    case AgentHello(a, ip, code, multi, order) =>
      HelloAlike(s, f, w.lastFail, a, ip, code, multi, order, w.now, w.today);
    case BrowserPair(b, ip, code, holder) => PairAlike(s, f, w.lastFail, b, ip, code, holder, w.now, w.today);
    case ControllerHello(c, ip, code, holder) => ControllerAlike(s, f, w.lastFail, c, ip, code, holder, w.now);
    case Restart => NothingThinned(w.now);
  }

  lemma StepServersAlike(v: World, w: World, e: Event, rules: Rules)
    requires Alike(v, w) && L.Ok(w.server.failed, w.lastFail, w.now) && !e.CleanFailures?
    requires Enabled(w, e, rules)
    ensures ServersAlike(v, w, e)
  {
    hide Alike, L.Ok, Enabled, ServersAlike;
    if !Counts(e) {
      QuietServersAlike(v, w, e, rules);
    } else {
      AskingServersAlike(v, w, e);
    }
  }

  lemma NothingThinned(now: real)
    ensures L.Thinned(map[], map[], now)
  {
  }

  lemma AdmitsAlike(v: World, w: World, e: Event, code: Code)
    requires Alike(v, w) && L.Ok(w.server.failed, w.lastFail, w.now)
    ensures Admits(v, e, code) == Admits(w, e, code)
  {
    if e.AgentHello? {
      L.ThinnedAnswersAlike(v.server.failed, w.server.failed, w.lastFail, e.ip, w.now);
      ReplyAlike(w.server, v.server.failed, e.ip, e.code, w.now, w.today);
    }
    hide HelloReplyOf, L.Thinned, L.Ok, L.IsBlocked, L.RecordFailure;
  }

  lemma GuardsAlike(s: State, f: L.Attempts, ip: Ip, code: Code, b: Sid, now: real, today: int)
    requires L.IsBlocked(f, ip, now) == L.IsBlocked(s.failed, ip, now)
    ensures var r := s.(failed := f);
            && HelloPasses(r, ip, code, now, today) == HelloPasses(s, ip, code, now, today)
            && HelloFails(r, ip, code, now, today) == HelloFails(s, ip, code, now, today)
            && MayAsk(r, b, ip, code, now) == MayAsk(s, b, ip, code, now)
            && Usable(r, code, today) == Usable(s, code, today)
  {
    hide L.IsBlocked;
  }

  /** The same events let an address in or count against it. */
  lemma FailuresAlike(v: World, w: World, e: Event)
    requires Alike(v, w) && L.Ok(w.server.failed, w.lastFail, w.now)
    ensures CountedFailure(v, e) == CountedFailure(w, e) && LetIn(v, e) == LetIn(w, e)
  {
    assert v.server == w.server.(failed := v.server.failed);
    if e.AgentHello? || e.BrowserPair? || e.ControllerHello? {
      L.ThinnedAnswersAlike(v.server.failed, w.server.failed, w.lastFail, e.ip, w.now);
      GuardsAlike(w.server, v.server.failed, e.ip, e.code, e.sid, w.now, w.today);
    }
    hide HelloPasses, HelloFails, MayAsk, Usable, L.Thinned, L.Ok, L.IsBlocked, L.RecordFailure;
  }

  lemma SessionsAlike(v: World, w: World, e: Event)
    requires Alike(v, w) && L.Ok(w.server.failed, w.lastFail, w.now)
    ensures EndsAfter(v, e) == EndsAfter(w, e) && SessionAfter(v, e) == SessionAfter(w, e)
  {
    assert v.server == w.server.(failed := v.server.failed);
    if e.AgentHello? {
      L.ThinnedAnswersAlike(v.server.failed, w.server.failed, w.lastFail, e.ip, w.now);
      GuardsAlike(w.server, v.server.failed, e.ip, e.code, e.sid, w.now, w.today);
    }
    hide HelloFails, MayAsk, Usable, HeldLive, L.Thinned, L.Ok, L.IsBlocked, L.RecordFailure;
  }

  lemma StepHistoryAlike(v: World, w: World, e: Event)
    requires Alike(v, w) && L.Ok(w.server.failed, w.lastFail, w.now)
    ensures EndsAfter(v, e) == EndsAfter(w, e) && OpenerAfter(v, e) == OpenerAfter(w, e)
    ensures SpentAfter(v, e) == SpentAfter(w, e) && SessionAfter(v, e) == SessionAfter(w, e)
    ensures LastFailAfter(v, e) == LastFailAfter(w, e) && FailsAfter(v, e) == FailsAfter(w, e)
  {
    FailuresAlike(v, w, e);
    SessionsAlike(v, w, e);
    OtherHistory(v, w, e);
    hide CountedFailure, LetIn, EndsAfter, SessionAfter, OpenerAfter, SpentAfter, L.Thinned, L.Ok;
  }

  lemma OtherHistory(v: World, w: World, e: Event)
    requires v == w.(server := w.server.(failed := v.server.failed))
    ensures OpenerAfter(v, e) == OpenerAfter(w, e) && SpentAfter(v, e) == SpentAfter(w, e)
  {
    hide C.Accept, C.Request;
  }

  /** No rule of a run depends on the failure counters. */
  lemma EnabledAlike(v: World, w: World, e: Event, rules: Rules)
    requires v == w.(server := w.server.(failed := v.server.failed))
    ensures Enabled(v, e, rules) == Enabled(w, e, rules)
  {
    hide P.Lists, P.Holder, P.WaitsElsewhere, P.Of, C.Pick;
  }

  lemma CleanAlike(v: World, w: World, e: Event)
    requires Alike(v, w) && e.CleanFailures?
    ensures Alike(Step(v, e), w)
  {
    CleanupOfThinned(v.server.failed, w.server.failed, w.now);
    hide L.Thinned, L.Cleanup;
  }

  lemma OtherAlike(v: World, w: World, e: Event, rules: Rules)
    requires Alike(v, w) && L.Ok(w.server.failed, w.lastFail, w.now) && Enabled(w, e, rules) && !e.CleanFailures?
    ensures Alike(Step(v, e), Step(w, e))
  {
    StepHistoryAlike(v, w, e);
    StepServersAlike(v, w, e, rules);
    hide ServerStep, L.Thinned, L.Ok, Enabled,
         EndsAfter, OpenerAfter, SpentAfter, LastFailAfter, FailsAfter, SessionAfter;
  }

  lemma StepAlike(v: World, w: World, e: Event, rules: Rules, code: Code)
    requires Alike(v, w) && L.Ok(w.server.failed, w.lastFail, w.now) && Enabled(v, e, rules)
    ensures Admits(v, e, code) ==> !e.CleanFailures?
    ensures Admits(v, e, code) == Admits(w, e, code)
    ensures e.CleanFailures? ==> Alike(Step(v, e), w)
    ensures !e.CleanFailures? ==> Enabled(w, e, rules) && Alike(Step(v, e), Step(w, e))
  {
    AdmitsAlike(v, w, e, code);
    EnabledAlike(v, w, e, rules);
    if e.CleanFailures? {
      CleanAlike(v, w, e);
    } else {
      OtherAlike(v, w, e, rules);
    }
    hide Step, L.Thinned, L.Ok, Enabled, HelloReplyOf;
  }

  lemma CleanupOfThinned(f: L.Attempts, g: L.Attempts, now: real)
    requires L.Thinned(f, g, now)
    ensures L.Thinned(L.Cleanup(f, now), g, now)
  {
  }

  /** A run with its cleanups left out. */
  function Unclean(es: seq<Event>): seq<Event> {
    if es == [] then [] else (if es[0].CleanFailures? then [] else [es[0]]) + Unclean(es[1..])
  }

  /**
   Leaving every cleanup out of a run gives a run of the same server: the same
   sessions are admitted, and at the end everything but stale counters is equal
   and every address gets the same answer.
   */
  lemma {:induction false} CleanupIsUnobservable(v: World, w: World, es: seq<Event>, rules: Rules, code: Code)
    requires Alike(v, w) && L.Ok(w.server.failed, w.lastFail, w.now) && w.now >= 0.0
    requires Valid(v, es, rules)
    ensures Valid(w, Unclean(es), rules)
    ensures Alike(Run(v, es), Run(w, Unclean(es)))
    ensures Admissions(v, es, code) == Admissions(w, Unclean(es), code)
    ensures forall ip :: L.IsBlocked(Run(v, es).server.failed, ip, Run(v, es).now)
                      == L.IsBlocked(Run(w, Unclean(es)).server.failed, ip, Run(v, es).now)
    decreases |es|
  {
    hide Step, Enabled, Admits;
    if es == [] {
      forall ip ensures L.IsBlocked(v.server.failed, ip, w.now) == L.IsBlocked(w.server.failed, ip, w.now) {
        L.ThinnedAnswersAlike(v.server.failed, w.server.failed, w.lastFail, ip, w.now);
      }
    } else {
      var e := es[0];
      StepAlike(v, w, e, rules, code);
      if e.CleanFailures? {
        assert Unclean(es) == Unclean(es[1..]);
        CleanupIsUnobservable(Step(v, e), w, es[1..], rules, code);
      } else {
        assert Unclean(es) == [e] + Unclean(es[1..]);
        assert Unclean(es)[0] == e && Unclean(es)[1..] == Unclean(es[1..]);
        StepKeepsOk(w, e, rules);
        CleanupIsUnobservable(Step(v, e), Step(w, e), es[1..], rules, code);
      }
    }
  }
}
