/**
 Three runs, under every assumption on clients and clocks, at whose end two
 connected agents hold one code: after a kick, after the disconnect that
 follows it, and after the timer of a session that was over long ago.
 */
module TwoAgents {
  import opened Basics
  import opened Tokens
  import opened Relay
  import opened World
  import opened Sessions
  import opened Holders
  import opened Seating
  import L = Limiter
  import P = Pairing
  import C = Control

  const CODE := Code(0)
  const IP := Ip(0)
  const ALL_RULES := Rules(true, true, true, true)

  /** A token file with one code, for sessions of one minute without a limit. */
  function OneCode(): TokenFile {
    map[CODE := Created(0, 1, None)]
  }

  /** What matters of a world with agents only and no failures. */
  datatype Picture = Picture(
    held: map<Sid, Code>,
    inUse: bool,
    timers: multiset<Timer>,
    stops: multiset<Stop>,
    roles: map<Sid, Role>,
    now: real,
    today: int)

  predicate OneMinute(t: Token) {
    t.unlimited && !t.used && t.expiry.None? && t.maxMinutes == 1
  }

  ghost predicate Quiet(s: State, held: map<Sid, Code>, inUse: bool) {
    && s.pairing.agents == held.Keys && s.pairing.agentTokens == held && s.pairing.pending == map[]
    && s.desk == C.CLOSED && s.failed == map[]
    && CODE in s.tokens && OneMinute(s.tokens[CODE]) && s.tokens[CODE].inUse == inUse
  }

  ghost predicate Shows(w: World, p: Picture) {
    && Quiet(w.server, p.held, p.inUse)
    && w.server.timers == p.timers && w.server.stops == p.stops
    && w.roles == p.roles && w.helloed <= p.roles.Keys && w.now == p.now && w.today == p.today
  }

  // ------------------------------------------------------------------
  // Single events

  function Hello(a: Sid): Event { AgentHello(a, IP, CODE, false, []) }

  function FirstPicture(today: int): Picture {
    Picture(map[], false, multiset{}, multiset{}, map[], 0.0, today)
  }

  lemma StartShows(today: int)
    ensures Shows(Start(OneCode(), 0.0, today), FirstPicture(today))
  {
  }

  lemma HelloQuiet(s: State, a: Sid, held: map<Sid, Code>, now: real, today: int)
    requires Quiet(s, held, false)
    ensures HelloReplyOf(s, IP, CODE, now, today) == Accepted(1)
    ensures Quiet(OnAgentHello(s, a, IP, CODE, false, [], now, today), held[a := CODE], true)
  {
    assert s.failed - {IP} == map[];
    assert s.pairing.pending - {CODE} == map[];
  }

  lemma ConnectShows(w: World, p: Picture, a: Sid)
    requires Shows(w, p) && a !in p.roles
    ensures Enabled(w, Connect(a, Agent), ALL_RULES)
    ensures Shows(Step(w, Connect(a, Agent)), p.(roles := p.roles[a := Agent]))
    ensures a !in Step(w, Connect(a, Agent)).helloed
  {
    hide Quiet;
  }

  lemma HelloShows(w: World, p: Picture, a: Sid)
    requires Shows(w, p) && !p.inUse && a in p.roles && p.roles[a] == Agent && a !in w.helloed
    ensures Enabled(w, Hello(a), ALL_RULES)
    ensures Shows(Step(w, Hello(a)), p.(held := p.held[a := CODE], inUse := true,
                                        timers := p.timers + multiset{Timer(a, CODE, p.now + 60.0)}))
  {
    HelloQuiet(w.server, a, p.held, p.now, p.today);
    HelloTasks(w.server, a, IP, CODE, false, [], p.now, p.today);
    NobodyWaits(w.server, p.held, p.inUse);
    hide OnAgentHello, HelloReplyOf, Quiet, P.Lists;
  }

  lemma NobodyWaits(s: State, held: map<Sid, Code>, inUse: bool)
    requires Quiet(s, held, inUse)
    ensures P.Lists([], P.Of(s.pairing.pending, CODE))
  {
  }

  lemma CloseQuiet(s: State, a: Sid, held: map<Sid, Code>)
    requires Quiet(s, held, true) && a in held && held[a] == CODE
    ensures Quiet(OnDisconnect(s, a), held - {a}, false)
  {
    CloseByRole(s, a);
    hide OnDisconnect;
    assert OnDisconnect(s, a).desk == s.desk && OnDisconnect(s, a).failed == s.failed by {
      CloseRest(s, a);
    }
  }

  lemma CloseRest(s: State, a: Sid)
    requires a in s.pairing.agents && a !in s.desk.controllers
    ensures var t := OnDisconnect(s, a);
            t.desk == s.desk && t.failed == s.failed && t.timers == s.timers && t.stops == s.stops
  {
    hide BurnCode, P.AgentGone;
  }

  lemma CloseShows(w: World, p: Picture, a: Sid)
    requires Shows(w, p) && p.inUse && a in p.held && p.held[a] == CODE && a in p.roles
    ensures Enabled(w, Close(a), ALL_RULES)
    ensures Shows(Step(w, Close(a)), p.(held := p.held - {a}, inUse := false, roles := p.roles - {a}))
  {
    CloseQuiet(w.server, a, p.held);
    CloseRest(w.server, a);
    hide OnDisconnect, Quiet;
  }

  lemma StopShows(w: World, p: Picture, q: Stop)
    requires Shows(w, p) && p.inUse && q in p.stops && q.due <= p.now
    requires q.sid in p.held && p.held[q.sid] == CODE && q.sid in p.roles
    ensures Enabled(w, StopWakes(q), ALL_RULES)
    ensures Shows(Step(w, StopWakes(q)),
                  p.(held := p.held - {q.sid}, inUse := false, roles := p.roles - {q.sid},
                          stops := p.stops - multiset{q}))
  {
    var s := w.server.(stops := w.server.stops - multiset{q});
    CloseQuiet(s, q.sid, p.held);
    CloseRest(s, q.sid);
    hide OnDisconnect, Quiet;
  }

  lemma TickShows(w: World, p: Picture, later: real)
    requires Shows(w, p) && p.now <= later
    requires (forall t | t in p.timers :: later <= t.due) && (forall q | q in p.stops :: later <= q.due)
    ensures Enabled(w, Tick(later, p.today), ALL_RULES)
    ensures Shows(Step(w, Tick(later, p.today)), p.(now := later))
  {
    hide Quiet;
  }

  lemma StaleTimerShows(w: World, p: Picture, t: Timer)
    requires Shows(w, p) && p.inUse
    requires t in p.timers && t.due <= p.now && t.code == CODE && t.agent !in p.held
    ensures Enabled(w, TimerWakes(t), ALL_RULES)
    ensures Shows(Step(w, TimerWakes(t)), p.(inUse := false, timers := p.timers - multiset{t}))
  {
  }

  lemma KickShows(w: World, p: Picture, a: Sid)
    requires Shows(w, p) && p.inUse && a in p.held && p.held[a] == CODE
    ensures Enabled(w, AdminKick(CODE, Some(a)), ALL_RULES)
    ensures Shows(Step(w, AdminKick(CODE, Some(a))),
                  p.(inUse := false, stops := p.stops + multiset{Stop(a, p.now + GRACE)}))
  {
  }

  // ------------------------------------------------------------------
  // Runs

  ghost predicate LeadsTo(es: seq<Event>, p: Picture) {
    var w := Start(OneCode(), 0.0, p.today);
    Valid(w, es, ALL_RULES) && Shows(Run(w, es), p)
  }

  lemma Joins(es: seq<Event>, p: Picture, a: Sid)
    requires LeadsTo(es, p) && !p.inUse && a !in p.roles
    ensures LeadsTo(es + [Connect(a, Agent), Hello(a)],
                    p.(held := p.held[a := CODE], inUse := true, roles := p.roles[a := Agent],
                       timers := p.timers + multiset{Timer(a, CODE, p.now + 60.0)}))
  {
    hide Enabled, Step, Shows, Valid, Run;
    var w := Start(OneCode(), 0.0, p.today);
    ConnectShows(Run(w, es), p, a);
    Extend(w, es, Connect(a, Agent), ALL_RULES);
    var q := p.(roles := p.roles[a := Agent]);
    HelloShows(Run(w, es + [Connect(a, Agent)]), q, a);
    Extend(w, es + [Connect(a, Agent)], Hello(a), ALL_RULES);
    assert es + [Connect(a, Agent)] + [Hello(a)] == es + [Connect(a, Agent), Hello(a)];
  }

  lemma Begins(today: int)
    ensures LeadsTo([], FirstPicture(today))
  {
    StartShows(today);
    hide Shows;
  }

  lemma ThenKick(es: seq<Event>, p: Picture, a: Sid)
    requires LeadsTo(es, p) && p.inUse && a in p.held && p.held[a] == CODE
    ensures LeadsTo(es + [AdminKick(CODE, Some(a))],
                    p.(inUse := false, stops := p.stops + multiset{Stop(a, p.now + GRACE)}))
  {
    hide Enabled, Step, Shows, Valid, Run;
    var w := Start(OneCode(), 0.0, p.today);
    KickShows(Run(w, es), p, a);
    Extend(w, es, AdminKick(CODE, Some(a)), ALL_RULES);
  }

  lemma ThenClose(es: seq<Event>, p: Picture, a: Sid)
    requires LeadsTo(es, p) && p.inUse && a in p.held && p.held[a] == CODE && a in p.roles
    ensures LeadsTo(es + [Close(a)], p.(held := p.held - {a}, inUse := false, roles := p.roles - {a}))
  {
    hide Enabled, Step, Shows, Valid, Run;
    var w := Start(OneCode(), 0.0, p.today);
    CloseShows(Run(w, es), p, a);
    Extend(w, es, Close(a), ALL_RULES);
  }

  lemma ThenTick(es: seq<Event>, p: Picture, later: real)
    requires LeadsTo(es, p) && p.now <= later
    requires (forall t | t in p.timers :: later <= t.due) && (forall q | q in p.stops :: later <= q.due)
    ensures LeadsTo(es + [Tick(later, p.today)], p.(now := later))
  {
    hide Enabled, Step, Shows, Valid, Run;
    var w := Start(OneCode(), 0.0, p.today);
    TickShows(Run(w, es), p, later);
    Extend(w, es, Tick(later, p.today), ALL_RULES);
  }

  lemma ThenStaleTimer(es: seq<Event>, p: Picture, t: Timer)
    requires LeadsTo(es, p) && p.inUse
    requires t in p.timers && t.due <= p.now && t.code == CODE && t.agent !in p.held
    ensures LeadsTo(es + [TimerWakes(t)], p.(inUse := false, timers := p.timers - multiset{t}))
  {
    hide Enabled, Step, Shows, Valid, Run;
    var w := Start(OneCode(), 0.0, p.today);
    StaleTimerShows(Run(w, es), p, t);
    Extend(w, es, TimerWakes(t), ALL_RULES);
  }

  lemma ThenStop(es: seq<Event>, p: Picture, q: Stop)
    requires LeadsTo(es, p) && p.inUse && q in p.stops && q.due <= p.now
    requires q.sid in p.held && p.held[q.sid] == CODE && q.sid in p.roles
    ensures LeadsTo(es + [StopWakes(q)],
                    p.(held := p.held - {q.sid}, inUse := false, roles := p.roles - {q.sid},
                       stops := p.stops - multiset{q}))
    ensures FreesByClosing(es, p.today, StopWakes(q))
            <==> P.Live(p.held - {q.sid}, CODE)
  {
    hide Enabled, Step, Valid, Run;
    var w := Start(OneCode(), 0.0, p.today);
    StopShows(Run(w, es), p, q);
    Extend(w, es, StopWakes(q), ALL_RULES);
    InUseShown(Run(w, es).server, p.held, q.sid);
    hide Shows;
  }

  lemma InUseShown(s: State, held: map<Sid, Code>, a: Sid)
    requires Quiet(s, held, true) && a in held && held[a] == CODE
    ensures InUseLive(s, CODE)
  {
  }

  /** The run's next event takes the lock from a code that stays live, without a kick or a timer. */
  ghost predicate FreesByClosing(es: seq<Event>, today: int, e: Event) {
    var w := Run(Start(OneCode(), 0.0, today), es);
    InUseLive(w.server, CODE) && FreeLive(Step(w, e).server, CODE) && !Frees(e, CODE)
  }

  /** The second agent comes in the half second between the kick and the disconnect. */
  function KickRun(a: Sid, b: Sid): seq<Event> {
    [Connect(a, Agent), Hello(a)] + [AdminKick(CODE, Some(a))] + [Connect(b, Agent), Hello(b)]
  }

  /** The world after it. */
  function AfterKick(a: Sid, b: Sid, today: int): Picture {
    FirstPicture(today).(held := map[a := CODE, b := CODE], inUse := true, roles := map[a := Agent, b := Agent],
                         timers := multiset{Timer(a, CODE, 60.0)} + multiset{Timer(b, CODE, 60.0)},
                         stops := multiset{Stop(a, 0.5)})
  }

  lemma KickRunLeads(a: Sid, b: Sid, today: int)
    requires a != b
    ensures LeadsTo(KickRun(a, b), AfterKick(a, b, today))
  {
    hide LeadsTo;
    Begins(today);
    var p0 := FirstPicture(today);
    Joins([], p0, a);
    var es := [Connect(a, Agent), Hello(a)];
    assert [] + es == es;
    var t := Timer(a, CODE, 60.0);
    assert multiset{} + multiset{t} == multiset{t};
    var p1 := p0.(held := map[a := CODE], inUse := true, roles := map[a := Agent], timers := multiset{t});
    ThenKick(es, p1, a);
    assert multiset{} + multiset{Stop(a, 0.0 + GRACE)} == multiset{Stop(a, 0.5)};
    Joins(es + [AdminKick(CODE, Some(a))], p1.(inUse := false, stops := multiset{Stop(a, 0.5)}), b);
  }

  /** A kick lets two agents hold one code. */
  lemma KickRunShares(a: Sid, b: Sid, today: int)
    requires a != b
    ensures var w := Start(OneCode(), 0.0, today);
            && Valid(w, KickRun(a, b), ALL_RULES)
            && Run(w, KickRun(a, b)).server.pairing.agentTokens == map[a := CODE, b := CODE]
            && !OneHolder(Run(w, KickRun(a, b)).server.pairing.agentTokens)
  {
    hide LeadsTo, Valid, Run;
    KickRunLeads(a, b, today);
    BothHold(KickRun(a, b), AfterKick(a, b, today), a, b);
  }

  /** Half a second after the kick the first agent's socket closes and takes the lock from the second. */
  function Aftermath(a: Sid, b: Sid, today: int): seq<Event> {
    KickRun(a, b) + [Tick(0.5, today)]
  }

  /** So a third agent may enter, while the second one has hardly begun. */
  function AftermathRun(a: Sid, b: Sid, c: Sid, today: int): seq<Event> {
    Aftermath(a, b, today) + [StopWakes(Stop(a, 0.5))] + [Connect(c, Agent), Hello(c)]
  }

  lemma AftermathRunShares(a: Sid, b: Sid, c: Sid, today: int)
    requires a != b && b != c && a != c
    ensures var w := Start(OneCode(), 0.0, today);
            var es := AftermathRun(a, b, c, today);
            && FreesByClosing(Aftermath(a, b, today), today, StopWakes(Stop(a, 0.5)))
            && Valid(w, es, ALL_RULES)
            && Run(w, es).server.pairing.agentTokens == map[b := CODE, c := CODE]
            && Run(w, es).server.stops == multiset{}
            && !OneHolder(Run(w, es).server.pairing.agentTokens)
  {
    hide LeadsTo, Valid, Run, FreesByClosing, P.Live;
    KickRunLeads(a, b, today);
    var p := AfterKick(a, b, today);
    ThenTick(KickRun(a, b), p, 0.5);
    var q := Stop(a, 0.5);
    ThenStop(Aftermath(a, b, today), p.(now := 0.5), q);
    BothLive(p.held, a, b);
    assert p.held - {a} == map[b := CODE] && p.stops - multiset{q} == multiset{};
    var r := p.(now := 0.5, held := map[b := CODE], inUse := false, roles := p.roles - {a}, stops := multiset{});
    Joins(Aftermath(a, b, today) + [StopWakes(q)], r, c);
    BothHold(AftermathRun(a, b, c, today),
             r.(held := r.held[c := CODE], inUse := true, roles := r.roles[c := Agent],
                timers := r.timers + multiset{Timer(c, CODE, r.now + 60.0)}), b, c);
  }

  lemma BothLive(held: map<Sid, Code>, a: Sid, b: Sid)
    requires a != b && b in held && held[b] == CODE
    ensures P.Live(held - {a}, CODE)
  {
    assert b in held - {a};
  }

  lemma BothHold(es: seq<Event>, p: Picture, a: Sid, b: Sid)
    requires LeadsTo(es, p) && a != b && p.held == map[a := CODE, b := CODE]
    ensures var w := Start(OneCode(), 0.0, p.today);
            && Valid(w, es, ALL_RULES)
            && Run(w, es).server.pairing.agentTokens == map[a := CODE, b := CODE]
            && Run(w, es).server.stops == p.stops
            && !OneHolder(Run(w, es).server.pairing.agentTokens)
  {
    hide Valid, Run;
    assert p.held[a] == p.held[b];
  }

  /** The timer of the first session wakes in the second one, half a minute before its end, and frees its lock. */
  function StaleTimerRun(a: Sid, b: Sid, c: Sid, today: int): seq<Event> {
    [Connect(a, Agent), Hello(a)] + [Close(a)] + [Tick(30.0, today)] + [Connect(b, Agent), Hello(b)]
    + [Tick(60.0, today)] + [TimerWakes(Timer(a, CODE, 60.0))] + [Connect(c, Agent), Hello(c)]
  }

  /** After the first session of the run, its timer still sleeps. */
  function AfterFirst(a: Sid, today: int): Picture {
    FirstPicture(today).(timers := multiset{Timer(a, CODE, 60.0)}, now := 30.0)
  }

  lemma FirstSessionOver(a: Sid, today: int)
    ensures LeadsTo([Connect(a, Agent), Hello(a)] + [Close(a)] + [Tick(30.0, today)], AfterFirst(a, today))
  {
    hide LeadsTo;
    Begins(today);
    var p := FirstPicture(today);
    Joins([], p, a);
    var es := [Connect(a, Agent), Hello(a)];
    assert [] + es == es;
    var t := Timer(a, CODE, 60.0);
    assert multiset{} + multiset{t} == multiset{t};
    var q := p.(held := map[a := CODE], inUse := true, roles := map[a := Agent], timers := multiset{t});
    ThenClose(es, q, a);
    assert q.held - {a} == p.held && q.roles - {a} == p.roles;
    ThenTick(es + [Close(a)], p.(timers := multiset{t}), 30.0);
  }

  /** Without any kick a stale timer lets two agents hold one code, and none of them is about to be disconnected. */
  lemma StaleTimerRunShares(a: Sid, b: Sid, c: Sid, today: int)
    requires a != b && b != c && a != c
    ensures var w := Start(OneCode(), 0.0, today);
            var es := StaleTimerRun(a, b, c, today);
            && Valid(w, es, ALL_RULES)
            && (forall e | e in es :: !e.AdminKick?)
            && Run(w, es).server.pairing.agentTokens == map[b := CODE, c := CODE]
            && Run(w, es).server.stops == multiset{}
            && !OneHolder(Run(w, es).server.pairing.agentTokens)
  {
    hide LeadsTo, Valid, Run;
    FirstSessionOver(a, today);
    var es := [Connect(a, Agent), Hello(a)] + [Close(a)] + [Tick(30.0, today)];
    var t, u := Timer(a, CODE, 60.0), Timer(b, CODE, 90.0);
    var p := AfterFirst(a, today);
    Joins(es, p, b);
    es := es + [Connect(b, Agent), Hello(b)];
    var q := p.(held := map[b := CODE], inUse := true, roles := map[b := Agent], timers := multiset{t} + multiset{u});
    ThenTick(es, q, 60.0);
    es := es + [Tick(60.0, today)];
    ThenStaleTimer(es, q.(now := 60.0), t);
    es := es + [TimerWakes(t)];
    var r := q.(now := 60.0, inUse := false, timers := q.timers - multiset{t});
    Joins(es, r, c);
    BothHold(StaleTimerRun(a, b, c, today),
             r.(held := r.held[c := CODE], inUse := true, roles := r.roles[c := Agent],
                timers := r.timers + multiset{Timer(c, CODE, r.now + 60.0)}), b, c);
  }
}
