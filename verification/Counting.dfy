/**
 When an address is blocked, told from its failures alone: they are counted in
 windows of ten minutes that open with the first failure after the last window.
 */
module Counting {
  import opened Basics
  import opened Tokens
  import opened Relay
  import opened World
  import opened Answers
  import opened Blocking
  import L = Limiter
  import P = Pairing
  import C = Control

  // ------------------------------------------------------------------
  // Failures and their windows

  /** The index of the failure that opened the window of the last one. */
  function Opening(ts: seq<real>): (k: nat)
    requires ts != []
    ensures k < |ts|
    decreases |ts|
  {
    var n := |ts| - 1;
    if n == 0 then 0
    else
      var k := Opening(ts[..n]);
      if ts[n] - ts[k] > 600.0 then n else k
  }

  /** The failures in the window of the last one. */
  function InWindow(ts: seq<real>): nat {
    if ts == [] then 0 else |ts| - Opening(ts)
  }

  /** Five failures in one window, the last of them less than five minutes ago. */
  predicate Barred(ts: seq<real>, now: real) {
    InWindow(ts) >= 5 && now < ts[|ts| - 1] + 300.0
  }

  predicate Ordered(ts: seq<real>) {
    forall i, j | 0 <= i < j < |ts| :: ts[i] <= ts[j]
  }

  /** A window holds what comes within ten minutes of its opening, and opens later than that after the one before. */
  lemma {:induction false} OpeningIs(ts: seq<real>)
    requires ts != []
    ensures var k := Opening(ts);
            && (forall i | k <= i < |ts| :: ts[i] - ts[k] <= 600.0)
            && (k > 0 ==> ts[k] - ts[Opening(ts[..k])] > 600.0)
    decreases |ts|
  {
    var n := |ts| - 1;
    if n > 0 {
      OpeningIs(ts[..n]);
      var k := Opening(ts[..n]);
      assert ts[..n][..k] == ts[..k];
    }
  }

  lemma OpeningOfNext(ts: seq<real>, t: real)
    requires ts != []
    ensures Opening(ts + [t]) == if t - ts[Opening(ts)] > 600.0 then |ts| else Opening(ts)
  {
    assert (ts + [t])[..|ts|] == ts;
  }

  /** The last five fell into ten minutes that followed ten quiet ones. */
  predicate FiveAfterQuiet(ts: seq<real>) {
    var n := |ts|;
    n >= 5 && ts[n - 1] - ts[n - 5] <= 600.0 && (n > 5 ==> ts[n - 5] - ts[n - 6] > 600.0)
  }

  lemma FiveFill(ts: seq<real>)
    requires Ordered(ts) && FiveAfterQuiet(ts)
    ensures InWindow(ts) == 5
  {
    var n := |ts|;
    OpensAfterQuiet(ts[..n - 4]);
    StaysOpen(ts, n - 5, n - 4);
    assert ts[..n] == ts;
  }

  lemma OpensAfterQuiet(ts: seq<real>)
    requires Ordered(ts) && ts != []
    requires var n := |ts|; n > 1 ==> ts[n - 1] - ts[n - 2] > 600.0
    ensures Opening(ts) == |ts| - 1
  {
    var n := |ts| - 1;
    if n > 0 {
      assert ts[..n][Opening(ts[..n])] <= ts[n - 1];
    }
  }

  lemma {:induction false} StaysOpen(ts: seq<real>, k: nat, m: nat)
    requires Ordered(ts) && k < m <= |ts| && Opening(ts[..m]) == k
    requires ts[|ts| - 1] - ts[k] <= 600.0
    ensures Opening(ts[..|ts|]) == k
    decreases |ts| - m
  {
    if m < |ts| {
      assert ts[..m + 1] == ts[..m] + [ts[m]];
      OpeningOfNext(ts[..m], ts[m]);
      StaysOpen(ts, k, m + 1);
    }
    hide Opening, Ordered;
  }

  // ------------------------------------------------------------------
  // The counters tell the same

  ghost predicate EntryTrue(e: L.Entry, ts: seq<real>) {
    ts != [] && e.count == InWindow(ts) && e.firstFail == ts[Opening(ts)]
  }

  /** What the counter of an address, or that there is none, says of its failures and the last of them. */
  ghost predicate AddressTrue(e: Option<L.Entry>, ts: seq<real>, last: Option<real>, now: real) {
    if ts == [] then e.None?
    else
      && Ordered(ts) && last == Some(ts[|ts| - 1]) && ts[|ts| - 1] <= now
      && match e
         case Some(entry) => EntryTrue(entry, ts)
         case None => now - ts[Opening(ts)] > 1200.0
  }

  ghost predicate CountsTrue(failed: L.Attempts, fails: map<Ip, seq<real>>, last: map<Ip, real>, now: real) {
    forall ip: Ip :: AddressTrue(Lookup(failed, ip), FailsOf(fails, ip), Lookup(last, ip), now)
  }

  ghost predicate WorldCounts(w: World) {
    CountsTrue(w.server.failed, w.fails, w.lastFail, w.now) && L.Ok(w.server.failed, w.lastFail, w.now) && w.now >= 0.0
  }

  lemma AppendOrdered(ts: seq<real>, t: real)
    requires Ordered(ts) && (ts != [] ==> ts[|ts| - 1] <= t)
    ensures Ordered(ts + [t])
  {
  }

  /** One more failure: the entry of a window that is still open counts it, or a new one begins. */
  lemma FailedEntry(e: Option<L.Entry>, ts: seq<real>, last: Option<real>, now: real, f: L.Entry)
    requires AddressTrue(e, ts, last, now)
    requires if e.Some? && now - e.value.firstFail <= 600.0
             then f.count == e.value.count + 1 && f.firstFail == e.value.firstFail
             else f.count == 1 && f.firstFail == now
    ensures AddressTrue(Some(f), ts + [now], Some(now), now)
  {
    AppendOrdered(ts, now);
    if ts != [] {
      OpeningOfNext(ts, now);
    }
    hide Opening, Ordered;
  }

  lemma FailureCounts(failed: L.Attempts, fails: map<Ip, seq<real>>, last: map<Ip, real>, ip: Ip, now: real)
    requires CountsTrue(failed, fails, last, now)
    ensures CountsTrue(L.RecordFailure(failed, ip, now), fails[ip := FailsOf(fails, ip) + [now]], last[ip := now], now)
  {
    hide AddressTrue;
    var f, fails', last' := L.RecordFailure(failed, ip, now), fails[ip := FailsOf(fails, ip) + [now]], last[ip := now];
    forall x: Ip
      ensures AddressTrue(Lookup(f, x), FailsOf(fails', x), Lookup(last', x), now)
    {
      assert AddressTrue(Lookup(failed, x), FailsOf(fails, x), Lookup(last, x), now);
      if x == ip {
        FailedEntry(Lookup(failed, ip), FailsOf(fails, ip), Lookup(last, ip), now, f[ip]);
      }
    }
  }

  lemma SuccessCounts(failed: L.Attempts, fails: map<Ip, seq<real>>, last: map<Ip, real>, ip: Ip, now: real)
    requires CountsTrue(failed, fails, last, now)
    ensures CountsTrue(L.RecordSuccess(failed, ip), fails - {ip}, last, now)
  {
    hide Opening, Ordered, EntryTrue;
    forall x: Ip
      ensures AddressTrue(Lookup(L.RecordSuccess(failed, ip), x), FailsOf(fails - {ip}, x), Lookup(last, x), now)
    {
      assert AddressTrue(Lookup(failed, x), FailsOf(fails, x), Lookup(last, x), now);
    }
  }

  lemma LaterCounts(failed: L.Attempts, fails: map<Ip, seq<real>>, last: map<Ip, real>, now: real, later: real)
    requires CountsTrue(failed, fails, last, now) && now <= later
    ensures CountsTrue(failed, fails, last, later)
  {
    hide Opening, Ordered, EntryTrue;
    forall x: Ip
      ensures AddressTrue(Lookup(failed, x), FailsOf(fails, x), Lookup(last, x), later)
    {
      assert AddressTrue(Lookup(failed, x), FailsOf(fails, x), Lookup(last, x), now);
    }
  }

  lemma CleanupCounts(failed: L.Attempts, fails: map<Ip, seq<real>>, last: map<Ip, real>, now: real)
    requires CountsTrue(failed, fails, last, now)
    ensures CountsTrue(L.Cleanup(failed, now), fails, last, now)
  {
    hide Opening, Ordered, InWindow;
    forall x: Ip
      ensures AddressTrue(Lookup(L.Cleanup(failed, now), x), FailsOf(fails, x), Lookup(last, x), now)
    {
      assert AddressTrue(Lookup(failed, x), FailsOf(fails, x), Lookup(last, x), now);
    }
  }

  lemma NothingCounts(last: map<Ip, real>, now: real)
    ensures CountsTrue(map[], map[], last, now)
  {
  }

  /** What the invariant says of one address. */
  lemma AddressIs(w: World, ip: Ip)
    requires WorldCounts(w)
    ensures AddressTrue(Lookup(w.server.failed, ip), FailsOf(w.fails, ip), Lookup(w.lastFail, ip), w.now)
    ensures ip in w.server.failed ==> ip in w.lastFail && L.EntryOk(w.server.failed[ip], w.lastFail[ip], w.now)
  {
    hide AddressTrue;
  }

  lemma AskingCounts(w: World, e: Event)
    requires e.AgentHello? || e.BrowserPair? || e.ControllerHello?
    requires WorldCounts(w)
    ensures CountsTrue(ServerStep(w, e).failed, FailsAfter(w, e), LastFailAfter(w, e), w.now)
  {
    if e.AgentHello? { AgentsFailed(w, e); } else { AskersFailed(w, e); }
    if CountedFailure(w, e).Some? {
      FailureCounts(w.server.failed, w.fails, w.lastFail, e.ip, w.now);
      CountedIsNotLetIn(w, e);
    } else if LetIn(w, e).Some? {
      SuccessCounts(w.server.failed, w.fails, w.lastFail, LetIn(w, e).value, w.now);
    }
    hide ServerStep, CountedFailure, LetIn, CountsTrue, L.Ok, L.RecordFailure, L.RecordSuccess, L.IsBlocked;
  }

  lemma CountedIsNotLetIn(w: World, e: Event)
    ensures CountedFailure(w, e).Some? ==> LetIn(w, e).None? && CountedFailure(w, e).value == e.ip
  {
    hide L.IsBlocked, HeldLive;
  }

  lemma QuietCounts(w: World, e: Event, rules: Rules)
    requires Enabled(w, e, rules) && WorldCounts(w) && !Counts(e)
    ensures CountsTrue(ServerStep(w, e).failed, FailsAfter(w, e), LastFailAfter(w, e), if e.Tick? then e.now else w.now)
  {
    Uncounted(w, e, w.server.failed);
    if e.Tick? { LaterCounts(w.server.failed, w.fails, w.lastFail, w.now, e.now); }
    hide ServerStep, CountsTrue, L.Ok;
  }

  lemma DroppingCounts(w: World, e: Event)
    requires (e.Restart? || e.CleanFailures?) && WorldCounts(w)
    ensures CountsTrue(ServerStep(w, e).failed, FailsAfter(w, e), LastFailAfter(w, e), w.now)
  {
    CleanupCounts(w.server.failed, w.fails, w.lastFail, w.now);
    NothingCounts(w.lastFail, w.now);
    hide Sweep, L.Cleanup, L.Ok, CountsTrue;
  }

  lemma StepKeepsCounts(w: World, e: Event, rules: Rules)
    requires Enabled(w, e, rules) && WorldCounts(w)
    ensures WorldCounts(Step(w, e))
  {
    hide ServerStep, FailsAfter, LastFailAfter, CountsTrue, L.Ok;
    StepKeepsOk(w, e, rules);
    if !Counts(e) {
      QuietCounts(w, e, rules);
    } else if e.Restart? || e.CleanFailures? {
      DroppingCounts(w, e);
    } else {
      AskingCounts(w, e);
    }
  }

  lemma {:induction false} RunKeepsCounts(w: World, es: seq<Event>, rules: Rules)
    requires Valid(w, es, rules) && WorldCounts(w)
    ensures WorldCounts(Run(w, es))
    decreases |es|
  {
    hide Enabled, Step, WorldCounts;
    if es != [] {
      StepKeepsCounts(w, es[0], rules);
      RunKeepsCounts(Step(w, es[0]), es[1..], rules);
    }
  }

  lemma StartCounts(tokens: TokenFile, now: real, today: int)
    requires now >= 0.0
    ensures WorldCounts(Start(tokens, now, today))
  {
    NothingCounts(map[], now);
    hide Sweep, CountsTrue;
  }

  /** A cleanup drops exactly the counters whose window opened more than twenty minutes ago. */
  lemma CleanupDropsOld(w: World, e: Event, ip: Ip)
    requires WorldCounts(w) && e.CleanFailures? && ip in w.server.failed
    ensures FailsOf(w.fails, ip) != []
    ensures var ts := FailsOf(w.fails, ip);
            ip in ServerStep(w, e).failed <==> w.now - ts[Opening(ts)] <= 1200.0
  {
    AddressIs(w, ip);
    hide Opening, Ordered, InWindow, WorldCounts, L.EntryOk;
  }

  lemma LetInForgets(w: World, e: Event)
    requires LetIn(w, e).Some?
    ensures (e.AgentHello? || e.ControllerHello?) && LetIn(w, e).value == e.ip && FailsOf(FailsAfter(w, e), e.ip) == []
    ensures WorldCounts(Step(w, e)) ==> e.ip !in Step(w, e).server.failed
  {
    hide HelloPasses, Found, L.IsBlocked, ServerStep, EntryTrue, Ordered, Opening, WorldCounts;
    if WorldCounts(Step(w, e)) {
      AddressIs(Step(w, e), e.ip);
    }
  }

  /** An address is blocked iff its failures since it was last let in bar it. */
  lemma BlockedIffBarred(w: World, ip: Ip)
    requires WorldCounts(w)
    ensures L.IsBlocked(w.server.failed, ip, w.now) <==> Barred(FailsOf(w.fails, ip), w.now)
  {
    AddressIs(w, ip);
    var ts := FailsOf(w.fails, ip);
    if ts != [] {
      OpeningIs(ts);
    }
    hide Opening, Ordered, WorldCounts;
  }

  lemma FailuresOrdered(w: World, ip: Ip)
    requires WorldCounts(w)
    ensures Ordered(FailsOf(w.fails, ip))
  {
    AddressIs(w, ip);
    hide Opening, InWindow, WorldCounts;
  }

  lemma FiveBlock(w: World, ip: Ip)
    requires WorldCounts(w) && FiveAfterQuiet(FailsOf(w.fails, ip))
    ensures var ts := FailsOf(w.fails, ip);
            L.IsBlocked(w.server.failed, ip, w.now) <==> w.now < ts[|ts| - 1] + 300.0
  {
    BlockedIffBarred(w, ip);
    FailuresOrdered(w, ip);
    FiveFill(FailsOf(w.fails, ip));
    hide WorldCounts, Ordered, InWindow, Opening, L.IsBlocked;
  }

  // ------------------------------------------------------------------
  // Five failures in seventeen seconds

  const IP := Ip(0)
  const NO_CODE := Code(9)
  const ALL_RULES := Rules(true, true, true, true)

  /** A server without codes and a browser that can only guess. */
  ghost predicate Guessing(w: World, b: Sid, ts: seq<real>, now: real, today: int) {
    && w.server.pairing == P.NOBODY && w.server.tokens == map[]
    && w.server.timers == multiset{} && w.server.stops == multiset{}
    && w.roles == map[b := Browser] && w.now == now && w.today == today && FailsOf(w.fails, IP) == ts
  }

  ghost predicate LeadsTo(es: seq<Event>, b: Sid, ts: seq<real>, now: real, today: int) {
    var w := Start(map[], 0.0, today);
    Valid(w, es, ALL_RULES) && Guessing(Run(w, es), b, ts, now, today) && WorldCounts(Run(w, es))
  }

  function Guess(b: Sid, at: real, today: int): seq<Event> {
    [Tick(at, today), BrowserPair(b, IP, NO_CODE, None)]
  }

  lemma TickGuessing(w: World, b: Sid, ts: seq<real>, now: real, at: real, today: int)
    requires Guessing(w, b, ts, now, today) && now <= at
    ensures Enabled(w, Tick(at, today), ALL_RULES)
    ensures Guessing(Step(w, Tick(at, today)), b, ts, at, today)
  {
  }

  lemma GuessCounts(w: World, b: Sid, ts: seq<real>, now: real, today: int)
    requires Guessing(w, b, ts, now, today) && !L.IsBlocked(w.server.failed, IP, now)
    ensures Enabled(w, BrowserPair(b, IP, NO_CODE, None), ALL_RULES)
    ensures Guessing(Step(w, BrowserPair(b, IP, NO_CODE, None)), b, ts + [now], now, today)
  {
    var e := BrowserPair(b, IP, NO_CODE, None);
    assert CountedFailure(w, e) == Some(IP) && LetIn(w, e) == None;
    assert PairReplyOf(w.server, b, IP, NO_CODE, None, now, today) == PairUnknown;
    hide L.RecordFailure, L.IsBlocked;
  }

  lemma GuessAgain(es: seq<Event>, b: Sid, ts: seq<real>, now: real, at: real, today: int)
    requires LeadsTo(es, b, ts, now, today) && now <= at && !Barred(ts, at)
    ensures LeadsTo(es + Guess(b, at, today), b, ts + [at], at, today)
  {
    var w := Start(map[], 0.0, today);
    var f := es + [Tick(at, today)];
    var g := f + [BrowserPair(b, IP, NO_CODE, None)];
    assert g == es + Guess(b, at, today);
    hide Enabled, Step, Valid, Run, Guessing, WorldCounts;
    TickGuessing(Run(w, es), b, ts, now, at, today);
    Extend(w, es, Tick(at, today), ALL_RULES);
    StepKeepsCounts(Run(w, es), Tick(at, today), ALL_RULES);
    BlockedIffBarred(Run(w, f), IP);
    GuessingShows(Run(w, f), b, ts, at, today);
    GuessCounts(Run(w, f), b, ts, at, today);
    Extend(w, f, BrowserPair(b, IP, NO_CODE, None), ALL_RULES);
    StepKeepsCounts(Run(w, f), BrowserPair(b, IP, NO_CODE, None), ALL_RULES);
  }

  lemma GuessingShows(w: World, b: Sid, ts: seq<real>, now: real, today: int)
    requires Guessing(w, b, ts, now, today)
    ensures w.now == now && FailsOf(w.fails, IP) == ts
  {
  }

  lemma FirstBrowser(b: Sid, today: int)
    ensures var w := Start(map[], 0.0, today);
            && Enabled(w, Connect(b, Browser), ALL_RULES)
            && Guessing(Step(w, Connect(b, Browser)), b, [], 0.0, today)
  {
    assert Sweep(map[], {}) == map[];
  }

  lemma BeginsGuessing(b: Sid, today: int)
    ensures LeadsTo([Connect(b, Browser)], b, [], 0.0, today)
  {
    var w := Start(map[], 0.0, today);
    var e := Connect(b, Browser);
    StartCounts(map[], 0.0, today);
    FirstBrowser(b, today);
    StepKeepsCounts(w, e, ALL_RULES);
    Extend(w, [], e, ALL_RULES);
    assert [] + [e] == [e];
    hide Start, WorldCounts, Guessing, Enabled, Step;
  }

  /** Six guesses: one, then five within seventeen seconds around the end of its window. */
  function SixGuesses(b: Sid, today: int): seq<Event> {
    [Connect(b, Browser)] + Guess(b, 0.0, today) + Guess(b, 590.0, today) + Guess(b, 595.0, today)
    + Guess(b, 605.0, today) + Guess(b, 606.0, today) + Guess(b, 607.0, today)
  }

  lemma FewAreNotBarred(ts: seq<real>, now: real)
    requires |ts| < 5
    ensures !Barred(ts, now)
  {
  }

  lemma WindowTurns()
    ensures InWindow([0.0, 590.0, 595.0, 605.0, 606.0]) == 2 && InWindow([0.0, 590.0, 595.0, 605.0, 606.0, 607.0]) == 3
  {
    var s3 := [0.0, 590.0, 595.0];
    assert [0.0] + [590.0] == [0.0, 590.0] && [0.0, 590.0] + [595.0] == s3;
    OpeningOfNext([0.0], 590.0);
    OpeningOfNext([0.0, 590.0], 595.0);
    OpeningOfNext(s3, 605.0);
    assert s3 + [605.0] == [0.0, 590.0, 595.0, 605.0];
    OpeningOfNext(s3 + [605.0], 606.0);
    assert s3 + [605.0] + [606.0] == [0.0, 590.0, 595.0, 605.0, 606.0];
    OpeningOfNext(s3 + [605.0] + [606.0], 607.0);
    assert s3 + [605.0] + [606.0] + [607.0] == [0.0, 590.0, 595.0, 605.0, 606.0, 607.0];
  }

  /**
   Five failures within ten minutes do not always block: here the last five
   come within seventeen seconds, but the window opened by the first failure
   ends between them.
   */
  lemma FiveQuickFailuresMayPass(b: Sid, today: int)
    ensures var w := Start(map[], 0.0, today);
            && Valid(w, SixGuesses(b, today), ALL_RULES)
            && FailsOf(Run(w, SixGuesses(b, today)).fails, IP) == [0.0, 590.0, 595.0, 605.0, 606.0, 607.0]
            && !L.IsBlocked(Run(w, SixGuesses(b, today)).server.failed, IP, 607.0)
  {
    hide LeadsTo, Barred, InWindow;
    var es := [Connect(b, Browser)];
    BeginsGuessing(b, today);
    FewAreNotBarred([], 0.0);
    GuessAgain(es, b, [], 0.0, 0.0, today);
    assert [] + [0.0] == [0.0];
    es := es + Guess(b, 0.0, today);
    FewAreNotBarred([0.0], 590.0);
    GuessAgain(es, b, [0.0], 0.0, 590.0, today);
    es := es + Guess(b, 590.0, today);
    assert [0.0] + [590.0] == [0.0, 590.0];
    FewAreNotBarred([0.0, 590.0], 595.0);
    GuessAgain(es, b, [0.0, 590.0], 590.0, 595.0, today);
    es := es + Guess(b, 595.0, today);
    assert [0.0, 590.0] + [595.0] == [0.0, 590.0, 595.0];
    LastGuesses(es, b, today);
  }

  lemma LastGuesses(es: seq<Event>, b: Sid, today: int)
    requires LeadsTo(es, b, [0.0, 590.0, 595.0], 595.0, today)
    ensures var w := Start(map[], 0.0, today);
            var fs := es + Guess(b, 605.0, today) + Guess(b, 606.0, today) + Guess(b, 607.0, today);
            && Valid(w, fs, ALL_RULES)
            && FailsOf(Run(w, fs).fails, IP) == [0.0, 590.0, 595.0, 605.0, 606.0, 607.0]
            && !L.IsBlocked(Run(w, fs).server.failed, IP, 607.0)
  {
    var s := [0.0, 590.0, 595.0];
    WindowTurns();
    FewAreNotBarred(s, 605.0);
    assert s + [605.0] == [0.0, 590.0, 595.0, 605.0];
    assert s + [605.0] + [606.0] == [0.0, 590.0, 595.0, 605.0, 606.0];
    assert s + [605.0] + [606.0] + [607.0] == [0.0, 590.0, 595.0, 605.0, 606.0, 607.0];
    FewAreNotBarred(s + [605.0], 606.0);
    assert !Barred(s + [605.0] + [606.0], 607.0) && !Barred(s + [605.0] + [606.0] + [607.0], 607.0);
    hide LeadsTo, Barred, InWindow;
    GuessAgain(es, b, s, 595.0, 605.0, today);
    var f := es + Guess(b, 605.0, today);
    GuessAgain(f, b, s + [605.0], 605.0, 606.0, today);
    var g := f + Guess(b, 606.0, today);
    GuessAgain(g, b, s + [605.0] + [606.0], 606.0, 607.0, today);
    Conclusion(g + Guess(b, 607.0, today), b, s + [605.0] + [606.0] + [607.0], 607.0, today);
  }

  lemma Conclusion(es: seq<Event>, b: Sid, ts: seq<real>, now: real, today: int)
    requires LeadsTo(es, b, ts, now, today) && !Barred(ts, now)
    ensures var w := Start(map[], 0.0, today);
            && Valid(w, es, ALL_RULES) && FailsOf(Run(w, es).fails, IP) == ts
            && !L.IsBlocked(Run(w, es).server.failed, IP, now)
  {
    hide Valid, Run, Barred, WorldCounts, L.IsBlocked;
    BlockedIffBarred(Run(Start(map[], 0.0, today), es), IP);
  }
}
