/**
 The tables that pair browsers with agents: every connected agent holds one
 code, a browser follows at most one agent, and browsers that came first wait
 for their code.
 */
module Pairing {
  import opened Basics

  type Groups<!K> = map<K, set<Sid>>

  datatype Tables = Tables(
    agents: set<Sid>,
    agentTokens: map<Sid, Code>,
    allowMulti: map<Sid, bool>,
    browserAuth: set<Sid>,
    browserAgent: map<Sid, Sid>,
    agentBrowser: Groups<Sid>,
    pending: Groups<Code>)

  const NOBODY := Tables({}, map[], map[], {}, map[], map[], map[])

  /** The members of a group; a missing group has none. */
  function Of<K>(groups: Groups<K>, k: K): set<Sid> {
    if k in groups then groups[k] else {}
  }

  /** Some connected agent holds the code. */
  ghost predicate Live(held: map<Sid, Code>, code: Code) {
    exists a :: a in held && held[a] == code
  }

  /** `holder` is an agent that holds the code, or None when there is none. */
  ghost predicate Holder(held: map<Sid, Code>, code: Code, holder: Option<Sid>) {
    match holder
    case None => !Live(held, code)
    case Some(a) => a in held && held[a] == code
  }

  function Pair(p: Tables, b: Sid, a: Sid): Tables {
    p.(browserAgent := p.browserAgent[b := a],
       agentBrowser := p.agentBrowser[a := Of(p.agentBrowser, a) + {b}])
  }

  /** One member leaves a group; the group disappears with its last member. */
  function Leave(groups: Groups<Sid>, a: Sid, b: Sid): Groups<Sid> {
    if Of(groups, a) == {} then groups
    else if groups[a] - {b} == {} then groups - {a}
    else groups[a := groups[a] - {b}]
  }

  /** `_unpair_browser`. */
  function UnpairBrowser(p: Tables, b: Sid): Tables {
    if b !in p.browserAgent then p
    else p.(browserAgent := p.browserAgent - {b},
            agentBrowser := Leave(p.agentBrowser, p.browserAgent[b], b))
  }

  /** `_unpair_agent`: frees every browser listed under the agent. */
  function UnpairAgent(p: Tables, a: Sid): Tables {
    p.(browserAgent := p.browserAgent - Of(p.agentBrowser, a),
       agentBrowser := p.agentBrowser - {a},
       allowMulti := p.allowMulti - {a})
  }

  /** The tables after an agent's socket closed. */
  function AgentGone(p: Tables, a: Sid): Tables {
    UnpairAgent(p.(agentTokens := p.agentTokens - {a}), a).(agents := p.agents - {a})
  }

  /** No browser `b` in any waiting set; the sets themselves stay. */
  function Without(pending: Groups<Code>, b: Sid): Groups<Code> {
    map c | c in pending :: pending[c] - {b}
  }

  /** The tables after a browser's socket closed. */
  function BrowserGone(p: Tables, b: Sid): Tables {
    UnpairBrowser(p.(pending := Without(p.pending, b)), b)
  }

  /** Adds a browser to the waiting set of a code. */
  function Enqueue(p: Tables, b: Sid, code: Code): Tables {
    p.(pending := p.pending[code := Of(p.pending, code) + {b}])
  }

  /** A new agent, before the browsers waiting for its code are served. */
  function Enrol(p: Tables, a: Sid, code: Code, multi: bool): Tables {
    p.(agents := p.agents + {a},
       agentTokens := p.agentTokens[a := code],
       allowMulti := p.allowMulti[a := multi],
       pending := p.pending - {code})
  }

  /** A sequence that lists a set once each: an iteration order of the set. */
  ghost predicate Lists(order: seq<Sid>, s: set<Sid>) {
    && (forall b :: b in order <==> b in s)
    && (forall i, j :: 0 <= i < j < |order| ==> order[i] != order[j])
  }

  /** Serves waiting browsers in order; a single-mode agent turns away all but its first. */
  function Drain(p: Tables, a: Sid, multi: bool, order: seq<Sid>): Tables
    decreases |order|
  {
    if order == [] then p
    else if !multi && Of(p.agentBrowser, a) != {} then Drain(p, a, multi, order[1..])
    else Drain(Pair(p, order[0], a), a, multi, order[1..])
  }

  /** An accepted `agent_hello`. */
  function Accept(p: Tables, a: Sid, code: Code, multi: bool, order: seq<Sid>): Tables {
    Drain(Enrol(p, a, code, multi), a, multi, order)
  }

  /** What happens to browsers leaves alone who is connected with which code. */
  lemma AgentsUntouched(p: Tables, b: Sid, a: Sid)
    ensures UnpairBrowser(p, b).agents == BrowserGone(p, b).agents == p.agents
    ensures UnpairBrowser(p, b).agentTokens == BrowserGone(p, b).agentTokens == p.agentTokens
    ensures AgentGone(p, a).agents == p.agents - {a} && AgentGone(p, a).agentTokens == p.agentTokens - {a}
  {
    hide Leave, Without, Of;
  }

  // ------------------------------------------------------------------
  // Draining in closed form

  /** The browsers that draining pairs. */
  function Winners(p: Tables, a: Sid, multi: bool, order: seq<Sid>): set<Sid> {
    if multi then set b | b in order
    else if Of(p.agentBrowser, a) != {} || order == [] then {}
    else {order[0]}
  }

  function Constant(bs: set<Sid>, a: Sid): map<Sid, Sid> {
    map b | b in bs :: a
  }

  function PairAll(p: Tables, a: Sid, bs: set<Sid>): Tables {
    p.(browserAgent := p.browserAgent + Constant(bs, a),
       agentBrowser := if bs == {} then p.agentBrowser else p.agentBrowser[a := Of(p.agentBrowser, a) + bs])
  }

  lemma PairThenPairAll(p: Tables, a: Sid, b: Sid, bs: set<Sid>)
    ensures PairAll(Pair(p, b, a), a, bs) == PairAll(p, a, {b} + bs)
  {
    assert p.browserAgent[b := a] + Constant(bs, a) == p.browserAgent + Constant({b} + bs, a);
    assert (Of(p.agentBrowser, a) + {b}) + bs == Of(p.agentBrowser, a) + ({b} + bs);
    var g := p.agentBrowser[a := Of(p.agentBrowser, a) + {b}];
    if bs == {} {
      assert {b} + bs == {b};
    } else {
      assert g[a := Of(p.agentBrowser, a) + ({b} + bs)] == p.agentBrowser[a := Of(p.agentBrowser, a) + ({b} + bs)];
    }
  }

  lemma PairNobody(p: Tables, a: Sid)
    ensures PairAll(p, a, {}) == p
  {
    assert p.browserAgent + Constant({}, a) == p.browserAgent;
  }

  lemma {:induction false} FullDrainIsIdle(p: Tables, a: Sid, order: seq<Sid>)
    requires Of(p.agentBrowser, a) != {}
    ensures Drain(p, a, false, order) == p
    decreases |order|
  {
    if order != [] { FullDrainIsIdle(p, a, order[1..]); }
  }

  lemma {:induction false} DrainPairsWinners(p: Tables, a: Sid, multi: bool, order: seq<Sid>)
    ensures Drain(p, a, multi, order) == PairAll(p, a, Winners(p, a, multi, order))
    decreases |order|
  {
    var w := Winners(p, a, multi, order);
    if order == [] {
      assert w == {};
      PairNobody(p, a);
    } else if multi {
      var rest := set b | b in order[1..];
      assert w == {order[0]} + rest;
      DrainPairsWinners(Pair(p, order[0], a), a, multi, order[1..]);
      PairThenPairAll(p, a, order[0], rest);
    } else if Of(p.agentBrowser, a) != {} {
      FullDrainIsIdle(p, a, order);
      PairNobody(p, a);
    } else {
      FullDrainIsIdle(Pair(p, order[0], a), a, order[1..]);
      PairNobody(Pair(p, order[0], a), a);
      PairThenPairAll(p, a, order[0], {});
      assert {order[0]} + {} == {order[0]};
    }
  }

  // ------------------------------------------------------------------
  // Invariants

  /** A browser's agent lists that browser. */
  ghost predicate PointsBack(to: map<Sid, Sid>, groups: Groups<Sid>) {
    forall b :: b in to ==> b in Of(groups, to[b])
  }

  /** A listed browser follows the agent that lists it. */
  ghost predicate Follows(to: map<Sid, Sid>, groups: Groups<Sid>) {
    forall a, b :: b in Of(groups, a) ==> b in to && to[b] == a
  }

  /** `browserAgent` and `agentBrowser` are exact inverses. */
  ghost predicate Inverse(to: map<Sid, Sid>, groups: Groups<Sid>) {
    PointsBack(to, groups) && Follows(to, groups)
  }

  ghost predicate NoneEmpty(groups: Groups<Sid>) {
    forall a :: a in groups ==> groups[a] != {}
  }

  /** At most one member. */
  ghost predicate AtMostOne(s: set<Sid>) {
    forall b, c :: b in s && c in s ==> b == c
  }

  /** A single-mode agent has at most one browser. */
  ghost predicate SinglesKept(groups: Groups<Sid>, multi: map<Sid, bool>) {
    forall a :: a in multi && !multi[a] ==> AtMostOne(Of(groups, a))
  }

  /** A code somebody waits for has no connected agent. */
  ghost predicate WaitsForAbsent(pending: Groups<Code>, held: map<Sid, Code>) {
    forall a :: a in held ==> Of(pending, held[a]) == {}
  }

  ghost predicate WaitersUnpaired(pending: Groups<Code>, to: map<Sid, Sid>) {
    forall c, b :: b in Of(pending, c) ==> b !in to
  }

  ghost predicate WaitsOnce(pending: Groups<Code>) {
    forall c, d, b :: b in Of(pending, c) && b in Of(pending, d) ==> c == d
  }

  /** What the handlers keep with no assumption on what a waiting browser asks for. */
  ghost predicate Wired(p: Tables) {
    && p.agents == p.agentTokens.Keys == p.allowMulti.Keys
    && p.agentBrowser.Keys <= p.agents
    && PointsBack(p.browserAgent, p.agentBrowser)
    && NoneEmpty(p.agentBrowser)
    && SinglesKept(p.agentBrowser, p.allowMulti)
    && WaitsForAbsent(p.pending, p.agentTokens)
  }

  ghost predicate Exact(p: Tables) {
    && Wired(p)
    && Follows(p.browserAgent, p.agentBrowser)
    && WaitersUnpaired(p.pending, p.browserAgent)
    && WaitsOnce(p.pending)
  }

  /** The browser is waiting for some other code. */
  ghost predicate WaitsElsewhere(pending: Groups<Code>, b: Sid, code: Code) {
    exists c :: c != code && b in Of(pending, c)
  }

  lemma PairKeeps(p: Tables, b: Sid, a: Sid)
    requires Wired(p) && a in p.agents && b !in p.browserAgent
    requires p.allowMulti[a] || Of(p.agentBrowser, a) == {}
    ensures Wired(Pair(p, b, a))
    ensures Exact(p) && (forall c :: b !in Of(p.pending, c)) ==> Exact(Pair(p, b, a))
  {
    PairNobody(Pair(p, b, a), a);
    PairThenPairAll(p, a, b, {});
    assert {b} + {} == {b};
    PairAllKeeps(p, a, {b});
    if Exact(p) && (forall c :: b !in Of(p.pending, c)) { PairAllKeepsExact(p, a, {b}); }
  }

  lemma PairAllKeepsLinks(to: map<Sid, Sid>, groups: Groups<Sid>, a: Sid, bs: set<Sid>)
    requires PointsBack(to, groups) && NoneEmpty(groups)
    ensures var to' := to + Constant(bs, a);
            var g := if bs == {} then groups else groups[a := Of(groups, a) + bs];
            && PointsBack(to', g) && NoneEmpty(g)
            && (Follows(to, groups) && (forall b :: b in bs ==> b !in to) ==> Follows(to', g))
  {
    var g := if bs == {} then groups else groups[a := Of(groups, a) + bs];
    assert forall x :: Of(g, x) == if x == a then Of(groups, a) + bs else Of(groups, x);
  }

  lemma SinglesFollow(groups: Groups<Sid>, multi: map<Sid, bool>, groups': Groups<Sid>, multi': map<Sid, bool>, a: Sid)
    requires SinglesKept(groups, multi)
    requires forall x :: x in multi' && x != a ==> x in multi && multi'[x] == multi[x]
    requires forall x :: x != a ==> Of(groups', x) <= Of(groups, x)
    requires a in multi' && !multi'[a] ==> AtMostOne(Of(groups', a))
    ensures SinglesKept(groups', multi')
  {
    forall x | x in multi' && !multi'[x] ensures AtMostOne(Of(groups', x)) {
      if x != a { assert AtMostOne(Of(groups, x)); }
    }
  }

  lemma PairAllKeeps(p: Tables, a: Sid, bs: set<Sid>)
    requires Wired(p) && a in p.agents
    requires p.allowMulti[a] || (AtMostOne(bs) && (bs == {} || Of(p.agentBrowser, a) == {}))
    ensures Wired(PairAll(p, a, bs))
  {
    PairAllKeepsLinks(p.browserAgent, p.agentBrowser, a, bs);
    var q := PairAll(p, a, bs);
    assert Of(q.agentBrowser, a) == Of(p.agentBrowser, a) + bs;
    assert a in p.allowMulti && !p.allowMulti[a] ==> AtMostOne(Of(p.agentBrowser, a));
    SinglesFollow(p.agentBrowser, p.allowMulti, q.agentBrowser, q.allowMulti, a);
  }

  lemma PairAllKeepsExact(p: Tables, a: Sid, bs: set<Sid>)
    requires Exact(p) && Wired(PairAll(p, a, bs))
    requires forall b :: b in bs ==> b !in p.browserAgent && (forall c :: b !in Of(p.pending, c))
    ensures Exact(PairAll(p, a, bs))
  {
    PairAllKeepsLinks(p.browserAgent, p.agentBrowser, a, bs);
  }

  lemma LeaveKeeps(to: map<Sid, Sid>, groups: Groups<Sid>, b: Sid)
    requires PointsBack(to, groups) && NoneEmpty(groups) && b in to
    ensures var g := Leave(groups, to[b], b);
            && PointsBack(to - {b}, g) && NoneEmpty(g)
            && (Follows(to, groups) ==> Follows(to - {b}, g))
            && (forall a :: Of(g, a) <= Of(groups, a))
  {
    var g := Leave(groups, to[b], b);
    assert forall a :: Of(g, a) == if a == to[b] then Of(groups, a) - {b} else Of(groups, a);
  }

  lemma UnpairBrowserKeeps(p: Tables, b: Sid)
    requires Wired(p)
    ensures Wired(UnpairBrowser(p, b))
    ensures Exact(p) ==> Exact(UnpairBrowser(p, b))
  {
    if b in p.browserAgent {
      LeaveKeeps(p.browserAgent, p.agentBrowser, b);
      var q := UnpairBrowser(p, b);
      forall x | x in q.allowMulti && !q.allowMulti[x] ensures AtMostOne(Of(q.agentBrowser, x)) {
        assert AtMostOne(Of(p.agentBrowser, x));
      }
    }
  }

  lemma WithoutShortens(pending: Groups<Code>, held: map<Sid, Code>, b: Sid)
    requires WaitsForAbsent(pending, held)
    ensures WaitsForAbsent(Without(pending, b), held)
    ensures forall c :: Of(Without(pending, b), c) == Of(pending, c) - {b}
  {
  }

  lemma WithoutDrops(pending: Groups<Code>, b: Sid)
    ensures forall c :: Of(Without(pending, b), c) == Of(pending, c) - {b}
  {
  }

  lemma LeaveQueueKeeps(p: Tables, b: Sid)
    requires Wired(p)
    ensures var q := p.(pending := Without(p.pending, b));
            Wired(q) && (Exact(p) ==> Exact(q))
  {
    WithoutShortens(p.pending, p.agentTokens, b);
    if Exact(p) { ShorterQueue(p.pending, Without(p.pending, b), p.browserAgent); }
  }

  lemma BrowserGoneKeeps(p: Tables, b: Sid)
    requires Wired(p)
    ensures Wired(BrowserGone(p, b))
    ensures Exact(p) ==> Exact(BrowserGone(p, b))
  {
    LeaveQueueKeeps(p, b);
    UnpairBrowserKeeps(p.(pending := Without(p.pending, b)), b);
  }

  lemma AgentGoneKeeps(p: Tables, a: Sid)
    requires Wired(p)
    ensures Wired(AgentGone(p, a))
    ensures Exact(p) ==> Exact(AgentGone(p, a))
  {
    UngroupKeeps(p.browserAgent, p.agentBrowser, a);
    var q := AgentGone(p, a);
    SinglesFollow(p.agentBrowser, p.allowMulti, q.agentBrowser, q.allowMulti, a);
  }

  lemma UngroupKeeps(to: map<Sid, Sid>, groups: Groups<Sid>, a: Sid)
    requires PointsBack(to, groups) && NoneEmpty(groups)
    ensures var to' := to - Of(groups, a);
            && PointsBack(to', groups - {a}) && NoneEmpty(groups - {a})
            && (Follows(to, groups) ==> Follows(to', groups - {a}))
  {
    var to' := to - Of(groups, a);
    if Follows(to, groups) {
      forall x, b | b in Of(groups - {a}, x) ensures b in to' && to'[b] == x {
        assert x in groups - {a} && b in Of(groups, x);
        assert x != a && b in to && to[b] == x;
      }
    }
  }

  lemma EnqueueKeepsQueue(pending: Groups<Code>, b: Sid, code: Code)
    ensures var q := pending[code := Of(pending, code) + {b}];
            forall c :: Of(q, c) == if c == code then Of(pending, c) + {b} else Of(pending, c)
  {
  }

  lemma EnqueueKeeps(p: Tables, b: Sid, code: Code)
    requires Wired(p) && !Live(p.agentTokens, code)
    ensures Wired(Enqueue(p, b, code))
  {
    EnqueueKeepsQueue(p.pending, b, code);
  }

  lemma EnqueueKeepsExact(p: Tables, b: Sid, code: Code)
    requires Exact(p) && Wired(Enqueue(p, b, code)) && b !in p.browserAgent
    requires !WaitsElsewhere(p.pending, b, code)
    ensures Exact(Enqueue(p, b, code))
  {
    EnqueueKeepsQueue(p.pending, b, code);
    var q := Enqueue(p, b, code).pending;
    forall c, d, x | x in Of(q, c) && x in Of(q, d) ensures c == d {
      if x != b { assert x in Of(p.pending, c) && x in Of(p.pending, d); }
    }
  }

  lemma EnrolKeepsQueue(pending: Groups<Code>, held: map<Sid, Code>, a: Sid, code: Code)
    requires WaitsForAbsent(pending, held) && a !in held
    ensures WaitsForAbsent(pending - {code}, held[a := code])
    ensures forall c :: Of(pending - {code}, c) == if c == code then {} else Of(pending, c)
  {
  }

  lemma EnrolKeeps(p: Tables, a: Sid, code: Code, multi: bool)
    requires Wired(p) && a !in p.agents
    ensures Wired(Enrol(p, a, code, multi))
    ensures Of(p.agentBrowser, a) == {}
  {
    var q := Enrol(p, a, code, multi);
    EnrolKeepsQueue(p.pending, p.agentTokens, a, code);
    SinglesFollow(p.agentBrowser, p.allowMulti, q.agentBrowser, q.allowMulti, a);
  }

  lemma EnrolKeepsExact(p: Tables, a: Sid, code: Code, multi: bool)
    requires Exact(p) && Wired(Enrol(p, a, code, multi)) && a !in p.agents
    ensures Exact(Enrol(p, a, code, multi))
  {
    EnrolKeepsQueue(p.pending, p.agentTokens, a, code);
    ShorterQueue(p.pending, p.pending - {code}, p.browserAgent);
  }

  lemma ShorterQueue(pending: Groups<Code>, pending': Groups<Code>, to: map<Sid, Sid>)
    requires WaitersUnpaired(pending, to) && WaitsOnce(pending)
    requires forall c :: Of(pending', c) <= Of(pending, c)
    ensures WaitersUnpaired(pending', to) && WaitsOnce(pending')
  {
    forall c, d, b | b in Of(pending', c) && b in Of(pending', d) ensures c == d {
      assert b in Of(pending, c) && b in Of(pending, d);
    }
  }

  /** Accepting an agent on a fresh socket, with the waiting browsers in any order. */
  lemma AcceptKeeps(p: Tables, a: Sid, code: Code, multi: bool, order: seq<Sid>)
    requires Wired(p) && a !in p.agents
    requires Lists(order, Of(p.pending, code))
    ensures Wired(Accept(p, a, code, multi, order))
    ensures Exact(p) ==> Exact(Accept(p, a, code, multi, order))
  {
    EnrolKeeps(p, a, code, multi);
    var e := Enrol(p, a, code, multi);
    DrainPairsWinners(e, a, multi, order);
    var w := Winners(e, a, multi, order);
    PairAllKeeps(e, a, w);
    if Exact(p) {
      EnrolKeepsExact(p, a, code, multi);
      forall b | b in w ensures b !in e.browserAgent && (forall c :: b !in Of(e.pending, c)) {
        assert b in Of(p.pending, code);
        forall c ensures b !in Of(e.pending, c) { assert c != code ==> Of(e.pending, c) == Of(p.pending, c); }
      }
      PairAllKeepsExact(e, a, w);
    }
  }

  /**
   Serving n waiting browsers empties the waiting set and pairs all n of them
   in multi mode and exactly min(1, n) in single mode, whatever the order;
   no other agent gains or loses a browser.
   */
  lemma AcceptServes(p: Tables, a: Sid, code: Code, multi: bool, order: seq<Sid>)
    requires Wired(p) && a !in p.agents
    requires Lists(order, Of(p.pending, code))
    ensures var q := Accept(p, a, code, multi, order);
            var n := |Of(p.pending, code)|;
            var served := Of(q.agentBrowser, a);
            && Of(q.pending, code) == {}
            && |served| == (if multi || n == 0 then n else 1)
            && served <= Of(p.pending, code)
            && (forall b :: b in served ==> b in q.browserAgent && q.browserAgent[b] == a)
            && (forall x :: x != a ==> Of(q.agentBrowser, x) == Of(p.agentBrowser, x))
  {
    var e := Enrol(p, a, code, multi);
    DrainPairsWinners(e, a, multi, order);
    WinnersCount(e, a, multi, order, Of(p.pending, code));
    PairAllServes(e.browserAgent, e.agentBrowser, a, Winners(e, a, multi, order));
  }

  lemma PairAllServes(to: map<Sid, Sid>, groups: Groups<Sid>, a: Sid, bs: set<Sid>)
    requires a !in groups
    ensures var to' := to + Constant(bs, a);
            var g := if bs == {} then groups else groups[a := Of(groups, a) + bs];
            && Of(g, a) == bs
            && (forall b :: b in bs ==> b in to' && to'[b] == a)
            && (forall x :: x != a ==> Of(g, x) == Of(groups, x))
  {
  }

  lemma WinnersCount(p: Tables, a: Sid, multi: bool, order: seq<Sid>, s: set<Sid>)
    requires Of(p.agentBrowser, a) == {} && Lists(order, s)
    ensures var w := Winners(p, a, multi, order);
            w <= s && |w| == if multi || |s| == 0 then |s| else 1
  {
    if multi {
      assert Winners(p, a, multi, order) == s;
    } else if order == [] {
      assert forall b :: b in s ==> b in order;
      assert s == {};
    } else {
      assert order[0] in s;
    }
  }

  /**
   Without the assumption on waiting browsers the two tables can part:
   accepting an agent keeps them inverse exactly when every browser it is given
   was unpaired.
   */
  lemma AcceptKeepsInverseIff(p: Tables, a: Sid, code: Code, multi: bool, order: seq<Sid>)
    requires Wired(p) && Inverse(p.browserAgent, p.agentBrowser) && a !in p.agents
    requires Lists(order, Of(p.pending, code))
    ensures var q := Accept(p, a, code, multi, order);
            (Inverse(q.browserAgent, q.agentBrowser)
            <==> (forall b :: b in Winners(Enrol(p, a, code, multi), a, multi, order) ==> b !in p.browserAgent))
  {
    var e := Enrol(p, a, code, multi);
    DrainPairsWinners(e, a, multi, order);
    PairAllInverseIff(p.browserAgent, p.agentBrowser, a, Winners(e, a, multi, order));
  }

  lemma PairAllInverseIff(to: map<Sid, Sid>, groups: Groups<Sid>, a: Sid, bs: set<Sid>)
    requires Inverse(to, groups) && NoneEmpty(groups) && a !in groups
    ensures var to' := to + Constant(bs, a);
            var g := if bs == {} then groups else groups[a := Of(groups, a) + bs];
            (Inverse(to', g) <==> (forall b :: b in bs ==> b !in to))
  {
    PairAllKeepsLinks(to, groups, a, bs);
    var to' := to + Constant(bs, a);
    var g := if bs == {} then groups else groups[a := Of(groups, a) + bs];
    if b :| b in bs && b in to {
      assert b in Of(g, to[b]) && to'[b] == a;
    }
  }
}
