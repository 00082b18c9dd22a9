/** What each assumption on clients buys: the exact condition under which a handler keeps a property without it. */
module Assumptions {
  import opened Basics
  import opened Tokens
  import opened Relay
  import opened Ledger
  import opened Seating
  import opened Sessions
  import opened Holders
  import L = Limiter
  import P = Pairing
  import C = Control

  lemma AcceptOne(p: P.Tables, a: Sid, code: Code, multi: bool, b: Sid)
    requires a !in p.agentBrowser
    ensures var q := P.Accept(p, a, code, multi, [b]);
            && q.browserAgent == p.browserAgent[b := a] && q.agentBrowser == p.agentBrowser[a := {b}]
            && q.pending == p.pending - {code}
  {
    var e := P.Enrol(p, a, code, multi);
    P.DrainPairsWinners(e, a, multi, [b]);
    assert P.Winners(e, a, multi, [b]) == {b};
    assert b in {b};
    assert p.browserAgent + P.Constant({b}, a) == p.browserAgent[b := a];
    assert P.Of(p.agentBrowser, a) + {b} == {b};
  }

  /**
   An impatient browser breaks the pairing tables: if it waits for two codes
   and both agents arrive, the first agent still lists it after the second
   has taken it over.
   */
  lemma ImpatienceUnlinks(b: Sid, a: Sid, a': Sid, c: Code, c': Code, multi: bool, multi': bool)
    requires a != a' && c != c'
    ensures var waiting := P.Enqueue(P.Enqueue(P.NOBODY, b, c), b, c');
            var p := P.Accept(P.Accept(waiting, a, c, multi, [b]), a', c', multi', [b]);
            && P.Of(waiting.pending, c) == P.Of(waiting.pending - {c}, c') == {b}
            && b in p.browserAgent && p.browserAgent[b] == a'
            && b in P.Of(p.agentBrowser, a)
            && !P.Inverse(p.browserAgent, p.agentBrowser)
  {
    var waiting := P.Enqueue(P.Enqueue(P.NOBODY, b, c), b, c');
    P.EnqueueKeepsQueue(P.NOBODY.pending, b, c);
    AcceptOne(waiting, a, c, multi, b);
    AcceptOne(P.Accept(waiting, a, c, multi, [b]), a', c', multi', b);
    hide P.Accept;
  }

  lemma GoneIff(p: P.Tables, b: Sid)
    ensures (forall a :: b !in P.Of(P.BrowserGone(p, b).agentBrowser, a))
            <==> forall a :: b in P.Of(p.agentBrowser, a) ==> b in p.browserAgent && p.browserAgent[b] == a
  {
    var groups := p.agentBrowser;
    if b in p.browserAgent {
      var g := P.Leave(groups, p.browserAgent[b], b);
      assert forall a :: P.Of(g, a) == if a == p.browserAgent[b] then P.Of(groups, a) - {b} else P.Of(groups, a);
      assert P.BrowserGone(p, b).agentBrowser == g;
    } else {
      assert P.BrowserGone(p, b).agentBrowser == groups;
    }
  }

  /**
   A browser whose socket closes is listed by no agent afterwards iff none
   listed it but the one it followed.
   */
  lemma ClosedBrowserForgottenIff(s: State, b: Sid)
    requires b !in s.desk.controllers && b !in s.pairing.agents
    ensures (forall a :: b !in P.Of(OnDisconnect(s, b).pairing.agentBrowser, a))
            <==> forall a :: b in P.Of(s.pairing.agentBrowser, a) ==>
                               b in s.pairing.browserAgent && s.pairing.browserAgent[b] == a
  {
    CloseByRole(s, b);
    GoneIff(s.pairing.(browserAuth := s.pairing.browserAuth - {b}), b);
    hide OnDisconnect, P.BrowserGone, P.Of;
  }

  /** So the impatient browser stays listed by its first agent, which a single-mode agent takes for being busy. */
  lemma ImpatientBrowserLingers(b: Sid, a: Sid, a': Sid, c: Code, c': Code, multi: bool, multi': bool)
    requires a != a' && c != c'
    ensures var waiting := P.Enqueue(P.Enqueue(P.NOBODY, b, c), b, c');
            var p := P.Accept(P.Accept(waiting, a, c, multi, [b]), a', c', multi', [b]);
            b !in P.BrowserGone(p, b).browserAgent && P.Of(P.BrowserGone(p, b).agentBrowser, a) == {b}
  {
    var waiting := P.Enqueue(P.Enqueue(P.NOBODY, b, c), b, c');
    AcceptOne(waiting, a, c, multi, b);
    AcceptOne(P.Accept(waiting, a, c, multi, [b]), a', c', multi', b);
    hide P.Accept;
  }

  /**
   An agent that says hello again, with another code, drops the code it held.
   Locks stay live exactly when the dropped code was not locked or another
   agent holds it too.
   */
  lemma SecondHelloKeepsLocksIff(s: State, a: Sid, ip: Ip, code: Code, multi: bool, order: seq<Sid>, now: real,
          today: int)
    requires LocksHeld(s) && a in s.pairing.agentTokens && s.pairing.agentTokens[a] != code
    requires HelloReplyOf(s, ip, code, now, today).Accepted?
    ensures var dropped := s.pairing.agentTokens[a];
            LocksHeld(OnAgentHello(s, a, ip, code, multi, order, now, today)) <==>
              || dropped !in s.tokens
              || !s.tokens[dropped].inUse
              || (exists x :: x != a && x in s.pairing.agentTokens && s.pairing.agentTokens[x] == dropped)
  {
    var held := s.pairing.agentTokens;
    var s' := OnAgentHello(s, a, ip, code, multi, order, now, today);
    HelloPairing(s, a, ip, code, multi, order, now, today);
    AcceptHolds(s.pairing, a, code, multi, order);
    HelloTokens(s, a, ip, code, multi, order, now, today);
    HelloKeepsOthers(s, a, ip, code, multi, order, now, today);
    hide OnAgentHello, HelloReplyOf, P.Accept;
    RelockIff(s.tokens, s'.tokens, held, a, code);
  }

  lemma HelloKeepsOthers(s: State, a: Sid, ip: Ip, code: Code, multi: bool, order: seq<Sid>, now: real, today: int)
    ensures forall c :: c in s.tokens && c != code ==>
              && c in OnAgentHello(s, a, ip, code, multi, order, now, today).tokens
              && OnAgentHello(s, a, ip, code, multi, order, now, today).tokens[c] == s.tokens[c]
  {
    hide P.Accept, L.RecordFailure, L.RecordSuccess, L.IsBlocked, Admit;
  }

  lemma RelockIff(tokens: TokenFile, tokens': TokenFile, held: map<Sid, Code>, a: Sid, code: Code)
    requires InUseHeld(tokens, held) && a in held && held[a] != code
    requires forall c :: c in tokens && c != code ==> c in tokens' && tokens'[c] == tokens[c]
    requires forall c :: c in tokens' && c != code ==> c in tokens
    ensures InUseHeld(tokens', held[a := code]) <==>
              || held[a] !in tokens
              || !tokens[held[a]].inUse
              || (exists x :: x != a && x in held && held[x] == held[a])
  {
    var held' := held[a := code];
    if held[a] in tokens && tokens[held[a]].inUse && !(exists x :: x != a && x in held && held[x] == held[a]) {
      assert !P.Live(held', held[a]);
    } else {
      forall c | c in tokens' && tokens'[c].inUse ensures P.Live(held', c) {
        if c == code {
          assert held'[a] == code;
        } else {
          var x :| x in held && held[x] == c;
          if x == a {
            var y :| y != a && y in held && held[y] == held[a];
            assert held'[y] == c;
          } else {
            assert held'[x] == c;
          }
        }
      }
    }
  }

  predicate Holds(s: State, a: Sid, code: Code) {
    a in s.pairing.agentTokens && s.pairing.agentTokens[a] == code
  }

  /**
   A kick frees the lock half a second before the socket closes, and a newcomer
   from an unblocked address gets the code then, unless the kick spent it or its
   date has passed.
   */
  lemma KickLetsASecondAgentIn(s: State, a: Sid, b: Sid, ip: Ip, code: Code, multi: bool, order: seq<Sid>,
          now: real, today: int)
    requires a in s.pairing.agents && Holds(s, a, code) && a != b
    requires code != Blank && code in s.tokens
    requires !L.IsBlocked(s.failed, ip, now)
    ensures var k := Kick(s, code, Some(a), now);
            var v := OnAgentHello(k, b, ip, code, multi, order, now, today);
            (Holds(v, a, code) && Holds(v, b, code)) <==> !Unusable(Burn(s.tokens[code]), today) || Holds(s, b, code)
  {
    var k := Kick(s, code, Some(a), now);
    HelloPairing(k, b, ip, code, multi, order, now, today);
    AcceptHolds(k.pairing, b, code, multi, order);
    AdmitIff(k.tokens[code], HeldLive(k, code), today, now);
    assert HelloReplyOf(k, ip, code, now, today) == Admit(k.tokens[code], HeldLive(k, code), today, now).1;
    hide OnAgentHello, P.Accept, HelloReplyOf;
  }
}
