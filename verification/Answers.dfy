/** What each request is answered, in terms of the tables and the token file before it. */
module Answers {
  import opened Basics
  import opened Tokens
  import opened Relay
  import opened World
  import Limiter
  import P = Pairing
  import C = Control

  /** A known code from an unblocked address. */
  predicate Known(s: State, ip: Ip, code: Code, now: real) {
    !Limiter.IsBlocked(s.failed, ip, now) && code != Blank && code in s.tokens
  }

  predicate NoUsesLeft(t: Token) {
    t.used || (!t.unlimited && t.useCount >= t.maxUses)
  }

  predicate OutOfDate(t: Token, today: int) {
    t.expiry.Some? && today > t.expiry.value
  }

  lemma RecordAnswers(t: Token, live: bool, today: int, now: real)
    ensures var r := Admit(t, live, today, now).1;
            && (r == CodeUsedUp <==> NoUsesLeft(t))
            && (r == CodeBusy <==> !NoUsesLeft(t) && t.inUse && live)
            && (r == CodeExpired <==> !NoUsesLeft(t) && !(t.inUse && live) && OutOfDate(t, today))
            && (r.Accepted? <==> !NoUsesLeft(t) && !(t.inUse && live) && !OutOfDate(t, today))
            && (r.Accepted? ==> r.minutes == t.maxMinutes)
  {
  }

  /**
   The answer to `agent_hello`. In the order of the handler: blocked, no code,
   unknown, used up, busy, expired, and else accepted for the minutes of the
   record.
   */
  lemma HelloAnswers(s: State, ip: Ip, code: Code, now: real, today: int)
    ensures var r := HelloReplyOf(s, ip, code, now, today);
            && (r == Blocked <==> Limiter.IsBlocked(s.failed, ip, now))
            && (r == CodeMissing <==> !Limiter.IsBlocked(s.failed, ip, now) && code == Blank)
            && (r == CodeUnknown <==> !Limiter.IsBlocked(s.failed, ip, now) && code != Blank && code !in s.tokens)
            && (Known(s, ip, code, now) ==>
                  var t := s.tokens[code];
                  var busy := t.inUse && HeldLive(s, code);
                  && (r == CodeUsedUp <==> NoUsesLeft(t))
                  && (r == CodeBusy <==> !NoUsesLeft(t) && busy)
                  && (r == CodeExpired <==> !NoUsesLeft(t) && !busy && OutOfDate(t, today))
                  && (r == Accepted(t.maxMinutes) <==> !NoUsesLeft(t) && !busy && !OutOfDate(t, today)))
    ensures HelloReplyOf(s, ip, code, now, today).Accepted? <==> HelloPasses(s, ip, code, now, today)
    ensures CountsAsFailure(HelloReplyOf(s, ip, code, now, today)) <==> HelloFails(s, ip, code, now, today)
  {
    if code in s.tokens {
      RecordAnswers(s.tokens[code], HeldLive(s, code), today, now);
    }
    hide Admit, HeldLive, Limiter.IsBlocked;
  }

  lemma AdmitsIff(w: World, e: Event)
    requires e.AgentHello?
    ensures Admits(w, e, e.code) <==> HelloPasses(w.server, e.ip, e.code, w.now, w.today)
  {
    HelloAnswers(w.server, e.ip, e.code, w.now, w.today);
    hide HelloReplyOf, HelloPasses;
  }

  /** The agent found has room: it takes many browsers, or lists none. */
  predicate HasRoom(s: State, a: Sid) {
    (a in s.pairing.allowMulti && s.pairing.allowMulti[a]) || P.Of(s.pairing.agentBrowser, a) == {}
  }

  /** The answer to `browser_pair`. */
  lemma PairAnswers(s: State, b: Sid, ip: Ip, code: Code, holder: Option<Sid>, now: real, today: int)
    ensures var r := PairReplyOf(s, b, ip, code, holder, now, today);
            && (r == PairBlank <==> code == Blank)
            && (r == PairBlocked <==> code != Blank && Limiter.IsBlocked(s.failed, ip, now))
            && (r == PairAlready <==>
                  code != Blank && !Limiter.IsBlocked(s.failed, ip, now) && b in s.pairing.browserAgent)
            && (r == PairUnknown <==> MayAsk(s, b, ip, code, now) && code !in s.tokens)
            && (r == PairUsed <==> MayAsk(s, b, ip, code, now) && code in s.tokens && s.tokens[code].used)
            && (r == PairExpired <==>
                  MayAsk(s, b, ip, code, now) && code in s.tokens && !s.tokens[code].used
                  && OutOfDate(s.tokens[code], today))
            && (r == PairWaiting <==> MayAsk(s, b, ip, code, now) && Usable(s, code, today) && !Found(s, holder))
            && (r == PairBusy <==>
                  MayAsk(s, b, ip, code, now) && Usable(s, code, today) && Found(s, holder)
                  && !HasRoom(s, holder.value))
            && (forall a :: r == PairDone(a) <==>
                  MayAsk(s, b, ip, code, now) && Usable(s, code, today) && Found(s, holder) && HasRoom(s, holder.value)
                  && a == holder.value)
  {
    hide P.Of, Limiter.IsBlocked;
  }

  /** The answer to `controller_hello`. */
  lemma ControllerAnswers(s: State, ip: Ip, code: Code, holder: Option<Sid>, now: real)
    ensures var r := CtrlReplyOf(s, ip, code, holder, now);
            var blocked := Limiter.IsBlocked(s.failed, ip, now);
            && (r == CtrlBlocked <==> blocked)
            && (r == CtrlBlank <==> !blocked && code == Blank)
            && (r == CtrlNoAgent <==> !blocked && code != Blank && !Found(s, holder))
            && (r == CtrlReady <==> !blocked && code != Blank && Found(s, holder))
  {
    hide Limiter.IsBlocked;
  }

  /** The browser neither has a controller nor is under remote control. */
  predicate Unattended(s: State, b: Sid) {
    b !in s.desk.browserCtrl && b !in s.desk.active
  }

  /** The browser's agent holds this code. */
  predicate AsksFor(s: State, b: Sid, code: Code) {
    && b in s.pairing.browserAgent && s.pairing.browserAgent[b] in s.pairing.agentTokens
    && s.pairing.agentTokens[s.pairing.browserAgent[b]] == code
  }

  /** The answer to `remote_control_request`. */
  lemma RequestAnswers(s: State, b: Sid, pick: Option<Sid>)
    ensures var r := RequestOf(s, b, pick).1;
            && (r == C.AlreadyAsked <==> !Unattended(s, b))
            && (r == C.NoAgent <==> Unattended(s, b) && b !in s.pairing.browserAgent)
            && (r == C.NoCode <==>
                  Unattended(s, b) && b in s.pairing.browserAgent && forall code :: !AsksFor(s, b, code))
            && (r == C.NoController <==> Unattended(s, b) && (exists code :: AsksFor(s, b, code)) && pick.None?)
            && (forall c :: r == C.Asked(c) <==>
                  Unattended(s, b) && (exists code :: AsksFor(s, b, code)) && pick == Some(c))
  {
    if CodeOf(s, b).Some? {
      assert AsksFor(s, b, CodeOf(s, b).value);
    }
  }
}
