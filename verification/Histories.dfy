/** In every run the tables and the token file agree with the hellos that let the agents in. */
module Histories {
  import opened Basics
  import opened Tokens
  import opened Relay
  import opened World
  import opened Answers
  import opened Ledger
  import opened Seating
  import opened Helpdesk
  import opened Sessions
  import opened Changes
  import opened Effects
  import Limiter
  import P = Pairing
  import C = Control

  /**
   An accepted hello: the answer names the minutes of the record, the lock
   expires that long after the hello, and the timer put to sleep is due at
   that very moment.
   */
  lemma HelloStartsSession(w: World, e: Event)
    requires e.AgentHello? && HelloPasses(w.server, e.ip, e.code, w.now, w.today)
    ensures var s, s' := w.server, ServerStep(w, e);
            && e.code in s'.tokens
            && var t := s'.tokens[e.code];
               && HelloReplyOf(s, e.ip, e.code, w.now, w.today) == Accepted(t.maxMinutes)
               && t.inUse && t.firstUsedAt == Some(w.now)
               && t.expiresAt == Some(w.now + 60.0 * t.maxMinutes as real)
               && s'.timers == s.timers + multiset{Timer(e.sid, e.code, t.expiresAt.value)}
               && s'.stops == s.stops
  {
    HelloAnswers(w.server, e.ip, e.code, w.now, w.today);
    TaskLaws(w, e);
    RecordLaws(w, e, e.code);
    hide ServerStep, HelloReplyOf, CountsAsFailure, HelloFails, Strikes, Unlocks, Charges;
  }

  // ------------------------------------------------------------------
  // Lengths

  /** The codes on file and the length of their sessions. */
  ghost predicate LengthsAre(tokens: TokenFile, lengths: map<Code, int>) {
    && tokens.Keys == lengths.Keys
    && forall c :: c in tokens ==> tokens[c].maxMinutes == lengths[c]
  }

  lemma LengthStays(w: World, e: Event, code: Code)
    requires code in w.server.tokens
    ensures RecordAfter(w, e, code).maxMinutes == w.server.tokens[code].maxMinutes
  {
    hide Takes, Strikes, Unlocks, Charges;
  }

  lemma StepKeepsLengthsAre(w: World, e: Event, lengths: map<Code, int>)
    requires LengthsAre(w.server.tokens, lengths)
    ensures LengthsAre(ServerStep(w, e).tokens, lengths)
  {
    var tokens := ServerStep(w, e).tokens;
    hide ServerStep, RecordAfter;
    forall c
      ensures c in tokens <==> c in lengths
      ensures c in tokens ==> tokens[c].maxMinutes == lengths[c]
    {
      RecordLaws(w, e, c);
      if c in w.server.tokens { LengthStays(w, e, c); }
    }
  }

  /** Every session is due to end its length after its hello. */
  ghost predicate Timed(ends: map<Sid, real>, session: map<Sid, Session>, lengths: map<Code, int>) {
    && ends.Keys == session.Keys
    && forall a :: a in session && a in ends ==>
         && session[a].code in lengths
         && ends[a] == session[a].begun + 60.0 * lengths[session[a].code] as real
  }

  ghost predicate SessionsTimed(w: World, lengths: map<Code, int>) {
    LengthsAre(w.server.tokens, lengths) && Timed(w.sessionEnd, w.session, lengths)
  }

  lemma TimedOneMore(ends: map<Sid, real>, session: map<Sid, Session>, lengths: map<Code, int>, a: Sid, v: Session)
    requires Timed(ends, session, lengths) && v.code in lengths
    ensures Timed(ends[a := v.begun + 60.0 * lengths[v.code] as real], session[a := v], lengths)
  {
  }

  lemma HistoryTimed(w: World, e: Event, lengths: map<Code, int>)
    requires SessionsTimed(w, lengths)
    ensures Timed(EndsAfter(w, e), SessionAfter(w, e), lengths)
  {
    if e.AgentHello? && HelloPasses(w.server, e.ip, e.code, w.now, w.today) {
      TimedOneMore(w.sessionEnd, w.session, lengths, e.sid, Session(w.now, e.code, e.multi));
    }
    hide Limiter.IsBlocked, HeldLive, Timed;
  }

  lemma StepKeepsTimed(w: World, e: Event, lengths: map<Code, int>)
    requires SessionsTimed(w, lengths)
    ensures SessionsTimed(Step(w, e), lengths)
  {
    StepKeepsLengthsAre(w, e, lengths);
    HistoryTimed(w, e, lengths);
    hide ServerStep, RolesAfter, HelloedAfter, EndsAfter, OpenerAfter, SpentAfter, LastFailAfter, FailsAfter,
         SessionAfter, LengthsAre, Timed;
  }

  lemma {:induction false} RunKeepsTimed(w: World, es: seq<Event>, lengths: map<Code, int>)
    requires SessionsTimed(w, lengths)
    ensures SessionsTimed(Run(w, es), lengths)
    decreases |es|
  {
    hide Step, SessionsTimed;
    if es != [] {
      StepKeepsTimed(w, es[0], lengths);
      RunKeepsTimed(Step(w, es[0]), es[1..], lengths);
    }
  }

  function LengthsOf(tokens: TokenFile): map<Code, int> {
    map c | c in tokens :: tokens[c].maxMinutes
  }

  lemma StartIsTimed(tokens: TokenFile, now: real, today: int)
    ensures SessionsTimed(Start(tokens, now, today), LengthsOf(tokens))
  {
  }

  // ------------------------------------------------------------------
  // Codes and flags

  /** Every connected agent holds the code, and has the flag, of its hello. */
  ghost predicate EntriesTrue(w: World) {
    forall a :: a in w.server.pairing.agents ==>
      && a in w.session
      && AgentEntry(w.server.pairing, a) == Some((w.session[a].code, w.session[a].multi))
  }

  lemma AgentsHaveEntries(p: P.Tables, a: Sid)
    requires P.Wired(p)
    ensures a in p.agents <==> AgentEntry(p, a).Some?
  {
  }

  lemma EntryAfter(w: World, e: Event, rules: Rules, a: Sid)
    requires Enabled(w, e, rules) && rules.oneHello && Settled(w) && EntriesTrue(w)
    requires P.Wired(ServerStep(w, e).pairing) && a in ServerStep(w, e).pairing.agents
    ensures a in SessionAfter(w, e)
    ensures AgentEntry(ServerStep(w, e).pairing, a)
         == Some((SessionAfter(w, e)[a].code, SessionAfter(w, e)[a].multi))
  {
    EntryLaw(w, e, rules, a);
    AgentsHaveEntries(ServerStep(w, e).pairing, a);
    SettledIsWired(w);
    AgentsHaveEntries(w.server.pairing, a);
    EntryOf(w, e, a);
    hide ServerStep, Enabled, Settled, P.Wired, AgentEntry, CauseOf, Enters, SessionAfter;
  }

  lemma EntryLaw(w: World, e: Event, rules: Rules, a: Sid)
    requires Enabled(w, e, rules) && rules.oneHello && Settled(w)
    ensures var cause := CauseOf(w, e, a, a, Blank);
            AgentEntry(ServerStep(w, e).pairing, a)
            == if cause.entry.Some? then cause.entry else if cause.leaves then None else AgentEntry(w.server.pairing, a)
  {
    PairingLaws(w, e, rules, a, a, Blank);
    hide ServerStep, Enabled, Settled, P.Of, AgentEntry, Lookup, CauseOf;
  }

  lemma EntryOf(w: World, e: Event, a: Sid)
    ensures var cause, session := CauseOf(w, e, a, a, Blank), SessionAfter(w, e);
            if Enters(w, e, a) then
              cause.entry == Some((e.code, e.multi)) && a in session && session[a] == Session(w.now, e.code, e.multi)
            else
              cause.entry == None && (a in w.session ==> a in session && session[a] == w.session[a])
  {
    hide HelloPasses, Given, Queues, Gone;
  }

  lemma SettledIsWired(w: World)
    requires Settled(w)
    ensures P.Wired(w.server.pairing)
  {
  }

  lemma StepKeepsEntries(w: World, e: Event, rules: Rules)
    requires Enabled(w, e, rules) && rules.oneHello && Settled(w) && EntriesTrue(w)
    ensures EntriesTrue(Step(w, e))
  {
    StepIsWired(w, e, rules);
    forall a | a in ServerStep(w, e).pairing.agents
      ensures a in SessionAfter(w, e)
      ensures AgentEntry(ServerStep(w, e).pairing, a)
           == Some((SessionAfter(w, e)[a].code, SessionAfter(w, e)[a].multi))
    {
      EntryAfter(w, e, rules, a);
    }
    hide ServerStep, Enabled, Settled, AgentEntry, SessionAfter, P.Wired,
         RolesAfter, HelloedAfter, EndsAfter, OpenerAfter, SpentAfter, LastFailAfter, FailsAfter;
  }

  lemma StepIsWired(w: World, e: Event, rules: Rules)
    requires Enabled(w, e, rules) && rules.oneHello && Settled(w)
    ensures P.Wired(ServerStep(w, e).pairing)
  {
    StepKeepsPairing(w, e, rules.(patient := false));
    hide ServerStep, P.Wired, Seated, C.Matched, C.ActivatedByOwn, P.Lists, P.Holder, P.WaitsElsewhere, C.Pick;
  }
}
