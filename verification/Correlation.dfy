/**
 Commands and replies end to end: any number of pages and agents, messages
 delivered late, out of order, several times or never, routing that changes at
 every step, and pages that come back under a new session id.
 */
module Correlation {
  import opened Basics
  import opened Page

  // ------------------------------------------------------------------
  // Server and agent

  datatype Routed = Refuse(reply: Reply) | Forward(agent: Sid, command: Command)

  /** `on_command`: refused without a live agent or by the shell filter, else handed on with the sender's id. */
  function OnCommand(pairing: map<Sid, Sid>, agents: set<Sid>, blocked: Option<string>, from: Sid, q: Request): Routed {
    var command := Command(q.id, q.body, from);
    if from !in pairing || pairing[from] !in agents then Refuse(Reply(q.id, Refused("no agent"), command))
    else if blocked.Some? then Refuse(Reply(q.id, Refused(blocked.value), command))
    else Forward(pairing[from], command)
  }

  /** A result as the agent emits it. */
  datatype CmdResult = CmdResult(id: string, browser: Option<Sid>, text: string, about: Command)

  /** What a branch of `handleCommand` leaves: a helper's whole record, or some fields of an empty one. */
  datatype Branch = Helper(result: CmdResult) | Fields(text: string)

  /** `handleCommand`: a command that does not parse gets no reply; otherwise id and sender are those of the command. */
  method HandleCommand(parsed: Option<Command>, branch: Branch) returns (emitted: Option<CmdResult>)
    ensures parsed.None? ==> emitted.None?
    ensures parsed.Some? ==> emitted == Some(ResultOf(parsed.value, branch))
  {
    if parsed.None? {
      return None;
    }
    var cmd := parsed.value;
    var result := CmdResult(cmd.id, Some(cmd.browser), "", cmd);
    match branch {
      case Helper(r) => result := r;
      case Fields(text) => result := result.(text := text);
    }
    result := result.(id := cmd.id, browser := Some(cmd.browser), about := cmd);
    return Some(result);
  }

  function ResultOf(c: Command, branch: Branch): CmdResult {
    CmdResult(c.id, Some(c.browser), if branch.Helper? then branch.result.text else branch.text, c)
  }

  /** `on_result`: a result without a sender's id goes nowhere. */
  function OnResult(r: CmdResult): Option<(Sid, Reply)> {
    if r.browser.None? then None
    else Some((r.browser.value, Reply(r.id, Answer(r.text), r.about)))
  }

  // ------------------------------------------------------------------
  // The whole

  /**
   Pages by number, the page behind every session id there ever was, everything
   ever put on a wire, and, as history, what agents found to say to commands.
   */
  datatype Net = Net(
    tabs: map<nat, Tab>,
    owner: map<Sid, nat>,
    requests: set<(Sid, Request)>,
    commands: set<(Sid, Command)>,
    results: set<CmdResult>,
    replies: set<(Sid, Reply)>,
    said: set<(Command, string)>)

  /** What the branch of `handleCommand` has to say. */
  function TextOf(branch: Branch): string {
    match branch
    case Helper(r) => r.text
    case Fields(text) => text
  }

  datatype Event =
    | Opens(page: nat)
    | Connects(page: nat, sid: Sid)
    | Sends(page: nat, sid: Sid, tag: string, body: string)
    | Routes(pairing: map<Sid, Sid>, agents: set<Sid>, blocked: Option<string>, from: Sid, request: Request)
    | Handles(agent: Sid, command: Command, branch: Branch)
    | Returns(result: CmdResult)
    | Receives(page: nat, sid: Sid, reply: Reply)
    | Expires(page: nat, id: string)

  /** Messages come from somewhere, session ids are new, and a page uses its own. */
  predicate Possible(w: Net, e: Event) {
    match e
    case Opens(page) => page !in w.tabs
    case Connects(page, sid) => page in w.tabs && sid !in w.owner
    case Sends(page, sid, _, _) => page in w.tabs && sid in w.owner && w.owner[sid] == page
    case Routes(_, _, _, from, q) => (from, q) in w.requests
    case Handles(agent, c, _) => (agent, c) in w.commands
    case Returns(r) => r in w.results
    case Receives(page, sid, r) => page in w.tabs && sid in w.owner && w.owner[sid] == page && (sid, r) in w.replies
    case Expires(page, _) => page in w.tabs
  }

  function Step(w: Net, e: Event): Net
    requires Possible(w, e)
  {
    match e
    case Opens(page) => w.(tabs := w.tabs[page := FRESH])
    case Connects(page, sid) => w.(owner := w.owner[sid := page])
    case Sends(page, sid, tag, body) =>
      var t := Send(w.tabs[page], tag, body);
      w.(tabs := w.tabs[page := t], requests := w.requests + {(sid, Request(IdOf(tag, t.seqNo), body))})
    case Routes(pairing, agents, blocked, from, q) =>
      (match OnCommand(pairing, agents, blocked, from, q)
       case Refuse(r) => w.(replies := w.replies + {(from, r)})
       case Forward(agent, c) => w.(commands := w.commands + {(agent, c)}))
    case Handles(agent, c, branch) =>
      w.(results := w.results + {ResultOf(c, branch)}, said := w.said + {(c, TextOf(branch))})
    case Returns(r) =>
      (match OnResult(r)
       case None => w
       case Some(m) => w.(replies := w.replies + {m}))
    case Receives(page, sid, r) => w.(tabs := w.tabs[page := GotReply(w.tabs[page], r)])
    case Expires(page, id) => w.(tabs := w.tabs[page := Timer(w.tabs[page], id)])
  }

  const START := Net(map[], map[], {}, {}, {}, {}, {})

  predicate IsRun(w: Net, events: seq<Event>)
    decreases |events|
  {
    events == [] || (Possible(w, events[0]) && IsRun(Step(w, events[0]), events[1..]))
  }

  function After(w: Net, events: seq<Event>): Net
    requires IsRun(w, events)
    decreases |events|
  {
    if events == [] then w else After(Step(w, events[0]), events[1..])
  }

  // ------------------------------------------------------------------
  // What every step keeps

  /** The page behind this session id sent this command. */
  predicate WasSent(w: Net, from: Sid, id: string, body: string) {
    from in w.owner && w.owner[from] in w.tabs && Request(id, body) in w.tabs[w.owner[from]].sent
  }

  predicate CommandOk(w: Net, c: Command) { WasSent(w, c.browser, c.id, c.body) }

  predicate ResultOk(w: Net, r: CmdResult) {
    r.id == r.about.id && r.browser == Some(r.about.browser) && CommandOk(w, r.about)
  }

  predicate ReplyOk(w: Net, to: Sid, r: Reply) {
    r.id == r.about.id && to == r.about.browser && CommandOk(w, r.about)
  }

  predicate TrueMessages(w: Net) {
    && (forall m | m in w.requests :: WasSent(w, m.0, m.1.id, m.1.body))
    && (forall m | m in w.commands :: CommandOk(w, m.1))
    && (forall r | r in w.results :: ResultOk(w, r))
    && (forall m | m in w.replies :: ReplyOk(w, m.0, m.1))
  }

  /** The replies taken by a page were made for sessions of its own. */
  predicate Home(t: Tab, owner: map<Sid, nat>, page: nat) {
    forall i | 0 <= i < |t.calls| && t.calls[i].outcome.Replied? ::
      var s := t.calls[i].outcome.reply.about.browser;
      s in owner && owner[s] == page
  }

  predicate TabsOk(w: Net) {
    forall page | page in w.tabs ::
      TabOk(w.tabs[page]) && RightReplies(w.tabs[page]) && Home(w.tabs[page], w.owner, page)
  }

  predicate NetOk(w: Net) { TrueMessages(w) && TabsOk(w) }

  /** Pages only grow: nothing sent or owned is forgotten. */
  predicate Grows(w: Net, v: Net) {
    && (forall s | s in w.owner :: s in v.owner && v.owner[s] == w.owner[s])
    && (forall page | page in w.tabs :: page in v.tabs && w.tabs[page].sent <= v.tabs[page].sent)
  }

  lemma SentStays(w: Net, v: Net, from: Sid, id: string, body: string)
    requires Grows(w, v) && WasSent(w, from, id, body)
    ensures WasSent(v, from, id, body)
  {
    var page := w.owner[from];
    var q := Request(id, body);
    var i :| 0 <= i < |w.tabs[page].sent| && w.tabs[page].sent[i] == q;
    assert v.tabs[page].sent[i] == q;
  }

  lemma StepGrows(w: Net, e: Event)
    requires Possible(w, e)
    ensures Grows(w, Step(w, e))
  {
    hide IdOf;
  }

  lemma MessagesStayTrue(w: Net, v: Net)
    requires TrueMessages(w) && Grows(w, v)
    requires w.requests == v.requests && w.commands == v.commands && w.results == v.results && w.replies == v.replies
    ensures TrueMessages(v)
  {
    hide Grows, WasSent;
    forall m | m in w.requests
      ensures WasSent(v, m.0, m.1.id, m.1.body)
    {
      SentStays(w, v, m.0, m.1.id, m.1.body);
    }
    forall m | m in w.commands
      ensures CommandOk(v, m.1)
    {
      SentStays(w, v, m.1.browser, m.1.id, m.1.body);
    }
    forall r | r in w.results
      ensures ResultOk(v, r)
    {
      SentStays(w, v, r.about.browser, r.about.id, r.about.body);
    }
    forall m | m in w.replies
      ensures ReplyOk(v, m.0, m.1)
    {
      SentStays(w, v, m.1.about.browser, m.1.about.id, m.1.about.body);
    }
  }

  lemma StepKeepsMessages(w: Net, e: Event)
    requires TrueMessages(w) && Possible(w, e)
    ensures TrueMessages(Step(w, e))
  {
    hide TrueMessages, Step, Possible;
    match e
    case Sends(page, sid, tag, body) => SendingKeepsMessages(w, page, sid, tag, body);
    case Routes(_, _, _, _, _) => RoutingKeepsMessages(w, e);
    case Handles(_, _, _) => HandlingKeepsMessages(w, e);
    case Returns(_) => HandlingKeepsMessages(w, e);
    case _ => PagesKeepMessages(w, e);
  }

  lemma PagesKeepMessages(w: Net, e: Event)
    requires TrueMessages(w) && Possible(w, e)
    requires e.Opens? || e.Connects? || e.Receives? || e.Expires?
    ensures TrueMessages(Step(w, e))
  {
    hide TrueMessages, Grows, GotReply, Timer;
    StepGrows(w, e);
    MessagesStayTrue(w, Step(w, e));
  }

  lemma SendingKeepsMessages(w: Net, page: nat, sid: Sid, tag: string, body: string)
    requires TrueMessages(w) && Possible(w, Sends(page, sid, tag, body))
    ensures TrueMessages(Step(w, Sends(page, sid, tag, body)))
  {
    hide WasSent, Grows, IdOf, Send;
    var v := Step(w, Sends(page, sid, tag, body));
    StepGrows(w, Sends(page, sid, tag, body));
    var mid := v.(requests := w.requests);
    GrowsAlike(w, v, mid);
    MessagesStayTrue(w, mid);
    SendIsSent(w, page, sid, tag, body);
    SameSent(mid, v);
  }

  lemma RoutingKeepsMessages(w: Net, e: Event)
    requires TrueMessages(w) && Possible(w, e) && e.Routes?
    ensures TrueMessages(Step(w, e))
  {
    hide WasSent;
    SameSent(w, Step(w, e));
  }

  lemma HandlingKeepsMessages(w: Net, e: Event)
    requires TrueMessages(w) && Possible(w, e) && (e.Handles? || e.Returns?)
    ensures TrueMessages(Step(w, e))
  {
    hide WasSent;
    SameSent(w, Step(w, e));
  }

  lemma GrowsAlike(w: Net, v: Net, mid: Net)
    requires Grows(w, v) && mid.tabs == v.tabs && mid.owner == v.owner
    ensures Grows(w, mid)
  {
  }

  lemma SameSent(w: Net, v: Net)
    requires w.tabs == v.tabs && w.owner == v.owner
    ensures forall s, id, body :: WasSent(w, s, id, body) == WasSent(v, s, id, body)
  {
  }

  lemma SendIsSent(w: Net, page: nat, sid: Sid, tag: string, body: string)
    requires Possible(w, Sends(page, sid, tag, body))
    ensures WasSent(Step(w, Sends(page, sid, tag, body)), sid, IdOf(tag, w.tabs[page].seqNo + 1), body)
    ensures Send(w.tabs[page], tag, body).seqNo == w.tabs[page].seqNo + 1
  {
    hide IdOf;
    var t := Send(w.tabs[page], tag, body);
    var q := Request(IdOf(tag, t.seqNo), body);
    assert t.sent[|t.sent| - 1] == q;
  }

  lemma RepliesStayRight(t: Tab, tag: string, body: string)
    requires RightReplies(t)
    ensures RightReplies(Send(t, tag, body))
  {
    hide IdOf;
  }

  /** A true reply resolves the right promise. */
  lemma TrueReplyIsRight(t: Tab, r: Reply)
    requires TabOk(t) && RightReplies(t)
    requires r.id == r.about.id && Request(r.about.id, r.about.body) in t.sent
    ensures RightReplies(GotReply(t, r))
  {
    hide Number;
    var q := Request(r.about.id, r.about.body);
    var i :| 0 <= i < |t.sent| && t.sent[i] == q;
    if r.id in t.pending {
      var p := t.pending[r.id];
      assert Number(t.sent[p - 1].id) == p && Number(t.sent[i].id) == i + 1;
      assert t.sent[p - 1] == q;
    }
  }

  lemma HomeStays(t: Tab, u: Tab, owner: map<Sid, nat>, page: nat)
    requires Home(t, owner, page) && u.calls == t.calls
    ensures Home(u, owner, page)
  {
  }

  lemma HomeWithNewSid(t: Tab, owner: map<Sid, nat>, page: nat, sid: Sid, other: nat)
    requires Home(t, owner, page) && sid !in owner
    ensures Home(t, owner[sid := other], page)
  {
  }

  lemma HomeAfterSettling(t: Tab, id: string, outcome: Outcome, owner: map<Sid, nat>, page: nat)
    requires Home(t, owner, page)
    requires outcome.Replied? ==>
               outcome.reply.about.browser in owner && owner[outcome.reply.about.browser] == page
    ensures Home(Settle(t, id, outcome), owner, page)
  {
  }

  lemma StepKeepsTabs(w: Net, e: Event)
    requires NetOk(w) && Possible(w, e)
    ensures TabsOk(Step(w, e))
  {
    hide TabOk, RightReplies, Home, Send, Settle, IdOf, Number, WasSent;
    match e
    case Opens(page) => FreshOk(w.owner, page);
    case Connects(other, sid) =>
      forall page | page in w.tabs
        ensures Home(w.tabs[page], w.owner[sid := other], page)
      {
        HomeWithNewSid(w.tabs[page], w.owner, page, sid, other);
      }
    case Sends(page, _, tag, body) =>
      SendKeepsOk(w.tabs[page], tag, body);
      RepliesStayRight(w.tabs[page], tag, body);
      SendCallsNone(w.tabs[page], tag, body);
      HomeStays(w.tabs[page], Send(w.tabs[page], tag, body), w.owner, page);
    case Receives(page, sid, r) =>
      SettleKeepsOk(w.tabs[page], r.id, Replied(r));
      assert ReplyOk(w, sid, r);
      SentHere(w, sid, r.about.id, r.about.body);
      TrueReplyIsRight(w.tabs[page], r);
      HomeAfterSettling(w.tabs[page], r.id, Replied(r), w.owner, page);
    case Expires(page, id) =>
      SettleKeepsOk(w.tabs[page], id, TimedOut);
      TimerKeepsReplies(w.tabs[page], id);
      HomeAfterSettling(w.tabs[page], id, TimedOut, w.owner, page);
    case _ =>
  }

  lemma SendCallsNone(t: Tab, tag: string, body: string)
    ensures Send(t, tag, body).calls == t.calls
  {
  }

  lemma SentHere(w: Net, from: Sid, id: string, body: string)
    requires WasSent(w, from, id, body)
    ensures from in w.owner && w.owner[from] in w.tabs && Request(id, body) in w.tabs[w.owner[from]].sent
  {
  }

  lemma FreshOk(owner: map<Sid, nat>, page: nat)
    ensures TabOk(FRESH) && RightReplies(FRESH) && Home(FRESH, owner, page)
  {
  }

  lemma TimerKeepsReplies(t: Tab, id: string)
    requires RightReplies(t)
    ensures RightReplies(Timer(t, id))
  {
  }

  lemma {:induction false} RunKeepsOk(w: Net, events: seq<Event>)
    requires NetOk(w) && IsRun(w, events)
    ensures NetOk(After(w, events))
    decreases |events|
  {
    hide TrueMessages, TabsOk, Step, Possible;
    if events != [] {
      StepKeepsMessages(w, events[0]);
      StepKeepsTabs(w, events[0]);
      RunKeepsOk(Step(w, events[0]), events[1..]);
    }
  }

  // ------------------------------------------------------------------
  // What replies say

  /** An answer says what some agent found to say to the command. */
  predicate SaidSo(r: Reply, said: set<(Command, string)>) {
    r.content.Answer? ==> (r.about, r.content.text) in said
  }

  /** The answers that a page has taken. */
  predicate Heard(t: Tab, said: set<(Command, string)>) {
    forall i | 0 <= i < |t.calls| && t.calls[i].outcome.Replied? :: SaidSo(t.calls[i].outcome.reply, said)
  }

  predicate AllSaid(w: Net) {
    && (forall r | r in w.results :: (r.about, r.text) in w.said)
    && (forall m | m in w.replies :: SaidSo(m.1, w.said))
    && (forall page | page in w.tabs :: Heard(w.tabs[page], w.said))
  }

  lemma HeardMore(t: Tab, said: set<(Command, string)>, more: set<(Command, string)>)
    requires Heard(t, said) && said <= more
    ensures Heard(t, more)
  {
  }

  lemma HeardAfterSettling(t: Tab, id: string, outcome: Outcome, said: set<(Command, string)>)
    requires Heard(t, said) && (outcome.Replied? ==> SaidSo(outcome.reply, said))
    ensures Heard(Settle(t, id, outcome), said)
  {
    hide SaidSo;
  }

  lemma StepKeepsSaid(w: Net, e: Event)
    requires AllSaid(w) && Possible(w, e)
    ensures AllSaid(Step(w, e))
  {
    hide Heard, Settle, Send, IdOf;
    match e
    case Sends(page, _, tag, body) =>
      SendCallsNone(w.tabs[page], tag, body);
      HeardSame(w.tabs[page], Send(w.tabs[page], tag, body), w.said);
    case Opens(_) => HeardNothing(w.said);
    case Handles(_, c, branch) =>
      forall page | page in w.tabs
        ensures Heard(w.tabs[page], Step(w, e).said)
      {
        HeardMore(w.tabs[page], w.said, Step(w, e).said);
      }
    case Receives(page, sid, r) => HeardAfterSettling(w.tabs[page], r.id, Replied(r), w.said);
    case Expires(page, id) => HeardAfterSettling(w.tabs[page], id, TimedOut, w.said);
    case _ =>
  }

  lemma HeardSame(t: Tab, u: Tab, said: set<(Command, string)>)
    requires Heard(t, said) && u.calls == t.calls
    ensures Heard(u, said)
  {
  }

  lemma HeardNothing(said: set<(Command, string)>)
    ensures Heard(FRESH, said)
  {
  }

  lemma {:induction false} RunKeepsSaid(w: Net, events: seq<Event>)
    requires AllSaid(w) && IsRun(w, events)
    ensures AllSaid(After(w, events))
    decreases |events|
  {
    hide AllSaid, Step, Possible;
    if events != [] {
      StepKeepsSaid(w, events[0]);
      RunKeepsSaid(Step(w, events[0]), events[1..]);
    }
  }

  /** On every run, an answer that a page has taken is what some agent found to say to that very command. */
  lemma AnswersAreWhatWasSaid(events: seq<Event>, page: nat, i: nat)
    requires IsRun(START, events) && page in After(START, events).tabs
    requires i < |After(START, events).tabs[page].calls|
    requires After(START, events).tabs[page].calls[i].outcome.Replied?
    ensures var w := After(START, events);
            var r := w.tabs[page].calls[i].outcome.reply;
            r.content.Answer? ==> (r.about, r.content.text) in w.said
  {
    hide IsRun, After;
    RunKeepsSaid(START, events);
    assert Heard(After(START, events).tabs[page], After(START, events).said);
  }

  // ------------------------------------------------------------------
  // The shell filter

  /** The verdicts of the run are those of one filter. */
  predicate FilteredBy(events: seq<Event>, filter: string -> Option<string>) {
    forall i | 0 <= i < |events| && events[i].Routes? :: events[i].blocked == filter(events[i].request.body)
  }

  /** What agents get passes the filter, and a refusal names its objection or the missing agent. */
  predicate Filtered(w: Net, filter: string -> Option<string>) {
    && (forall m | m in w.commands :: filter(m.1.body) == None)
    && (forall m | m in w.replies && m.1.content.Refused? ::
          filter(m.1.about.body) == Some(m.1.content.error) || m.1.content.error == "no agent")
  }

  lemma StepKeepsFiltered(w: Net, e: Event, filter: string -> Option<string>)
    requires Filtered(w, filter) && Possible(w, e) && FilteredBy([e], filter)
    ensures Filtered(Step(w, e), filter)
  {
    assert [e][0] == e;
    hide Send, Settle, IdOf;
  }

  lemma {:induction false} RunKeepsFiltered(w: Net, events: seq<Event>, filter: string -> Option<string>)
    requires Filtered(w, filter) && IsRun(w, events) && FilteredBy(events, filter)
    ensures Filtered(After(w, events), filter)
    decreases |events|
  {
    hide Filtered, Step, Possible;
    if events != [] {
      StepKeepsFiltered(w, events[0], filter);
      RunKeepsFiltered(Step(w, events[0]), events[1..], filter);
    }
  }

  /** On every run no agent is handed a command to which the filter objects. */
  lemma ObjectedNeverReachesAgents(events: seq<Event>, filter: string -> Option<string>, agent: Sid, c: Command)
    requires IsRun(START, events) && FilteredBy(events, filter)
    requires (agent, c) in After(START, events).commands
    ensures filter(c.body) == None
  {
    hide IsRun, After, FilteredBy;
    RunKeepsFiltered(START, events, filter);
  }

  /** On every run, a refusal names what the filter objects to in that command, or that there is no agent. */
  lemma RefusalsNameTheReason(events: seq<Event>, filter: string -> Option<string>, sid: Sid, r: Reply)
    requires IsRun(START, events) && FilteredBy(events, filter)
    requires (sid, r) in After(START, events).replies && r.content.Refused?
    ensures filter(r.about.body) == Some(r.content.error) || r.content.error == "no agent"
  {
    hide IsRun, After, FilteredBy;
    RunKeepsFiltered(START, events, filter);
    assert (sid, r).1 == r;
  }

  /**
   On every run, of any number of pages and agents: each promise is resolved
   at most once and none is lost; one that was resolved by a result was
   resolved by the reply to exactly the command its page sent under its id,
   made for a session of that page.
   */
  lemma RepliesFindTheirCommands(events: seq<Event>, page: nat)
    requires IsRun(START, events) && page in After(START, events).tabs
    ensures var w := After(START, events);
            TabOk(w.tabs[page]) && RightReplies(w.tabs[page]) && Home(w.tabs[page], w.owner, page)
  {
    hide IsRun, After, TabOk, RightReplies, Home, TrueMessages;
    StartOk();
    RunKeepsOk(START, events);
  }

  lemma StartOk()
    ensures NetOk(START)
  {
  }

  /** A reply can reach no page but the one that sent the command it answers. */
  lemma RepliesComeHome(events: seq<Event>, sid: Sid, r: Reply)
    requires IsRun(START, events) && (sid, r) in After(START, events).replies
    ensures var w := After(START, events);
            && sid in w.owner && w.owner[sid] in w.tabs
            && sid == r.about.browser && r.id == r.about.id
            && Request(r.about.id, r.about.body) in w.tabs[w.owner[sid]].sent
  {
    hide IsRun, After, TabsOk;
    StartOk();
    RunKeepsOk(START, events);
    assert ReplyOk(After(START, events), sid, r);
  }

  // ------------------------------------------------------------------
  // Nothing stands in the way of an answer

  lemma Prepend(w: Net, e: Event, events: seq<Event>)
    requires Possible(w, e) && IsRun(Step(w, e), events)
    ensures IsRun(w, [e] + events) && After(w, [e] + events) == After(Step(w, e), events)
  {
    assert ([e] + events)[1..] == events;
    hide Possible, Step;
  }

  lemma Alone(w: Net, e: Event)
    requires Possible(w, e)
    ensures IsRun(w, [e]) && After(w, [e]) == Step(w, e)
  {
    assert [e][1..] == [];
    hide Possible, Step;
  }

  /** The page has just sent its n-th command and waits for the reply. */
  predicate JustSent(w: Net, v: Net, page: nat, sid: Sid, c: Command) {
    && page in w.tabs && page in v.tabs && sid in v.owner && v.owner[sid] == page
    && v.tabs[page].calls == w.tabs[page].calls
    && c.id in v.tabs[page].pending && v.tabs[page].pending[c.id] == w.tabs[page].seqNo + 1
    && c.id != "" && c.browser == sid
  }

  /** The command that the page sends next under this session id. */
  function NextCommand(w: Net, page: nat, sid: Sid, tag: string, body: string): Command
    requires page in w.tabs
  {
    Command(IdOf(tag, w.tabs[page].seqNo + 1), body, sid)
  }

  lemma SendsFirst(w: Net, page: nat, sid: Sid, tag: string, body: string)
    requires Possible(w, Sends(page, sid, tag, body))
    ensures var c := NextCommand(w, page, sid, tag, body);
            var v := Step(w, Sends(page, sid, tag, body));
            JustSent(w, v, page, sid, c) && (sid, Request(c.id, body)) in v.requests
  {
    IdTellsNumber(tag, w.tabs[page].seqNo + 1);
    hide IdOf, Number;
  }

  /** The last step: the reply arrives and resolves the promise. */
  lemma ReplyArrives(w: Net, v: Net, page: nat, sid: Sid, c: Command, content: Content)
    requires JustSent(w, v, page, sid, c) && (sid, Reply(c.id, content, c)) in v.replies
    ensures var e := Receives(page, sid, Reply(c.id, content, c));
            && Possible(v, e)
            && Step(v, e).tabs[page].calls
               == w.tabs[page].calls + [Call(w.tabs[page].seqNo + 1, Replied(Reply(c.id, content, c)))]
  {
  }

  function Answering(page: nat, pairing: map<Sid, Sid>, agents: set<Sid>, c: Command, branch: Branch): seq<Event>
    requires c.browser in pairing
  {
    [Routes(pairing, agents, None, c.browser, Request(c.id, c.body))]
    + ([Handles(pairing[c.browser], c, branch)]
    + ([Returns(CmdResult(c.id, Some(c.browser), TextOf(branch), c))]
    + [Receives(page, c.browser, Reply(c.id, Answer(TextOf(branch)), c))]))
  }

  lemma AnsweredAfterSending(w: Net, v: Net, page: nat, sid: Sid, c: Command, pairing: map<Sid, Sid>,
          agents: set<Sid>, branch: Branch)
    requires JustSent(w, v, page, sid, c) && (sid, Request(c.id, c.body)) in v.requests
    requires sid in pairing && pairing[sid] in agents
    ensures var es := Answering(page, pairing, agents, c, branch);
            && IsRun(v, es) && page in After(v, es).tabs
            && After(v, es).tabs[page].calls
               == w.tabs[page].calls
                  + [Call(w.tabs[page].seqNo + 1, Replied(Reply(c.id, Answer(TextOf(branch)), c)))]
  {
    var text := TextOf(branch);
    var e1 := Routes(pairing, agents, None, sid, Request(c.id, c.body));
    var e2 := Handles(pairing[sid], c, branch);
    var e3 := Returns(CmdResult(c.id, Some(sid), text, c));
    var e4 := Receives(page, sid, Reply(c.id, Answer(text), c));
    var v1 := Step(v, e1);
    assert (pairing[sid], c) in v1.commands;
    var v2 := Step(v1, e2);
    assert CmdResult(c.id, Some(sid), text, c) in v2.results;
    var v3 := Step(v2, e3);
    assert JustSent(w, v3, page, sid, c) && (sid, Reply(c.id, Answer(text), c)) in v3.replies;
    hide Step, Possible, JustSent, TextOf;
    ReplyArrives(w, v3, page, sid, c, Answer(text));
    Alone(v3, e4);
    Prepend(v2, e3, [e4]);
    Prepend(v1, e2, [e3] + [e4]);
    Prepend(v, e1, [e2] + ([e3] + [e4]));
  }

  /**
   A command that is sent, routed while its page is paired with a connected
   agent and not objected to, handled, returned and received resolves its
   promise with what the agent said.
   */
  lemma CommandsAreAnswered(w: Net, page: nat, sid: Sid, tag: string, body: string, pairing: map<Sid, Sid>,
          agents: set<Sid>, branch: Branch)
    requires Possible(w, Sends(page, sid, tag, body)) && sid in pairing && pairing[sid] in agents
    ensures var c := NextCommand(w, page, sid, tag, body);
            var es := [Sends(page, sid, tag, body)] + Answering(page, pairing, agents, c, branch);
            && IsRun(w, es) && page in After(w, es).tabs
            && After(w, es).tabs[page].calls
               == w.tabs[page].calls
                  + [Call(w.tabs[page].seqNo + 1, Replied(Reply(c.id, Answer(TextOf(branch)), c)))]
  {
    var e := Sends(page, sid, tag, body);
    var c := NextCommand(w, page, sid, tag, body);
    SendsFirst(w, page, sid, tag, body);
    AnsweredAfterSending(w, Step(w, e), page, sid, c, pairing, agents, branch);
    Prepend(w, e, Answering(page, pairing, agents, c, branch));
    hide Step, Possible, JustSent, TextOf, IsRun, After, Answering;
  }

  /** One that the filter objects to is answered with the objection. */
  lemma ObjectionsAreAnswered(w: Net, page: nat, sid: Sid, tag: string, body: string, pairing: map<Sid, Sid>,
          agents: set<Sid>, objection: string)
    requires Possible(w, Sends(page, sid, tag, body)) && sid in pairing && pairing[sid] in agents
    ensures var c := NextCommand(w, page, sid, tag, body);
            var r := Reply(c.id, Refused(objection), c);
            var routed := Routes(pairing, agents, Some(objection), sid, Request(c.id, body));
            var es := [Sends(page, sid, tag, body)] + ([routed] + [Receives(page, sid, r)]);
            && IsRun(w, es) && page in After(w, es).tabs
            && After(w, es).tabs[page].calls == w.tabs[page].calls + [Call(w.tabs[page].seqNo + 1, Replied(r))]
  {
    var e := Sends(page, sid, tag, body);
    var c := NextCommand(w, page, sid, tag, body);
    SendsFirst(w, page, sid, tag, body);
    var v := Step(w, e);
    var e1 := Routes(pairing, agents, Some(objection), sid, Request(c.id, body));
    var v1 := Step(v, e1);
    assert JustSent(w, v1, page, sid, c) && (sid, Reply(c.id, Refused(objection), c)) in v1.replies;
    hide Step, Possible, JustSent, IsRun, After;
    ReplyArrives(w, v1, page, sid, c, Refused(objection));
    var e2 := Receives(page, sid, Reply(c.id, Refused(objection), c));
    Alone(v1, e2);
    Prepend(v, e1, [e2]);
    Prepend(w, e, [e1] + [e2]);
  }

  /** One whose minute passes before a reply comes is timed out. */
  lemma SilenceTimesOut(w: Net, page: nat, sid: Sid, tag: string, body: string)
    requires Possible(w, Sends(page, sid, tag, body))
    ensures var c := NextCommand(w, page, sid, tag, body);
            var es := [Sends(page, sid, tag, body)] + [Expires(page, c.id)];
            && IsRun(w, es) && page in After(w, es).tabs
            && After(w, es).tabs[page].calls == w.tabs[page].calls + [Call(w.tabs[page].seqNo + 1, TimedOut)]
            && c.id !in After(w, es).tabs[page].pending
  {
    var e := Sends(page, sid, tag, body);
    var c := NextCommand(w, page, sid, tag, body);
    SendsFirst(w, page, sid, tag, body);
    var v := Step(w, e);
    assert Possible(v, Expires(page, c.id));
    Alone(v, Expires(page, c.id));
    Prepend(w, e, [Expires(page, c.id)]);
    hide IsRun, After, IdOf;
  }
}
