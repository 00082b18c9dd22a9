/**
 The browser end of request correlation: numbered commands, the table of
 pending promises, the `result` handler and the one-minute timer.
 */
module Page {
  import opened Basics

  // ------------------------------------------------------------------
  // Command ids

  function Decimal(n: nat): string {
    var digit := [((n % 10) + 48) as char];
    if n < 10 then digit else Decimal(n / 10) + digit
  }

  /** The id of the n-th command. */
  function IdOf(tag: string, n: nat): string {
    (if tag == "" then "cmd" else tag) + "-" + Decimal(n)
  }

  predicate IsDigit(c: char) { '0' <= c <= '9' }

  /** The number at the end of an id: the value of its last digits. */
  function Number(id: string): nat {
    if id == "" || !IsDigit(id[|id| - 1]) then 0
    else 10 * Number(id[..|id| - 1]) + ((id[|id| - 1] as int) - 48)
  }

  lemma {:induction false} NumberOfDecimal(front: string, n: nat)
    requires front != "" && !IsDigit(front[|front| - 1])
    ensures Number(front + Decimal(n)) == n
    decreases n
  {
    var id := front + Decimal(n);
    var digit := ((n % 10) + 48) as char;
    if n < 10 {
      assert id[..|id| - 1] == front;
      assert Number(front) == 0;
    } else {
      assert id == (front + Decimal(n / 10)) + [digit];
      assert id[..|id| - 1] == front + Decimal(n / 10);
      NumberOfDecimal(front, n / 10);
    }
  }

  /** An id tells its number, so different commands of a page have different ids whatever their tags. */
  lemma IdTellsNumber(tag: string, n: nat)
    ensures Number(IdOf(tag, n)) == n && IdOf(tag, n) != ""
    ensures (if tag == "" then "cmd-" else tag + "-") <= IdOf(tag, n)
  {
    hide Number, Decimal;
    var name := if tag == "" then "cmd" else tag;
    NumberOfDecimal(name + "-", n);
  }

  // ------------------------------------------------------------------
  // The page

  /** A command as it leaves the page. */
  datatype Request = Request(id: string, body: string)

  /** A command as the server hands it on. */
  datatype Command = Command(id: string, body: string, browser: Sid)

  datatype Content = Refused(error: string) | Answer(text: string)

  /** A reply as the page sees it. `about` marks the command it was made for; no step reads it. */
  datatype Reply = Reply(id: string, content: Content, about: Command)

  datatype Outcome = Replied(reply: Reply) | TimedOut

  /** The call of the resolve function of a promise. */
  datatype Call = Call(promise: nat, outcome: Outcome)

  /** `_pending`, `_cmdSeq`, and what has been emitted and resolved so far. */
  datatype Tab = Tab(pending: map<string, nat>, seqNo: nat, sent: seq<Request>, calls: seq<Call>)

  const FRESH := Tab(map[], 0, [], [])

  function Send(t: Tab, tag: string, body: string): Tab {
    var n := t.seqNo + 1;
    var id := IdOf(tag, n);
    Tab(t.pending[id := n], n, t.sent + [Request(id, body)], t.calls)
  }

  function Settle(t: Tab, id: string, outcome: Outcome): Tab {
    if id in t.pending then
      t.(pending := t.pending - {id}, calls := t.calls + [Call(t.pending[id], outcome)])
    else t
  }

  function GotReply(t: Tab, r: Reply): Tab {
    if r.id != "" then Settle(t, r.id, Replied(r)) else t
  }

  function Timer(t: Tab, id: string): Tab {
    Settle(t, id, TimedOut)
  }

  /** Promise n has been resolved. */
  predicate Resolved(t: Tab, n: nat) {
    exists i | 0 <= i < |t.calls| :: t.calls[i].promise == n
  }

  predicate Numbered(t: Tab) {
    |t.sent| == t.seqNo && forall n | 0 <= n < |t.sent| :: Number(t.sent[n].id) == n + 1 && t.sent[n].id != ""
  }

  /** The promise that waits under an id is that of the command sent with it. */
  predicate PendingOk(t: Tab) {
    forall id | id in t.pending :: 1 <= t.pending[id] <= |t.sent| && t.sent[t.pending[id] - 1].id == id
  }

  /** No promise is resolved twice, and none that waits has been. */
  predicate Once(t: Tab) {
    && (forall i, j | 0 <= i < j < |t.calls| :: t.calls[i].promise != t.calls[j].promise)
    && (forall i | 0 <= i < |t.calls| :: 1 <= t.calls[i].promise <= |t.sent|)
    && (forall i | 0 <= i < |t.calls| :: t.sent[t.calls[i].promise - 1].id !in t.pending)
  }

  /** Every promise waits or has been resolved. */
  predicate NoneLost(t: Tab) {
    forall n | 0 <= n < |t.sent| :: t.sent[n].id in t.pending || Resolved(t, n + 1)
  }

  predicate TabOk(t: Tab) {
    Numbered(t) && PendingOk(t) && Once(t) && NoneLost(t)
  }

  /** What was resolved by a reply was resolved by the reply to the very command sent under that number. */
  predicate RightReplies(t: Tab) {
    forall i | 0 <= i < |t.calls| && t.calls[i].outcome.Replied? ::
      var r := t.calls[i].outcome.reply;
      1 <= t.calls[i].promise <= |t.sent| && t.sent[t.calls[i].promise - 1] == Request(r.about.id, r.about.body)
  }

  lemma SendIsNew(t: Tab, tag: string, body: string)
    requires TabOk(t)
    ensures var id := IdOf(tag, t.seqNo + 1);
            id !in t.pending && id != "" && Number(id) == t.seqNo + 1
            && forall n | 0 <= n < |t.sent| :: t.sent[n].id != id
  {
    hide Number, IdOf;
    IdTellsNumber(tag, t.seqNo + 1);
  }

  lemma SendKeepsNumbers(t: Tab, tag: string, body: string)
    requires TabOk(t)
    ensures var u := Send(t, tag, body); Numbered(u) && PendingOk(u)
  {
    hide Number, IdOf, Once, NoneLost;
    SendIsNew(t, tag, body);
  }

  lemma SendKeepsOnce(t: Tab, tag: string, body: string)
    requires TabOk(t)
    ensures Once(Send(t, tag, body))
  {
    hide Number, IdOf, NoneLost, PendingOk;
    SendIsNew(t, tag, body);
  }

  lemma CallsStay(t: Tab, u: Tab, n: nat)
    requires t.calls <= u.calls && Resolved(t, n)
    ensures Resolved(u, n)
  {
    var i :| 0 <= i < |t.calls| && t.calls[i].promise == n;
    assert u.calls[i].promise == n;
  }

  lemma SendLosesNone(t: Tab, tag: string, body: string)
    requires TabOk(t)
    ensures NoneLost(Send(t, tag, body))
  {
    hide Number, IdOf, Once, PendingOk, Numbered, Resolved;
    var u := Send(t, tag, body);
    forall n | 0 <= n < |u.sent|
      ensures u.sent[n].id in u.pending || Resolved(u, n + 1)
    {
      if n < |t.sent| {
        assert u.sent[n] == t.sent[n];
        if Resolved(t, n + 1) {
          CallsStay(t, u, n + 1);
        }
      }
    }
  }

  lemma SendKeepsOk(t: Tab, tag: string, body: string)
    requires TabOk(t)
    ensures TabOk(Send(t, tag, body))
  {
    hide Numbered, PendingOk, Once, NoneLost, Send;
    SendKeepsNumbers(t, tag, body);
    SendKeepsOnce(t, tag, body);
    SendLosesNone(t, tag, body);
  }

  lemma SettleKeepsOnce(t: Tab, id: string, outcome: Outcome)
    requires TabOk(t)
    ensures Once(Settle(t, id, outcome))
  {
    hide Number, NoneLost, Numbered;
    if id in t.pending {
      var p := t.pending[id];
      assert forall i | 0 <= i < |t.calls| :: t.sent[t.calls[i].promise - 1].id != t.sent[p - 1].id;
    }
  }

  lemma SettleLosesNone(t: Tab, id: string, outcome: Outcome)
    requires TabOk(t)
    ensures NoneLost(Settle(t, id, outcome))
  {
    hide Number, Once, Resolved;
    var u := Settle(t, id, outcome);
    if id in t.pending {
      forall n | 0 <= n < |u.sent|
        ensures u.sent[n].id in u.pending || Resolved(u, n + 1)
      {
        if t.sent[n].id == id {
          assert Number(t.sent[t.pending[id] - 1].id) == t.pending[id];
          assert u.calls[|t.calls|].promise == n + 1;
          LastIsResolved(u);
        } else if Resolved(t, n + 1) {
          CallsStay(t, u, n + 1);
        }
      }
    }
  }

  lemma LastIsResolved(t: Tab)
    requires t.calls != []
    ensures Resolved(t, t.calls[|t.calls| - 1].promise)
  {
  }

  lemma SettleKeepsOk(t: Tab, id: string, outcome: Outcome)
    requires TabOk(t)
    ensures TabOk(Settle(t, id, outcome))
  {
    hide Number, Once, NoneLost;
    SettleKeepsOnce(t, id, outcome);
    SettleLosesNone(t, id, outcome);
  }

  /** A reply that comes after its promise was resolved, by a timer or another reply, changes nothing. */
  lemma LateReplyIsIgnored(t: Tab, r: Reply, n: nat)
    requires TabOk(t) && 1 <= n <= |t.sent| && r.id == t.sent[n - 1].id && Resolved(t, n)
    ensures GotReply(t, r) == t && Timer(t, r.id) == t
  {
  }

  /** A reply to a command that still waits resolves its promise, and that alone. */
  lemma ReplyResolves(t: Tab, r: Reply, n: nat)
    requires TabOk(t) && 1 <= n <= |t.sent| && r.id == t.sent[n - 1].id && !Resolved(t, n)
    ensures GotReply(t, r).calls == t.calls + [Call(n, Replied(r))]
    ensures GotReply(t, r).pending == t.pending - {r.id}
  {
    hide Number;
    assert t.sent[n - 1].id in t.pending;
    var p := t.pending[r.id];
    assert Number(t.sent[p - 1].id) == p && Number(t.sent[n - 1].id) == n;
  }

  /** The timer of a command that still waits resolves its promise as timed out, and that alone. */
  lemma TimerResolves(t: Tab, n: nat)
    requires TabOk(t) && 1 <= n <= |t.sent| && !Resolved(t, n)
    ensures var u := Timer(t, t.sent[n - 1].id);
            && u.calls == t.calls + [Call(n, TimedOut)]
            && u.pending == t.pending - {t.sent[n - 1].id}
            && u.sent == t.sent
  {
    hide Number;
    assert t.sent[n - 1].id in t.pending;
    var p := t.pending[t.sent[n - 1].id];
    assert Number(t.sent[p - 1].id) == p && Number(t.sent[n - 1].id) == n;
  }

  /** A command that is sent waits from then on. */
  lemma SentWaits(t: Tab, tag: string, body: string)
    requires TabOk(t)
    ensures var u := Send(t, tag, body);
            var n := |u.sent|;
            && u.sent == t.sent + [u.sent[n - 1]] && u.sent[n - 1].body == body
            && Number(u.sent[n - 1].id) == n == |t.sent| + 1
            && !Resolved(u, n) && u.pending.Keys == t.pending.Keys + {u.sent[n - 1].id}
  {
    SendKeepsOk(t, tag, body);
    SendIsNew(t, tag, body);
    hide Number, IdOf;
    var u := Send(t, tag, body);
    assert u.sent[|u.sent| - 1].id in u.pending;
  }

  // ------------------------------------------------------------------
  // The page's code

  class CommandHelper {
    var pending: map<string, nat>
    var cmdSeq: nat
    var sent: seq<Request>
    var calls: seq<Call>

    function View(): Tab
      reads this
    {
      Tab(pending, cmdSeq, sent, calls)
    }

    constructor ()
      ensures View() == FRESH
    {
      pending := map[];
      cmdSeq := 0;
      sent := [];
      calls := [];
    }

    /** `sendCommand`; without an agent the promise is resolved on the spot and nothing is kept. */
    method SendCommand(agentConnected: bool, tag: string, body: string) returns (id: Option<string>)
      modifies this
      ensures View() == if agentConnected then Send(old(View()), tag, body) else old(View())
      ensures id == if agentConnected then Some(IdOf(tag, cmdSeq)) else None
    {
      if !agentConnected {
        return None;
      }
      cmdSeq := cmdSeq + 1;
      var key := IdOf(tag, cmdSeq);
      pending := pending[key := cmdSeq];
      sent := sent + [Request(key, body)];
      return Some(key);
    }

    /** The `result` handler. */
    method OnResult(data: Reply)
      modifies this
      ensures View() == GotReply(old(View()), data)
    {
      var id := data.id;
      if id != "" && id in pending {
        calls := calls + [Call(pending[id], Replied(data))];
        pending := pending - {id};
      }
    }

    /** The timer of one command. */
    method OnTimeout(id: string)
      modifies this
      ensures View() == Timer(old(View()), id)
    {
      if id in pending {
        var promise := pending[id];
        pending := pending - {id};
        calls := calls + [Call(promise, TimedOut)];
      }
    }
  }
}
