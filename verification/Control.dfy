/**
 Remote control: a controller watches one code, and a browser that asks for
 help is handed to a free controller watching its agent's code.
 */
module Control {
  import opened Basics

  datatype Desk = Desk(
    controllers: set<Sid>,
    watching: map<Sid, Code>,
    ctrlBrowser: map<Sid, Sid>,
    browserCtrl: map<Sid, Sid>,
    active: set<Sid>)

  const CLOSED := Desk({}, map[], map[], map[], {})

  function Register(d: Desk, c: Sid, code: Code): Desk {
    d.(controllers := d.controllers + {c}, watching := d.watching[c := code])
  }

  function Assign(d: Desk, c: Sid, b: Sid): Desk {
    d.(ctrlBrowser := d.ctrlBrowser[c := b], browserCtrl := d.browserCtrl[b := c])
  }

  datatype AcceptReply = Ignored | Duplicate(of: Sid) | Activated(browser: Sid)

  /**
   `controller_accept`: activates the assigned browser; if it is already
   active, the assignment is dropped instead and the controller is refused.
   */
  function Accept(d: Desk, c: Sid): (Desk, AcceptReply) {
    if c !in d.controllers || c !in d.ctrlBrowser then (d, Ignored)
    else
      var b := d.ctrlBrowser[c];
      if b in d.active then
        (d.(ctrlBrowser := d.ctrlBrowser - {c}, browserCtrl := d.browserCtrl - {b}), Duplicate(b))
      else
        (d.(active := d.active + {b}), Activated(b))
  }

  /** Ends whatever the controller is doing (`controller_end`). */
  function EndByController(d: Desk, c: Sid): Desk {
    if c !in d.controllers || c !in d.ctrlBrowser then d
    else
      var b := d.ctrlBrowser[c];
      d.(ctrlBrowser := d.ctrlBrowser - {c},
         browserCtrl := d.browserCtrl - {b},
         active := d.active - {b})
  }

  /** A controller's socket closed. */
  function ControllerGone(d: Desk, c: Sid): Desk {
    EndByController(d, c).(controllers := d.controllers - {c}, watching := d.watching - {c})
  }

  /** The browser ends the session, or its socket closed. */
  function EndByBrowser(d: Desk, b: Sid): Desk {
    d.(browserCtrl := d.browserCtrl - {b},
       ctrlBrowser := if b in d.browserCtrl then d.ctrlBrowser - {d.browserCtrl[b]} else d.ctrlBrowser,
       active := d.active - {b})
  }

  /** A controller watching the code that has no browser. */
  ghost predicate Free(d: Desk, code: Code, c: Sid) {
    c in d.watching && d.watching[c] == code && c !in d.ctrlBrowser
  }

  ghost predicate Pick(d: Desk, code: Code, c: Option<Sid>) {
    match c
    case None => forall x :: !Free(d, code, x)
    case Some(x) => Free(d, code, x)
  }

  datatype RequestReply = AlreadyAsked | NoAgent | NoCode | NoController | Asked(ctrl: Sid)

  /** `remote_control_request` of a browser paired or not, whose agent holds `code`. */
  function Request(d: Desk, b: Sid, paired: bool, code: Option<Code>, pick: Option<Sid>): (Desk, RequestReply) {
    if b in d.browserCtrl || b in d.active then (d, AlreadyAsked)
    else if !paired then (d, NoAgent)
    else if code.None? then (d, NoCode)
    else match pick
      case None => (d, NoController)
      case Some(c) => (Assign(d, c, b), Asked(c))
  }

  // ------------------------------------------------------------------

  /** The two assignment tables are inverse partial injections over registered controllers. */
  ghost predicate Matched(d: Desk) {
    && (forall c :: c in d.ctrlBrowser ==> d.ctrlBrowser[c] in d.browserCtrl && d.browserCtrl[d.ctrlBrowser[c]] == c)
    && (forall b :: b in d.browserCtrl ==> d.browserCtrl[b] in d.ctrlBrowser && d.ctrlBrowser[d.browserCtrl[b]] == b)
    && d.ctrlBrowser.Keys <= d.controllers
    && d.watching.Keys == d.controllers
  }

  /** `opener[b]` is the controller whose accept last activated browser b. */
  ghost predicate ActivatedByOwn(d: Desk, opener: map<Sid, Sid>) {
    forall b :: b in d.active && b in d.browserCtrl ==> b in opener && opener[b] == d.browserCtrl[b]
  }

  /** `spent` holds the controllers that already accepted their current request. */
  ghost predicate ActiveIsAssigned(d: Desk, spent: set<Sid>) {
    && d.active <= d.browserCtrl.Keys
    && (forall b :: b in d.active && b in d.browserCtrl ==> d.browserCtrl[b] in spent)
  }

  lemma EndsKeep(d: Desk, s: Sid, opener: map<Sid, Sid>, spent: set<Sid>)
    requires Matched(d) && ActivatedByOwn(d, opener)
    ensures Matched(EndByController(d, s)) && ActivatedByOwn(EndByController(d, s), opener)
    ensures Matched(ControllerGone(d, s)) && ActivatedByOwn(ControllerGone(d, s), opener)
    ensures Matched(EndByBrowser(d, s)) && ActivatedByOwn(EndByBrowser(d, s), opener)
    ensures ActiveIsAssigned(d, spent) ==>
              && ActiveIsAssigned(EndByController(d, s), spent)
              && ActiveIsAssigned(ControllerGone(d, s), spent)
              && ActiveIsAssigned(EndByBrowser(d, s), spent)
  {
  }

  lemma RequestKeeps(d: Desk, b: Sid, paired: bool, code: Option<Code>, pick: Option<Sid>,
                     opener: map<Sid, Sid>, spent: set<Sid>)
    requires Matched(d) && ActivatedByOwn(d, opener)
    requires code.Some? ==> Pick(d, code.value, pick)
    ensures var (e, r) := Request(d, b, paired, code, pick);
            && Matched(e) && ActivatedByOwn(e, opener)
            && (ActiveIsAssigned(d, spent) ==> ActiveIsAssigned(e, spent - (if r.Asked? then {r.ctrl} else {})))
  {
  }

  lemma AcceptKeeps(d: Desk, c: Sid, opener: map<Sid, Sid>, spent: set<Sid>)
    requires Matched(d) && ActivatedByOwn(d, opener)
    ensures var (e, r) := Accept(d, c);
            var opener' := if r.Activated? then opener[r.browser := c] else opener;
            && Matched(e) && ActivatedByOwn(e, opener')
            && (ActiveIsAssigned(d, spent) && c !in spent ==>
                  !r.Duplicate? && ActiveIsAssigned(e, spent + {c}))
  {
  }

  /**
   The duplicate branch is only ever met by the controller that activated the
   session itself, so it refuses a repeated accept and nobody else; and it
   leaves the browser active with no controller.
   */
  lemma DuplicateIsRepeat(d: Desk, c: Sid, opener: map<Sid, Sid>)
    requires Matched(d) && ActivatedByOwn(d, opener) && Accept(d, c).1.Duplicate?
    ensures var b := Accept(d, c).1.of;
            && b in opener && opener[b] == c
            && b in Accept(d, c).0.active && b !in Accept(d, c).0.browserCtrl
  {
  }
}
