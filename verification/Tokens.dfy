/**
 Access-code records (tokens.json): how the relay server admits, charges and
 clears a session, and how the administration script judges a record dead.
 */
module Tokens {
  import opened Basics

  /**
   One record as the administration script creates it. `expiry` is None when
   the stored text is not a date; both programs then skip the date check.
   */
  datatype Token = Token(
    used: bool,
    inUse: bool,
    unlimited: bool,
    maxUses: int,
    useCount: int,
    expiry: Option<int>,
    maxMinutes: int,
    firstUsedAt: Option<real>,
    expiresAt: Option<real>)

  type TokenFile = map<Code, Token>

  /** Why `on_agent_hello` turned a socket away, or that it let it in. */
  datatype HelloReply =
    | Blocked
    | CodeMissing
    | CodeUnknown
    | CodeUsedUp
    | CodeBusy
    | CodeExpired
    | Accepted(minutes: int)

  /** Frees the session lock without charging a use. */
  function Clear(t: Token): Token {
    t.(inUse := false, firstUsedAt := None, expiresAt := None)
  }

  /** `_burn_token` on one record: idempotent, charges only a held lock. */
  function Burn(t: Token): Token {
    if t.used || !t.inUse then t
    else if t.unlimited then Clear(t)
    else Clear(t).(useCount := t.useCount + 1, used := t.useCount + 1 >= t.maxUses)
  }

  function BurnCode(tokens: TokenFile, code: Code): TokenFile {
    if code in tokens then tokens[code := Burn(tokens[code])] else tokens
  }

  /** Clears every held lock whose code is not in `active`. */
  function Sweep(tokens: TokenFile, active: set<Code>): TokenFile {
    map c | c in tokens :: if tokens[c].inUse && c !in active then Clear(tokens[c]) else tokens[c]
  }

  predicate Expired(t: Token, today: int) {
    t.expiry.Some? && today > t.expiry.value
  }

  predicate SpentOut(t: Token) {
    !t.unlimited && t.useCount >= t.maxUses
  }

  /** `_is_unusable` of the administration script. */
  predicate Unusable(t: Token, today: int) {
    t.used || Expired(t, today) || SpentOut(t)
  }

  function Lock(t: Token, now: real): Token {
    t.(inUse := true, firstUsedAt := Some(now), expiresAt := Some(now + 60.0 * t.maxMinutes as real))
  }

  /**
   The record part of `on_agent_hello`; `live` says that a connected agent
   holds the code. A held lock without a live agent is cleared first, and
   stays cleared when the date check then refuses the code.
   */
  function Admit(t: Token, live: bool, today: int, now: real): (Token, HelloReply) {
    if t.used then (t, CodeUsedUp)
    else if SpentOut(t) then (t.(used := true), CodeUsedUp)
    else if t.inUse && live then (t, CodeBusy)
    else
      var t1 := if t.inUse then Clear(t) else t;
      if Expired(t1, today) then (t1, CodeExpired)
      else (Lock(t1, now), Accepted(t1.maxMinutes))
  }

  /** A lock that `Admit` clears without charging it. */
  predicate Recovers(t: Token, live: bool) {
    !t.used && !SpentOut(t) && t.inUse && !live
  }

  /** What every record satisfies from its creation on. */
  predicate Sound(t: Token) {
    && !(t.used && t.inUse)
    && (!t.unlimited ==> 0 <= t.useCount <= t.maxUses && (t.used <==> t.useCount == t.maxUses))
  }

  /** Only a code that is not used up is locked; a record revoked or edited by hand may be anything else. */
  predicate LockFits(t: Token) {
    t.inUse ==> !t.used && !SpentOut(t)
  }

  /** Charged at most as often as allowed. */
  predicate WithinLimit(t: Token) {
    !t.unlimited ==> t.useCount <= t.maxUses
  }

  /** The session window of a held lock is exactly its length. */
  predicate Windowed(t: Token) {
    t.inUse ==>
      && t.firstUsedAt.Some?
      && t.expiresAt == Some(t.firstUsedAt.value + 60.0 * t.maxMinutes as real)
  }

  /** The record written by the creation menu (`maxUses` 0 means unlimited). */
  function Created(maxUses: nat, minutes: int, expiry: Option<int>): (t: Token)
    ensures Sound(t) && Windowed(t)
  {
    Token(false, false, maxUses == 0, maxUses, 0, expiry, minutes, None, None)
  }

  /** Charged plus held sessions: the quantity that the ledger accounts for. */
  function Held(t: Token): int {
    t.useCount + if t.inUse then 1 else 0
  }

  lemma BurnMovesHeldToCharged(t: Token)
    ensures !t.unlimited ==> Held(Burn(t)) == Held(t)
    ensures Sound(t) ==> Sound(Burn(t)) && !Burn(t).inUse
    ensures LockFits(t) ==> LockFits(Burn(t)) && !Burn(t).inUse && (WithinLimit(t) ==> WithinLimit(Burn(t)))
    ensures Windowed(t) ==> Windowed(Burn(t))
    ensures Burn(Burn(t)) == Burn(t)
  {
  }

  lemma AdmitAccounts(t: Token, live: bool, today: int, now: real)
    ensures var (t', r) := Admit(t, live, today, now);
            && (Sound(t) ==> Sound(t'))
            && (LockFits(t) ==> LockFits(t') && (WithinLimit(t) ==> WithinLimit(t')))
            && (Windowed(t) ==> Windowed(t'))
            && Held(t') + (if Recovers(t, live) then 1 else 0) == Held(t) + (if r.Accepted? then 1 else 0)
  {
  }

  /**
   A code is let in exactly when the administration script would keep it and
   no live agent is using it.
   */
  lemma AdmitIff(t: Token, live: bool, today: int, now: real)
    ensures Admit(t, live, today, now).1.Accepted? <==> !Unusable(t, today) && !(t.inUse && live)
  {
  }

  /** Whether `t'` may follow `t` under the server: nothing that makes a record dead is undone. */
  predicate Wears(t: Token, t': Token) {
    && t'.unlimited == t.unlimited && t'.maxUses == t.maxUses
    && t'.expiry == t.expiry && t'.maxMinutes == t.maxMinutes
    && t'.useCount >= t.useCount
    && (t.used ==> t'.used)
  }

  lemma WearKeepsUnusable(t: Token, t': Token, today: int, later: int)
    requires Wears(t, t') && today <= later && Unusable(t, today)
    ensures Unusable(t', later)
  {
  }

  /** `menu_purge`: deletes exactly the dead records, keeping the rest as they are. */
  method Purge(tokens: TokenFile, today: int) returns (kept: TokenFile)
    ensures forall c :: c in kept <==> c in tokens && !Unusable(tokens[c], today)
    ensures forall c :: c in kept ==> kept[c] == tokens[c]
  {
    var targets := set c | c in tokens && Unusable(tokens[c], today);
    kept := tokens;
    ghost var done: set<Code> := {};
    while targets != {}
      invariant targets !! done
      invariant targets + done == set c | c in tokens && Unusable(tokens[c], today)
      invariant forall c :: c in kept <==> c in tokens && c !in done
      invariant forall c :: c in kept ==> kept[c] == tokens[c]
      decreases |targets|
    {
      var code :| code in targets;
      kept := kept - {code};
      targets := targets - {code};
      done := done + {code};
    }
  }
}
