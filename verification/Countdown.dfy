/**
 The countdown an agent prints while its session lasts: how long it waits
 between two lines and which lines it prints.
 */
module Countdown {
  import opened Basics

  const SECOND := 1_000_000_000

  function Or(a: int, b: int): int {
    if a == 0 then b else a
  }

  /** `_interval`: the seconds to wait when rem seconds are left. */
  function Interval(rem: int): (wait: int)
    ensures rem > 0 ==> 1 <= wait <= rem
  {
    if rem > 600 then Or(rem % 600, 600)
    else if rem > 60 then Or(rem % 60, 60)
    else if rem > 10 then Or(rem % 10, 10)
    else 1
  }

  /** `nextInterval`, in nanoseconds. */
  function NextInterval(rem: int): int {
    if rem > 600 * SECOND then Or(rem % (600 * SECOND), 600 * SECOND)
    else if rem > 60 * SECOND then Or(rem % (60 * SECOND), 60 * SECOND)
    else if rem > 10 * SECOND then Or(rem % (10 * SECOND), 10 * SECOND)
    else SECOND
  }

  /** What a line says: minutes, rounded up, or seconds. */
  datatype Label = Minutes(n: int) | Seconds(n: int)

  /** `_fmt`. */
  function Format(rem: int): Label {
    if rem >= 60 then Minutes((rem + 59) / 60) else Seconds(rem)
  }

  /** `fmtRemaining`, in nanoseconds. */
  function FormatRemaining(rem: int): Label {
    if rem >= 60 * SECOND then Minutes((rem + 59 * SECOND) / (60 * SECOND)) else Seconds(rem / SECOND)
  }

  /** From a minute on a line names the minutes begun, below it the seconds. */
  lemma FormatRoundsUp(rem: int, n: int)
    ensures Format(rem) == Minutes(n) <==> rem >= 60 && 60 * (n - 1) < rem <= 60 * n
    ensures Format(rem) == Seconds(n) <==> rem < 60 && n == rem
  {
    var q := (rem + 59) / 60;
    assert 60 * q <= rem + 59 < 60 * q + 60;
  }

  lemma Scaled600(a: int)
    ensures (a * SECOND) % (600 * SECOND) == (a % 600) * SECOND
  {
    assert a == 600 * (a / 600) + a % 600;
  }

  lemma Scaled60(a: int)
    ensures (a * SECOND) % (60 * SECOND) == (a % 60) * SECOND && (a * SECOND) / (60 * SECOND) == a / 60
  {
    assert a == 60 * (a / 60) + a % 60;
  }

  lemma Scaled10(a: int)
    ensures (a * SECOND) % (10 * SECOND) == (a % 10) * SECOND
  {
    assert a == 10 * (a / 10) + a % 10;
  }

  /** Both agents wait equally long and print the same, for every number of seconds. */
  lemma AgentsAgree(rem: int)
    ensures NextInterval(rem * SECOND) == Interval(rem) * SECOND
    ensures FormatRemaining(rem * SECOND) == Format(rem)
  {
    Scaled600(rem);
    Scaled60(rem);
    Scaled10(rem);
    Scaled60(rem + 59);
  }

  // ------------------------------------------------------------------
  // Ideal time

  /** Where the countdown stops for a line: tens of minutes, minutes, tens of seconds, seconds. */
  predicate Boundary(p: int) {
    p % 600 == 0 || (p <= 600 && p % 60 == 0) || (p <= 60 && p % 10 == 0) || p <= 10
  }

  lemma Tens(n: int, p: int)
    requires n > 0
    ensures var w := Or(n % 10, 10); 1 <= w <= n && (n - w) % 10 == 0 && (n - w < p < n ==> p % 10 != 0)
  {
  }

  lemma Sixties(n: int, p: int)
    requires n > 0
    ensures var w := Or(n % 60, 60); 1 <= w <= n && (n - w) % 60 == 0 && (n - w < p < n ==> p % 60 != 0)
  {
  }

  lemma SixHundreds(n: int, p: int)
    requires n > 0
    ensures var w := Or(n % 600, 600); 1 <= w <= n && (n - w) % 600 == 0 && (n - w < p < n ==> p % 600 != 0)
  {
  }

  lemma Multiples(p: int)
    ensures p % 600 == 0 ==> p % 60 == 0
    ensures p % 60 == 0 ==> p % 10 == 0
  {
    var q := p / 600;
    var r := p / 60;
    if p % 600 == 0 {
      assert p == 60 * (10 * q);
    }
    if p % 60 == 0 {
      assert p == 10 * (6 * r);
    }
  }

  /** A wait is at least a second and at most what is left, and leads to the next boundary, passing none. */
  lemma IntervalLeadsToBoundary(n: int)
    requires n > 0
    ensures 1 <= Interval(n) <= n
    ensures Boundary(n - Interval(n))
    ensures forall p | n - Interval(n) < p < n :: !Boundary(p)
  {
    NextBoundary(n, n);
    forall p | n - Interval(n) < p < n
      ensures !Boundary(p)
    {
      NextBoundary(n, p);
    }
  }

  lemma NextBoundary(n: int, p: int)
    requires n > 0
    ensures 1 <= Interval(n) <= n && Boundary(n - Interval(n))
    ensures n - Interval(n) < p < n ==> !Boundary(p)
  {
    Tens(n, p);
    Sixties(n, p);
    SixHundreds(n, p);
    Multiples(p);
    Multiples(n);
    Multiples(n - Interval(n));
  }

  /** The seconds left at each line when every wait is kept exactly. */
  function Stops(n: nat): seq<nat>
    decreases n
  {
    if n == 0 then [] else [n] + Stops(n - Interval(n))
  }

  function Waited(stops: seq<nat>): int {
    if stops == [] then 0 else Interval(stops[0]) + Waited(stops[1..])
  }

  /** The lines come at the start and at every boundary below it, and nowhere else. */
  lemma {:induction false} StopsAreBoundaries(n: nat, p: nat)
    ensures p in Stops(n) <==> 0 < p && (p == n || (p < n && Boundary(p)))
    decreases n
  {
    hide Interval, Boundary;
    if n > 0 {
      IntervalLeadsToBoundary(n);
      StopsAreBoundaries(n - Interval(n), p);
    }
  }

  /** The waits sum up exactly to the time there was. */
  lemma {:induction false} WaitsSumUp(n: nat)
    ensures Waited(Stops(n)) == n
    ensures forall i | 0 <= i < |Stops(n)| :: 1 <= Interval(Stops(n)[i]) <= Stops(n)[i]
    decreases n
  {
    hide Interval, Boundary;
    if n > 0 {
      IntervalLeadsToBoundary(n);
      WaitsSumUp(n - Interval(n));
    }
  }

  /** The lines that are printed: those that differ from the one before. */
  function Printed(last: Option<Label>, rems: seq<int>): seq<Label>
    decreases |rems|
  {
    if rems == [] then []
    else if last == Some(Format(rems[0])) then Printed(last, rems[1..])
    else [Format(rems[0])] + Printed(Some(Format(rems[0])), rems[1..])
  }

  lemma LabelsDiffer(n: int)
    requires n > 0
    ensures n - Interval(n) > 0 ==> Format(n) != Format(n - Interval(n))
  {
    IntervalLeadsToBoundary(n);
    if n > 60 {
      var m := n - Interval(n);
      assert m % 60 == 0;
      assert m >= 60 ==> (m + 59) / 60 == m / 60;
    }
  }

  lemma {:induction false} EveryStopIsPrinted(n: nat, last: Option<Label>)
    requires n > 0 ==> last != Some(Format(n))
    ensures |Printed(last, Stops(n))| == |Stops(n)|
    ensures forall i | 0 <= i < |Stops(n)| :: Printed(last, Stops(n))[i] == Format(Stops(n)[i])
    decreases n
  {
    hide Interval, Boundary, Format;
    if n > 0 {
      IntervalLeadsToBoundary(n);
      LabelsDiffer(n);
      EveryStopIsPrinted(n - Interval(n), Some(Format(n)));
    }
  }

  // ------------------------------------------------------------------
  // The loop, on a clock that may oversleep

  function Ceiling(x: real): int {
    -(-x).Floor
  }

  /** The seconds left are the least whole number that is enough. */
  lemma CeilingIs(x: real, n: int)
    ensures Ceiling(x) == n <==> (n - 1) as real < x <= n as real
  {
  }

  /** The seconds left at each turn, rounded up; each wait takes longer than asked by its entry of late. */
  function Moments(left: real, late: seq<real>): seq<int>
    decreases |late|
  {
    if late == [] || Ceiling(left) <= 0 then []
    else [Ceiling(left)] + Moments(left - Interval(Ceiling(left)) as real - late[0], late[1..])
  }

  /** `_run` and the loop of `startCountdown`, until time is up or they are told to stop. */
  method Run(endTime: real, now: real, late: seq<real>) returns (shown: seq<Label>)
    ensures shown == Printed(None, Moments(endTime - now, late))
  {
    hide Interval, Format, Ceiling;
    shown := [];
    var clock := now;
    var last: Option<Label> := None;
    var turn := 0;
    while turn < |late|
      invariant 0 <= turn <= |late|
      invariant Printed(None, Moments(endTime - now, late))
             == shown + Printed(last, Moments(endTime - clock, late[turn..]))
    {
      ghost var ahead := late[turn..];
      assert ahead[1..] == late[turn + 1..] && ahead[0] == late[turn];
      var rem := Ceiling(endTime - clock);
      if rem <= 0 {
        break;
      }
      ghost var next := Moments(endTime - clock - Interval(rem) as real - late[turn], late[turn + 1..]);
      assert Moments(endTime - clock, ahead) == [rem] + next;
      assert ([rem] + next)[1..] == next;
      var msg := Format(rem);
      if last != Some(msg) {
        shown := shown + [msg];
        last := Some(msg);
      }
      clock := clock + Interval(rem) as real + late[turn];
      turn := turn + 1;
    }
  }

  function Total(late: seq<real>): real {
    if late == [] then 0.0 else late[0] + Total(late[1..])
  }

  lemma CeilingOfAlmost(n: int, eps: real)
    requires 0.0 <= eps < 1.0
    ensures Ceiling(n as real - eps) == n
  {
  }

  lemma {:induction false} TotalNotNegative(late: seq<real>)
    requires forall i | 0 <= i < |late| :: late[i] >= 0.0
    ensures Total(late) >= 0.0
  {
    if late != [] {
      TotalNotNegative(late[1..]);
    }
  }

  /** Rounding up keeps the countdown on its boundaries as long as all delays together stay under a second. */
  lemma {:induction false} SmallDelaysDoNotShow(n: nat, eps: real, late: seq<real>)
    requires (forall i | 0 <= i < |late| :: late[i] >= 0.0) && |late| >= |Stops(n)|
    requires eps >= 0.0 && eps + Total(late) < 1.0
    ensures Moments(n as real - eps, late) == Stops(n)
    decreases n
  {
    hide Interval, Boundary, Ceiling;
    TotalNotNegative(late);
    CeilingOfAlmost(n, eps);
    if n > 0 {
      IntervalLeadsToBoundary(n);
      var w := Interval(n);
      assert n as real - eps - w as real - late[0] == (n - w) as real - (eps + late[0]);
      SmallDelaysDoNotShow(n - w, eps + late[0], late[1..]);
    }
  }
}
