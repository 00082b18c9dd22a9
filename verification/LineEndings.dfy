/**
 The line-ending normaliser of the agent: three replacements, one after the
 other, over the bytes a device shell printed.
 */
module LineEndings {
  import opened Basics

  type Bytes = seq<bv8>

  const CR: bv8 := 13
  const LF: bv8 := 10

  /** `bytes.replace`: every occurrence, from the left, without overlap. */
  function Replace(b: Bytes, what: Bytes, with: Bytes): Bytes
    requires what != []
    decreases |b|
  {
    if |b| < |what| then b
    else if b[..|what|] == what then with + Replace(b[|what|..], what, with)
    else [b[0]] + Replace(b[1..], what, with)
  }

  function First(b: Bytes): Bytes { Replace(b, [CR, CR, LF], [LF]) }

  function Second(b: Bytes): Bytes { Replace(b, [CR, LF], [LF]) }

  function Third(b: Bytes): Bytes { Replace(b, [CR], [LF]) }

  /** `_norm`. */
  function Norm(b: Bytes): Bytes { Third(Second(First(b))) }

  function Times(x: bv8, n: nat): (r: Bytes)
    ensures |r| == n && forall i | 0 <= i < n :: r[i] == x
  {
    if n == 0 then [] else [x] + Times(x, n - 1)
  }

  function LinesFor(k: nat): nat {
    if k <= 3 then 1 else k - 2
  }

  /** What becomes of k carriage returns followed by b, run by run. */
  function Runs(k: nat, b: Bytes): Bytes
    decreases |b|
  {
    if b == [] then Times(LF, k)
    else if b[0] == CR then Runs(k + 1, b[1..])
    else if b[0] == LF then Times(LF, LinesFor(k)) + Runs(0, b[1..])
    else Times(LF, k) + [b[0]] + Runs(0, b[1..])
  }

  // ------------------------------------------------------------------
  // The passes on one run

  lemma Peel(x: bv8, n: nat, rest: Bytes)
    requires n > 0
    ensures var b := Times(x, n) + rest; b[0] == x && b[1..] == Times(x, n - 1) + rest
  {
  }

  lemma OneMore(x: bv8, k: nat, rest: Bytes)
    ensures Times(x, k + 1) + rest == [x] + (Times(x, k) + rest) == Times(x, k) + ([x] + rest)
  {
  }

  lemma FirstUnfolds(b: Bytes)
    ensures First(b) == if |b| < 3 then b else if b[0] == CR && b[1] == CR && b[2] == LF then [LF] + First(b[3..])
                        else [b[0]] + First(b[1..])
  {
    if |b| >= 3 {
      assert b[..3] == [b[0], b[1], b[2]];
    }
  }

  lemma FirstKeepsOne(b: Bytes)
    requires b != [] && !(|b| >= 3 && b[0] == CR && b[1] == CR && b[2] == LF)
    ensures First(b) == [b[0]] + First(b[1..])
  {
    hide Replace, First;
    FirstUnfolds(b);
    if |b| < 3 {
      FirstUnfolds(b[1..]);
    }
  }

  lemma SecondUnfolds(b: Bytes)
    ensures Second(b) == if |b| < 2 then b else if b[0] == CR && b[1] == LF then [LF] + Second(b[2..])
                         else [b[0]] + Second(b[1..])
  {
    if |b| >= 2 {
      assert b[..2] == [b[0], b[1]];
    }
  }

  lemma SecondKeepsOne(b: Bytes)
    requires b != [] && !(|b| >= 2 && b[0] == CR && b[1] == LF)
    ensures Second(b) == [b[0]] + Second(b[1..])
  {
    hide Replace, Second;
    SecondUnfolds(b);
    if |b| < 2 {
      SecondUnfolds(b[1..]);
    }
  }

  lemma ThirdUnfolds(b: Bytes)
    ensures Third(b) == if b == [] then [] else [if b[0] == CR then LF else b[0]] + Third(b[1..])
  {
    if b != [] {
      assert b[..1] == [b[0]];
    }
  }

  /** Carriage returns not before a line feed pass the first two replacements. */
  predicate Other(rest: Bytes) {
    rest == [] || (rest[0] != CR && rest[0] != LF)
  }

  lemma {:induction false} FirstOnOther(k: nat, rest: Bytes)
    requires Other(rest)
    ensures First(Times(CR, k) + rest) == Times(CR, k) + First(rest)
  {
    hide First, Replace, Times;
    var b := Times(CR, k) + rest;
    if k == 0 {
      assert b == rest;
    } else {
      Peel(CR, k, rest);
      FirstOnOther(k - 1, rest);
      FirstKeepsOne(b);
      OneMore(CR, k - 1, First(rest));
    }
  }

  /** k carriage returns and a line feed lose two of the carriage returns, if there are two. */
  lemma {:induction false} FirstOnRun(k: nat, rest: Bytes)
    ensures First(Times(CR, k) + [LF] + rest) == Times(CR, if k < 2 then k else k - 2) + [LF] + First(rest)
  {
    hide First, Replace, Times;
    var b := Times(CR, k) + [LF] + rest;
    if k == 0 {
      FirstKeepsOne(b);
      assert b[1..] == rest;
    } else if k == 2 {
      FirstUnfolds(b);
      assert b[3..] == rest;
    } else {
      var left := if k < 2 then k else k - 2;
      var tail := Times(CR, k - 1) + [LF] + rest;
      assert b[1..] == tail;
      FirstKeepsOne(b);
      FirstOnRun(k - 1, rest);
      Prefix(left, First(rest));
    }
  }

  lemma Prefix(k: nat, rest: Bytes)
    requires k > 0
    ensures Times(CR, k) + [LF] + rest == [CR] + (Times(CR, k - 1) + [LF] + rest)
  {
    hide Times;
  }

  lemma {:induction false} SecondOnOther(k: nat, rest: Bytes)
    requires Other(rest)
    ensures Second(Times(CR, k) + rest) == Times(CR, k) + Second(rest)
  {
    hide Second, Replace, Times;
    var b := Times(CR, k) + rest;
    if k == 0 {
      assert b == rest;
    } else {
      Peel(CR, k, rest);
      SecondOnOther(k - 1, rest);
      SecondKeepsOne(b);
      OneMore(CR, k - 1, Second(rest));
    }
  }

  lemma {:induction false} SecondOnRun(k: nat, rest: Bytes)
    ensures Second(Times(CR, k) + [LF] + rest) == Times(CR, if k == 0 then 0 else k - 1) + [LF] + Second(rest)
  {
    hide Second, Replace, Times;
    var b := Times(CR, k) + [LF] + rest;
    if k == 0 {
      SecondKeepsOne(b);
      assert b[1..] == rest;
    } else if k == 1 {
      SecondUnfolds(b);
      assert b[2..] == rest;
    } else {
      var tail := Times(CR, k - 1) + [LF] + rest;
      assert b[1..] == tail;
      SecondKeepsOne(b);
      SecondOnRun(k - 1, rest);
      Prefix(k - 1, Second(rest));
    }
  }

  lemma {:induction false} ThirdOnRun(k: nat, rest: Bytes)
    ensures Third(Times(CR, k) + rest) == Times(LF, k) + Third(rest)
  {
    hide Third, Replace, Times;
    var b := Times(CR, k) + rest;
    if k == 0 {
      assert b == rest;
    } else {
      Peel(CR, k, rest);
      ThirdUnfolds(b);
      ThirdOnRun(k - 1, rest);
      OneMore(LF, k - 1, Third(rest));
    }
  }

  // ------------------------------------------------------------------
  // The passes together

  lemma TimesMore(n: nat)
    ensures Times(LF, n) + [LF] == Times(LF, n + 1)
  {
  }

  lemma ThirdOnLine(k: nat, rest: Bytes)
    ensures Third(Times(CR, k) + [LF] + rest) == Times(LF, k + 1) + Third(rest)
  {
    hide Third, Replace, Times;
    var line := [LF] + rest;
    assert line[1..] == rest;
    Regroup(Times(CR, k), [LF], rest);
    ThirdOnRun(k, line);
    ThirdUnfolds(line);
    Regroup(Times(LF, k), [LF], Third(rest));
    TimesMore(k);
  }

  lemma NormOnRun(k: nat, rest: Bytes)
    ensures Norm(Times(CR, k) + [LF] + rest) == Times(LF, LinesFor(k)) + Norm(rest)
  {
    hide First, Second, Third, Replace, Times;
    var k1 := if k < 2 then k else k - 2;
    var k2 := if k1 == 0 then 0 else k1 - 1;
    FirstOnRun(k, rest);
    SecondOnRun(k1, First(rest));
    ThirdOnLine(k2, Second(First(rest)));
  }

  lemma NormOnOther(k: nat, x: bv8, rest: Bytes)
    requires x != CR && x != LF
    ensures Norm(Times(CR, k) + [x] + rest) == Times(LF, k) + [x] + Norm(rest)
  {
    hide First, Second, Third, Replace;
    var b := [x] + rest;
    assert Times(CR, k) + [x] + rest == Times(CR, k) + b;
    assert b[1..] == rest;
    FirstOnOther(k, b);
    FirstKeepsOne(b);
    var c := [x] + First(rest);
    assert c[1..] == First(rest);
    SecondOnOther(k, c);
    SecondKeepsOne(c);
    var d := [x] + Second(First(rest));
    assert d[1..] == Second(First(rest));
    ThirdOnRun(k, d);
    ThirdUnfolds(d);
  }

  lemma NormOnEnd(k: nat)
    ensures Norm(Times(CR, k)) == Times(LF, k)
  {
    hide First, Second, Third, Replace;
    assert Times(CR, k) + [] == Times(CR, k);
    FirstOnOther(k, []);
    FirstUnfolds([]);
    SecondOnOther(k, []);
    SecondUnfolds([]);
    ThirdOnRun(k, []);
    ThirdUnfolds([]);
  }

  lemma Split(a: Bytes, b: Bytes)
    requires b != []
    ensures a + b == a + [b[0]] + b[1..] && b == [b[0]] + b[1..]
  {
  }

  lemma {:induction false} NormFromRun(k: nat, b: Bytes)
    ensures Norm(Times(CR, k) + b) == Runs(k, b)
    decreases |b|
  {
    hide Norm, Times;
    if b == [] {
      assert Times(CR, k) + b == Times(CR, k);
      NormOnEnd(k);
    } else {
      var rest := b[1..];
      Split(Times(CR, k), b);
      if b[0] == CR {
        OneMore(CR, k, rest);
        NormFromRun(k + 1, rest);
      } else {
        NormFromRun(0, rest);
        assert Times(CR, 0) + rest == rest;
        if b[0] == LF {
          NormOnRun(k, rest);
        } else {
          NormOnOther(k, b[0], rest);
        }
      }
    }
  }

  /** The three replacements work run by run: k returns before a line feed become max(1, k - 2) line feeds, others k. */
  lemma NormIsRuns(b: Bytes)
    ensures Norm(b) == Runs(0, b)
  {
    hide Norm, Runs;
    NormFromRun(0, b);
    assert Times(CR, 0) + b == b;
  }

  lemma {:induction false} RunsLeaveNoReturn(k: nat, b: Bytes)
    ensures CR !in Runs(k, b)
    decreases |b|
  {
    if b != [] {
      RunsLeaveNoReturn(if b[0] == CR then k + 1 else 0, b[1..]);
    }
  }

  lemma {:induction false} RunsWithoutReturn(b: Bytes)
    requires CR !in b
    ensures Runs(0, b) == b
  {
    if b != [] {
      assert b[0] != CR;
      RunsWithoutReturn(b[1..]);
      assert b == [b[0]] + b[1..];
      if b[0] == LF {
        assert Times(LF, 1) == [LF];
      } else {
        assert Times(LF, 0) + [b[0]] == [b[0]];
      }
    }
  }

  lemma NormTwice(b: Bytes)
    ensures CR !in Norm(b) && Norm(Norm(b)) == Norm(b)
  {
    hide Norm, Runs;
    NormIsRuns(b);
    RunsLeaveNoReturn(0, b);
    NormIsRuns(Norm(b));
    RunsWithoutReturn(Norm(b));
  }

  // ------------------------------------------------------------------
  // Undoing what files and terminals do to line feeds

  /** Every line feed becomes a return and a line feed: a text file saved on Windows, or a terminal's output. */
  function Crlf(t: Bytes): Bytes { Replace(t, [LF], [CR, LF]) }

  function CrlfTimes(n: nat, t: Bytes): Bytes {
    if n == 0 then t else Crlf(CrlfTimes(n - 1, t))
  }

  /** Every line feed led by n returns. */
  function Led(n: nat, t: Bytes): Bytes {
    if t == [] then []
    else (if t[0] == LF then Times(CR, n) else []) + [t[0]] + Led(n, t[1..])
  }

  /** Every line feed m times. */
  function Stretched(m: nat, t: Bytes): Bytes {
    if t == [] then []
    else (if t[0] == LF then Times(LF, m) else [t[0]]) + Stretched(m, t[1..])
  }

  lemma CrlfUnfolds(b: Bytes)
    ensures Crlf(b) == if b == [] then [] else (if b[0] == LF then [CR, LF] else [b[0]]) + Crlf(b[1..])
  {
    if b != [] {
      assert b[..1] == [b[0]];
    }
  }

  lemma {:induction false} CrlfOverReturns(n: nat, rest: Bytes)
    ensures Crlf(Times(CR, n) + rest) == Times(CR, n) + Crlf(rest)
  {
    hide Crlf, Times;
    if n == 0 {
      assert Times(CR, n) + rest == rest;
    } else {
      Peel(CR, n, rest);
      CrlfUnfolds(Times(CR, n) + rest);
      CrlfOverReturns(n - 1, rest);
      OneMore(CR, n - 1, Crlf(rest));
    }
  }

  lemma CrlfOfLine(n: nat, rest: Bytes)
    ensures Crlf(Times(CR, n) + ([LF] + rest)) == Times(CR, n + 1) + ([LF] + Crlf(rest))
  {
    hide Crlf, Times;
    var line := [LF] + rest;
    assert line[1..] == rest;
    CrlfOverReturns(n, line);
    CrlfUnfolds(line);
    assert [CR, LF] + Crlf(rest) == [CR] + ([LF] + Crlf(rest));
    OneMore(CR, n, [LF] + Crlf(rest));
  }

  lemma CrlfOfByte(x: bv8, rest: Bytes)
    requires x != LF
    ensures Crlf([x] + rest) == [x] + Crlf(rest)
  {
    hide Crlf;
    CrlfUnfolds([x] + rest);
    assert ([x] + rest)[1..] == rest;
  }

  lemma {:induction false} CrlfOfLed(n: nat, t: Bytes)
    ensures Crlf(Led(n, t)) == Led(n + 1, t)
  {
    hide Crlf, Times, Led;
    LedUnfolds(n, t);
    LedUnfolds(n + 1, t);
    if t == [] {
      CrlfUnfolds([]);
    } else {
      CrlfOfLed(n, t[1..]);
      if t[0] == LF {
        CrlfOfLine(n, Led(n, t[1..]));
      } else {
        CrlfOfByte(t[0], Led(n, t[1..]));
      }
    }
  }

  lemma LedUnfolds(n: nat, t: Bytes)
    ensures Led(n, t) == if t == [] then [] else if t[0] == LF then Times(CR, n) + ([LF] + Led(n, t[1..]))
                         else [t[0]] + Led(n, t[1..])
  {
    if t != [] {
      assert Times(CR, n) + ([LF] + Led(n, t[1..])) == Times(CR, n) + [LF] + Led(n, t[1..]);
      assert [] + [t[0]] == [t[0]];
    }
  }

  lemma {:induction false} LedByNone(t: Bytes)
    ensures Led(0, t) == t
  {
    if t != [] {
      LedByNone(t[1..]);
      assert Times(CR, 0) + [t[0]] == [t[0]];
    }
  }

  lemma {:induction false} CrlfTimesIsLed(n: nat, t: Bytes)
    ensures CrlfTimes(n, t) == Led(n, t)
  {
    hide Crlf, Led;
    if n == 0 {
      LedByNone(t);
    } else {
      CrlfTimesIsLed(n - 1, t);
      CrlfOfLed(n - 1, t);
    }
  }

  lemma {:induction false} RunsOfLed(n: nat, t: Bytes)
    requires CR !in t
    ensures Norm(Led(n, t)) == Stretched(LinesFor(n), t)
  {
    hide Norm;
    if t == [] {
      NormOnEnd(0);
      assert Times(CR, 0) == [];
    } else {
      assert t[0] != CR;
      RunsOfLed(n, t[1..]);
      if t[0] == LF {
        NormOnRun(n, Led(n, t[1..]));
      } else {
        NormOnOther(0, t[0], Led(n, t[1..]));
        assert Times(CR, 0) + [t[0]] == [t[0]] == Times(LF, 0) + [t[0]];
      }
    }
  }

  lemma {:induction false} StretchedOnce(t: Bytes)
    ensures Stretched(1, t) == t
  {
    if t != [] {
      StretchedOnce(t[1..]);
      assert Times(LF, 1) == [LF];
    }
  }

  lemma {:induction false} StretchedGrows(m: nat, t: Bytes)
    requires m > 1
    ensures |Stretched(m, t)| >= |t|
    ensures |Stretched(m, t)| == |t| <==> LF !in t
    ensures LF !in t ==> Stretched(m, t) == t
  {
    if t != [] {
      StretchedGrows(m, t[1..]);
      assert t == [t[0]] + t[1..];
    }
  }

  /**
   A text without returns comes back exactly from n rewritings of its line
   feeds iff there were at most three of them, or it has no line feed.
   */
  lemma CrlfUndoneIff(n: nat, t: Bytes)
    requires CR !in t
    ensures Norm(CrlfTimes(n, t)) == t <==> n <= 3 || LF !in t
  {
    hide Norm, CrlfTimes, Led, Stretched;
    CrlfTimesIsLed(n, t);
    RunsOfLed(n, t);
    if n <= 3 {
      StretchedOnce(t);
    } else {
      StretchedGrows(n - 2, t);
    }
  }

  /** Why the double return goes first: without the first replacement one blank line is made of every line end. */
  lemma OrderMatters(t: Bytes)
    requires CR !in t
    ensures Third(Second(CrlfTimes(2, t))) == Stretched(2, t)
  {
    hide CrlfTimes, Led;
    CrlfTimesIsLed(2, t);
    LastTwoOfLed(t);
  }

  lemma {:induction false} LastTwoOfLed(t: Bytes)
    requires CR !in t
    ensures Third(Second(Led(2, t))) == Stretched(2, t)
  {
    hide Second, Third, Replace;
    if t == [] {
      SecondUnfolds([]);
      ThirdUnfolds([]);
    } else {
      var rest := Led(2, t[1..]);
      LastTwoOfLed(t[1..]);
      assert t[0] != CR;
      if t[0] == LF {
        SecondOnRun(2, rest);
        ThirdOnLine(1, Second(rest));
      } else {
        var b := [t[0]] + rest;
        assert b[1..] == rest;
        SecondKeepsOne(b);
        var c := [t[0]] + Second(rest);
        assert c[1..] == Second(rest);
        ThirdUnfolds(c);
        assert Led(2, t) == b;
      }
    }
  }
}
