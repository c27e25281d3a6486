/** Which of the drops counted 1, 2, 3, ... are logged: the bit test n&(n-1) == 0, and how often it holds. */
module DropLog {
  /** Bitwise and of two unsigned numbers. */
  function And(a: nat, b: nat): nat {
    if a == 0 || b == 0 then 0 else (if a % 2 == 1 && b % 2 == 1 then 1 else 0) + 2 * And(a / 2, b / 2)
  }

  predicate PowerOfTwo(n: nat) {
    n == 1 || (n > 0 && n % 2 == 0 && PowerOfTwo(n / 2))
  }

  function Pow2(k: nat): nat {
    if k == 0 then 1 else 2 * Pow2(k - 1)
  }

  lemma {:induction false} AndSelf(n: nat)
    ensures And(n, n) == n
    decreases n
  {
    if n > 0 { AndSelf(n / 2); }
  }

  /** The bit test is exact. */
  lemma {:induction false} BitTest(n: nat)
    requires n > 0
    ensures And(n, n - 1) == 0 <==> PowerOfTwo(n)
    decreases n
  {
    if n % 2 == 1 {
      assert (n - 1) / 2 == n / 2 && (n - 1) % 2 == 0;
      AndSelf(n / 2);
    } else {
      assert (n - 1) / 2 == n / 2 - 1;
      BitTest(n / 2);
    }
  }

  function FloorLog2(n: nat): nat
    requires n > 0
  {
    if n == 1 then 0 else 1 + FloorLog2(n / 2)
  }

  lemma {:induction false} FloorLog2Bounds(n: nat)
    requires n > 0
    ensures Pow2(FloorLog2(n)) <= n < Pow2(FloorLog2(n) + 1)
    decreases n
  {
    if n > 1 { FloorLog2Bounds(n / 2); }
  }

  lemma {:induction false} FloorLog2Step(n: nat)
    requires n > 1
    ensures FloorLog2(n) == FloorLog2(n - 1) + if PowerOfTwo(n) then 1 else 0
    decreases n
  {
    if n % 2 == 1 {
      assert (n - 1) / 2 == n / 2;
    } else if n > 2 {
      assert (n - 1) / 2 == n / 2 - 1;
      FloorLog2Step(n / 2);
    }
  }

  /** The counts logged while the counter rises from 0 to drops. */
  function LoggedUpTo(drops: nat): seq<nat> {
    if drops == 0 then [] else LoggedUpTo(drops - 1) + if PowerOfTwo(drops) then [drops] else []
  }

  /** What route's loop adds to the log when a drop raises the counter to n. */
  function LogLine(n: nat): seq<nat> {
    if n != 0 && And(n, n - 1) == 0 then [n] else []
  }

  lemma LoggedNext(n: nat)
    requires n > 0
    ensures LoggedUpTo(n) == LoggedUpTo(n - 1) + LogLine(n)
  {
    BitTest(n);
  }

  /** d drops are logged floor(log2 d) + 1 times: at 1, 2, 4, and so on, so the log grows with the logarithm of the drops
      and its last message is never behind by more than a factor of two. */
  lemma {:induction false} LogIsLogarithmic(drops: nat)
    requires drops > 0
    ensures |LoggedUpTo(drops)| == FloorLog2(drops) + 1
    ensures forall i :: 0 <= i < |LoggedUpTo(drops)| ==> LoggedUpTo(drops)[i] == Pow2(i)
    ensures LoggedUpTo(drops)[|LoggedUpTo(drops)| - 1] <= drops < 2 * LoggedUpTo(drops)[|LoggedUpTo(drops)| - 1]
    decreases drops
  {
    FloorLog2Bounds(drops);
    if drops > 1 {
      LogIsLogarithmic(drops - 1);
      FloorLog2Step(drops);
      if PowerOfTwo(drops) { PowerIsPow2(drops); }
    } else {
      assert LoggedUpTo(0) == [];
    }
  }

  lemma {:induction false} PowerIsPow2(n: nat)
    requires PowerOfTwo(n)
    ensures n == Pow2(FloorLog2(n))
    decreases n
  {
    if n > 1 { PowerIsPow2(n / 2); }
  }
}
