/** Round-robin selection of event queues: the k-th selection (from 1) picks queue k mod n. */
module RoundRobin {

  /** How many of the selections 1..k pick queue `q` out of `n`. */
  function Picks(n: nat, k: nat, q: nat): nat
    requires n > 0
  {
    if k == 0 then 0 else Picks(n, k - 1, q) + if k % n == q then 1 else 0
  }

  lemma NextMod(k: nat, n: nat)
    requires n > 0
    ensures (k % n + 1) % n == (k + 1) % n
    ensures (k + 1) % n == if k % n + 1 == n then 0 else k % n + 1
    ensures (k + 1) / n == k / n + if k % n + 1 == n then 1 else 0
  {
    var d, m := k / n, k % n;
    assert k + 1 == d * n + (m + 1);
    if m + 1 == n {
      assert k + 1 == (d + 1) * n;
      DivMod(d + 1, 0, n);
      DivMod(1, 0, n);
    } else {
      DivMod(d, m + 1, n);
      DivMod(0, m + 1, n);
    }
  }

  lemma DivMod(d: nat, m: nat, n: nat)
    requires m < n
    ensures (d * n + m) / n == d && (d * n + m) % n == m
  {
    var x := d * n + m;
    var e, f := x / n, x % n;
    assert e * n + f == d * n + m;
    assert (e - d) * n == m - f;
    if e != d {
      NoSmallMultiple(e - d, n);
      assert false;
    }
  }

  lemma NoSmallMultiple(x: int, n: nat)
    requires x != 0
    ensures x * n + n <= 0 || x * n >= n
  {
  }

  /** The exact share of queue `q`: one pick per full round, and one more if the current round has
      passed it. */
  lemma PicksExactly(n: nat, k: nat, q: nat)
    requires n > 0 && q < n
    ensures Picks(n, k, q) == k / n + if 0 < q <= k % n then 1 else 0
  {
    if k > 0 {
      PicksExactly(n, k - 1, q);
      NextMod(k - 1, n);
    }
  }

  /** After any number of selections no queue is ahead of another by more than one. */
  lemma Balanced(n: nat, k: nat, p: nat, q: nat)
    requires n > 0 && p < n && q < n
    ensures Picks(n, k, p) <= Picks(n, k, q) + 1
  {
    PicksExactly(n, k, p);
    PicksExactly(n, k, q);
  }

  /** Any n consecutive selections pick every queue exactly once. */
  lemma EveryRoundOnce(n: nat, k: nat, q: nat)
    requires n > 0 && q < n
    ensures Picks(n, k + n, q) == Picks(n, k, q) + 1
  {
    AnotherRound(k, n);
    PicksExactly(n, k, q);
    PicksExactly(n, k + n, q);
  }

  lemma AnotherRound(k: nat, n: nat)
    requires n > 0
    ensures (k + n) / n == k / n + 1 && (k + n) % n == k % n
  {
    var d, m := k / n, k % n;
    assert k + n == (d + 1) * n + m;
    DivMod(d + 1, m, n);
  }
}
