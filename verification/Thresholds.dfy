/** The three vote thresholds a session derives from the number n of nodes of its chain. */
module Thresholds {
  import opened Sets

  const WORD := 0x1_0000_0000_0000_0000

  /** Node ids of a chain are 32-bit keys of a map, so a chain has at most this many nodes. */
  const MAX_NODES := 0x1_0000_0000

  /** The number of faulty nodes tolerated; the unsigned decrement wraps when n is 0. */
  function GetT(n: nat): nat {
    var t := n / 3;
    if t * 3 == n then (t + WORD - 1) % WORD else t
  }

  /** The number of ECHO messages that lets a node send READY; the sum is taken on 64 bits. */
  function GetEchoTarget(n: nat, t: nat): nat {
    var sum := (n + t + 1) % WORD;
    sum / 2 + sum % 2
  }

  /** What the rest of the model uses of the two functions. */
  ghost predicate Thresholds(n: nat, t: nat, q: nat) {
    3 * t < n <= 3 * t + 3 && n + t + 1 <= 2 * q <= n + t + 2
  }

  lemma {:induction false} ThresholdsHold(n: nat)
    requires 1 <= n <= MAX_NODES
    ensures Thresholds(n, GetT(n), GetEchoTarget(n, GetT(n)))
  {
    var t := n / 3;
    if t * 3 == n {
      assert t + WORD - 1 == (t - 1) + WORD;
      assert GetT(n) == t - 1;
    } else {
      assert GetT(n) == t;
    }
    var sum := n + GetT(n) + 1;
    assert sum % WORD == sum;
  }

  /** t is the largest number of faults below a third of the nodes. */
  lemma {:induction false} TIsLargest(n: nat, k: nat)
    requires 1 <= n <= MAX_NODES
    ensures 3 * k < n <==> k <= GetT(n)
  {
    ThresholdsHold(n);
  }

  /** The echo target is the least size for which two quorums must share more than t nodes. */
  lemma {:induction false} EchoTargetIsLeast(n: nat, k: nat)
    requires 1 <= n <= MAX_NODES
    ensures 2 * k - n > GetT(n) <==> k >= GetEchoTarget(n, GetT(n))
  {
    ThresholdsHold(n);
  }

  /** Both the echo target and the delivery threshold can be met by the correct nodes alone. */
  lemma {:induction false} CorrectNodesSuffice(n: nat)
    requires 1 <= n <= MAX_NODES
    ensures GetEchoTarget(n, GetT(n)) <= n - GetT(n)
    ensures 2 * GetT(n) + 1 <= n - GetT(n)
    ensures 1 <= GetEchoTarget(n, GetT(n))
  {
    ThresholdsHold(n);
  }

  /** On a chain without nodes the decrement wraps, and then the sum wraps: the echo target is 0. */
  lemma {:induction false} EmptyChain()
    ensures GetT(0) == WORD - 1 && GetEchoTarget(0, GetT(0)) == 0
  {
    assert (WORD - 1) % WORD == WORD - 1;
  }

  /** Quorum intersection: two echo quorums of one chain share more than t nodes. */
  lemma {:induction false} QuorumsIntersect<T>(a: set<T>, b: set<T>, parties: set<T>, t: nat, q: nat)
    requires Thresholds(|parties|, t, q)
    requires a <= parties && b <= parties && |a| >= q && |b| >= q
    ensures |a * b| > t
  {
    Overlap(a, b, parties);
  }
}
