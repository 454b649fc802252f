/** The list of sleepers. The key of each is its delay counted from the one before it; what
    a sleeper has left is the sum up to itself. */
module KernelSleep {
  import opened KernelQueues

  ghost predicate Keyed(l: seq<nat>, keys: seq<int>) {
    |keys| == NPROC && Procs(l)
  }

  /** What the j-th sleeper has left. */
  ghost function Left(l: seq<nat>, keys: seq<int>, j: nat): int
    requires Keyed(l, keys) && j < |l|
  {
    keys[l[j]] + if j == 0 then 0 else Left(l, keys, j - 1)
  }

  lemma {:induction false} LeftSame(l: seq<nat>, keys: seq<int>, m: seq<nat>, keys': seq<int>, j: nat)
    requires Keyed(l, keys) && Keyed(m, keys') && j < |l| && j < |m|
    requires forall a :: 0 <= a <= j ==> keys[l[a]] == keys'[m[a]]
    ensures Left(l, keys, j) == Left(m, keys', j)
  {
    if j > 0 {
      LeftSame(l, keys, m, keys', j - 1);
    }
  }

  /** Nobody but the first may have a negative key, and the last wakes within 2^31 ticks. */
  ghost predicate Delays(l: seq<nat>, keys: seq<int>)
    requires Keyed(l, keys)
  {
    && (forall j :: 0 < j < |l| ==> keys[l[j]] >= 0)
    && (|l| > 0 ==> keys[l[0]] >= -1 && Left(l, keys, |l| - 1) - (if keys[l[0]] < 0 then keys[l[0]] else 0) <= MAXKEY)
  }

  /** The walk of insertd: all before the place have no more left than d, all from it on
      have more, and the rest of d is counted from the one before the place. */
  lemma {:induction false} PlaceFacts(l: seq<nat>, keys: seq<int>, k: nat, d: int, d0: int)
    requires Keyed(l, keys) && k <= |l| && d == d0 - (if k == 0 then 0 else Left(l, keys, k - 1))
    requires forall j :: 0 <= j < |l| ==> keys[l[j]] >= 0
    requires d >= 0
    ensures var (m, r) := DPlace(l, keys, k, d);
            && k <= m <= |l| && r >= 0 && r == d0 - (if m == 0 then 0 else Left(l, keys, m - 1))
            && (m < |l| ==> keys[l[m]] > r)
    decreases |l| - k
  {
    if k < |l| && keys[l[k]] <= d {
      PlaceFacts(l, keys, k + 1, d - keys[l[k]], d0);
    }
  }

  /** A newcomer goes behind all who have no more left than it, also those with the same, and in
      front of all who have more. */
  lemma PlacedBehind(l: seq<nat>, keys: seq<int>, d: nat, j: nat)
    requires Keyed(l, keys) && (forall a :: 0 <= a < |l| ==> keys[l[a]] >= 0) && j < |l|
    ensures Left(l, keys, j) <= d <==> j < DPlace(l, keys, 0, d).0
  {
    PlaceFacts(l, keys, 0, d, d);
    hide DPlace;
    var n := DPlace(l, keys, 0, d).0;
    if j < n {
      LeftMono(l, keys, j, n - 1);
    } else {
      LeftMono(l, keys, n, j);
    }
  }

  /** The list and the keys after p came in with delay d. */
  ghost function Sleepers(l: seq<nat>, keys: seq<int>, p: nat, d: int): seq<nat>
    requires Keyed(l, keys)
  {
    PutAt(l, DPlace(l, keys, 0, d).0, p)
  }

  lemma PutKeys(l: seq<nat>, keys: seq<int>, p: nat, d: int, j: nat)
    requires Keyed(l, keys) && Once(l) && p !in l && p < NPROC && j <= |l|
    ensures var (a, r) := DPlace(l, keys, 0, d);
            var m := Sleepers(l, keys, p, d);
            && Keyed(m, DKeys(l, keys, p, d)) && |m| == |l| + 1
            && DKeys(l, keys, p, d)[m[j]] == (if j < a then keys[l[j]] else if j == a then r
                                              else if j == a + 1 then keys[l[a]] - r else keys[l[j - 1]])
  {
    var a := DPlace(l, keys, 0, d).0;
    assert forall b :: 0 <= b < |l| ==> l[b] in l;
    assert forall b :: 0 <= b < |l| && b != a && a < |l| ==> l[b] != l[a];
  }

  /** insertd changes what nobody else has left. */
  lemma {:induction false} PutLeft(l: seq<nat>, keys: seq<int>, p: nat, d: int, j: nat)
    requires Keyed(l, keys) && Once(l) && p !in l && p < NPROC && d >= 0 && j <= |l|
    requires forall j :: 0 <= j < |l| ==> keys[l[j]] >= 0
    ensures var m := Sleepers(l, keys, p, d);
            var a := DPlace(l, keys, 0, d).0;
            && Keyed(m, DKeys(l, keys, p, d)) && |m| == |l| + 1
            && Left(m, DKeys(l, keys, p, d), j) ==
               (if j < a then Left(l, keys, j) else if j == a then d else Left(l, keys, j - 1))
            && DKeys(l, keys, p, d)[m[j]] >= 0
    decreases j
  {
    hide DPlace, DKeys, Sleepers;
    PlaceFacts(l, keys, 0, d, d);
    PutKeys(l, keys, p, d, j);
    if j > 0 {
      PutLeft(l, keys, p, d, j - 1);
    }
  }

  /** The keys after the one behind the a-th took over its delay. */
  ghost function Relayed(l: seq<nat>, keys: seq<int>, a: nat): (r: seq<int>)
    requires Keyed(l, keys) && a < |l|
    ensures |r| == |keys|
  {
    if a + 1 < |l| then keys[l[a + 1] := keys[l[a + 1]] + keys[l[a]]] else keys
  }

  /** Neither does unsleep. */
  lemma {:induction false} CutLeft(l: seq<nat>, keys: seq<int>, a: nat, j: nat)
    requires Keyed(l, keys) && Once(l) && a < |l| && j + 1 < |l|
    ensures Keyed(CutAt(l, a), Relayed(l, keys, a))
    ensures Left(CutAt(l, a), Relayed(l, keys, a), j) == if j < a then Left(l, keys, j) else Left(l, keys, j + 1)
    decreases j
  {
    assert forall b :: 0 <= b < |l| && b != a + 1 && a + 1 < |l| ==> l[b] != l[a + 1];
    if j > 0 {
      CutLeft(l, keys, a, j - 1);
    }
  }

  /** A tick takes one from everybody, through the first. */
  lemma {:induction false} TickLeft(l: seq<nat>, keys: seq<int>, j: nat)
    requires Keyed(l, keys) && Once(l) && j < |l|
    ensures Left(l, keys[l[0] := keys[l[0]] - 1], j) == Left(l, keys, j) - 1
    decreases j
  {
    assert forall b :: 0 < b < |l| ==> l[b] != l[0];
    if j > 0 {
      TickLeft(l, keys, j - 1);
    }
  }

  lemma {:induction false} PopLeft(l: seq<nat>, keys: seq<int>, j: nat)
    requires Keyed(l, keys) && j + 1 < |l|
    ensures Keyed(l[1..], keys) && Left(l[1..], keys, j) == Left(l, keys, j + 1) - keys[l[0]]
    decreases j
  {
    if j > 0 {
      PopLeft(l, keys, j - 1);
    }
  }

  /** Nobody waits less than the one before. */
  lemma {:induction false} LeftMono(l: seq<nat>, keys: seq<int>, i: nat, j: nat)
    requires Keyed(l, keys) && i <= j < |l| && forall b :: 0 < b < |l| ==> keys[l[b]] >= 0
    ensures Left(l, keys, i) <= Left(l, keys, j)
    decreases j
  {
    if i < j {
      LeftMono(l, keys, i, j - 1);
    }
  }

  lemma PutDelays(l: seq<nat>, keys: seq<int>, p: nat, d: int)
    requires Keyed(l, keys) && Once(l) && p !in l && p < NPROC && 0 <= d <= MAXKEY
    requires Delays(l, keys) && (|l| > 0 ==> keys[l[0]] >= 0)
    ensures Keyed(Sleepers(l, keys, p, d), DKeys(l, keys, p, d))
    ensures Delays(Sleepers(l, keys, p, d), DKeys(l, keys, p, d))
            && DKeys(l, keys, p, d)[Sleepers(l, keys, p, d)[0]] >= 0
  {
    forall j | 0 <= j <= |l|
      ensures DKeys(l, keys, p, d)[Sleepers(l, keys, p, d)[j]] >= 0
    {
      PutLeft(l, keys, p, d, j);
    }
    PutLeft(l, keys, p, d, |l|);
  }

  lemma CutDelays(l: seq<nat>, keys: seq<int>, a: nat)
    requires Keyed(l, keys) && Once(l) && a < |l| && Delays(l, keys) && keys[l[0]] >= 0
    ensures Keyed(CutAt(l, a), Relayed(l, keys, a)) && Delays(CutAt(l, a), Relayed(l, keys, a))
    ensures |l| > 1 ==> Relayed(l, keys, a)[CutAt(l, a)[0]] >= 0
  {
    if |l| > 1 {
      CutLeft(l, keys, a, |l| - 2);
      LeftMono(l, keys, |l| - 2, |l| - 1);
    }
    assert forall b :: 0 <= b < |l| && b != a + 1 && a + 1 < |l| ==> l[b] != l[a + 1];
  }

  lemma PopDelays(l: seq<nat>, keys: seq<int>)
    requires Keyed(l, keys) && |l| > 0 && Delays(l, keys) && keys[l[0]] <= 0
    ensures Keyed(l[1..], keys) && Delays(l[1..], keys) && (|l| > 1 ==> keys[l[1..][0]] >= 0)
  {
    if |l| > 1 {
      PopLeft(l, keys, |l| - 2);
    }
  }

  lemma TickDelays(l: seq<nat>, keys: seq<int>)
    requires Keyed(l, keys) && Once(l) && |l| > 0 && Delays(l, keys) && keys[l[0]] >= 0
    ensures Delays(l, keys[l[0] := keys[l[0]] - 1])
  {
    TickLeft(l, keys, |l| - 1);
    assert forall b :: 0 < b < |l| ==> l[b] != l[0];
  }
}
