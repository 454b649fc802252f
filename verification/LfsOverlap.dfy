/** Writing index blocks when calls overlap: lfibput reads the sector of seven index blocks, and
    writes it back with one of them replaced. lfsetup and lftruncate do so under the mutex of
    the directory, lflclose without it. Everything between the read and the write of one
    process may be done by others. */
module LfsOverlap {
  import opened LfsTypes

  /** A process is at rest, or has read a sector and is about to write it back. */
  datatype Put<B> = Rest | Copied(n: nat, block: B, image: seq<B>, locked: bool)

  datatype Disk<B> = Disk(ib: seq<B>, procs: seq<Put<B>>, mutex: bool)

  datatype Step<B> = Start(p: nat, n: nat, block: B, locked: bool) | Finish(p: nat)

  function First(n: nat): nat {
    n / IB_PER_SECTOR * IB_PER_SECTOR
  }

  ghost predicate Whole<B>(s: Disk<B>) {
    && |s.ib| % IB_PER_SECTOR == 0
    && forall p :: 0 <= p < |s.procs| && s.procs[p].Copied? ==>
         s.procs[p].n < |s.ib| && |s.procs[p].image| == IB_PER_SECTOR
  }

  lemma SectorFits(size: nat, n: nat)
    requires size % IB_PER_SECTOR == 0 && n < size
    ensures First(n) <= n < First(n) + IB_PER_SECTOR <= size && n - First(n) == n % IB_PER_SECTOR
  {
  }

  ghost predicate Enabled<B>(s: Disk<B>, e: Step<B>) {
    Whole(s) &&
    match e
    case Start(p, n, block, locked) => p < |s.procs| && s.procs[p].Rest? && n < |s.ib| && (locked ==> !s.mutex)
    case Finish(p) => p < |s.procs| && s.procs[p].Copied?
  }

  ghost function Do<B>(s: Disk<B>, e: Step<B>): (t: Disk<B>)
    requires Enabled(s, e)
    ensures Whole(t) && |t.ib| == |s.ib| && |t.procs| == |s.procs|
  {
    match e
    case Start(p, n, block, locked) =>
      SectorFits(|s.ib|, n);
      var image := s.ib[First(n)..First(n) + IB_PER_SECTOR];
      s.(procs := s.procs[p := Copied(n, block, image, locked)], mutex := s.mutex || locked)
    case Finish(p) =>
      var c := s.procs[p];
      SectorFits(|s.ib|, c.n);
      var image := c.image[c.n - First(c.n) := c.block];
      Disk(s.ib[..First(c.n)] + image + s.ib[First(c.n) + IB_PER_SECTOR..], s.procs[p := Rest], s.mutex && !c.locked)
  }

  // ---- one put ----

  /** The other blocks of the sector are on disk as they were read. */
  ghost predicate Current<B>(s: Disk<B>, p: nat)
    requires Whole(s) && p < |s.procs| && s.procs[p].Copied?
  {
    var c := s.procs[p];
    forall k :: 0 <= k < |s.ib| && k != c.n && First(k) == First(c.n) ==> InImage(s, p, k)
  }

  predicate InImage<B(==)>(s: Disk<B>, p: nat, k: nat)
    requires p < |s.procs| && s.procs[p].Copied? && k < |s.ib|
  {
    First(k) <= k < First(k) + |s.procs[p].image| && s.procs[p].image[k - First(k)] == s.ib[k]
  }

  lemma AfterFinish<B>(s: Disk<B>, p: nat, k: nat)
    requires Enabled(s, Finish(p)) && k < |s.ib|
    ensures var c := s.procs[p];
            && First(k) <= k < First(k) + IB_PER_SECTOR
            && Do(s, Finish(p)).ib[k] ==
               if k == c.n then c.block else if First(k) == First(c.n) then c.image[k - First(k)] else s.ib[k]
  {
    SectorFits(|s.ib|, s.procs[p].n);
    SectorFits(|s.ib|, k);
  }

  /** The put replaces its index block and nothing else if and only if nobody has changed another
      block of the sector since it was read. */
  lemma FinishExactly<B>(s: Disk<B>, p: nat)
    requires Enabled(s, Finish(p))
    ensures s.procs[p].n < |s.ib|
    ensures Do(s, Finish(p)).ib == s.ib[s.procs[p].n := s.procs[p].block] <==> Current(s, p)
  {
    hide Do;
    var c, t := s.procs[p], Do(s, Finish(p));
    forall k | 0 <= k < |s.ib|
      ensures First(k) <= k < First(k) + IB_PER_SECTOR
      ensures t.ib[k] == if k == c.n then c.block else if First(k) == First(c.n) then c.image[k - First(k)] else s.ib[k]
    {
      AfterFinish(s, p, k);
    }
    if t.ib == s.ib[c.n := c.block] {
      forall k | 0 <= k < |s.ib| && k != c.n && First(k) == First(c.n)
        ensures InImage(s, p, k)
      {
        assert t.ib[k] == s.ib[k];
      }
    }
    if Current(s, p) {
      forall k | 0 <= k < |s.ib|
        ensures t.ib[k] == s.ib[c.n := c.block][k]
      {
        assert k != c.n && First(k) == First(c.n) ==> InImage(s, p, k);
      }
    }
  }

  // ---- runs ----

  ghost predicate Runs<B>(s: Disk<B>, es: seq<Step<B>>)
    decreases |es|
  {
    |es| == 0 || (Enabled(s, es[0]) && Runs(Do(s, es[0]), es[1..]))
  }

  ghost function After<B>(s: Disk<B>, es: seq<Step<B>>): Disk<B>
    requires Runs(s, es)
    decreases |es|
  {
    if |es| == 0 then s else After(Do(s, es[0]), es[1..])
  }

  /** No put is under way on the sector of n. */
  ghost predicate Alone<B>(s: Disk<B>, n: nat) {
    forall q :: 0 <= q < |s.procs| && s.procs[q].Copied? ==> First(s.procs[q].n) != First(n)
  }

  /** Whenever a put starts, no other is under way on its sector. */
  ghost predicate Apart<B>(s: Disk<B>, es: seq<Step<B>>)
    requires Runs(s, es)
    decreases |es|
  {
    |es| > 0 ==> (es[0].Start? ==> Alone(s, es[0].n)) && Apart(Do(s, es[0]), es[1..])
  }

  /** The puts that end in the run, in this order. */
  ghost function Puts<B>(s: Disk<B>, es: seq<Step<B>>): seq<(nat, B)>
    requires Runs(s, es)
    decreases |es|
  {
    if |es| == 0 then []
    else
      (if es[0].Finish? then [(s.procs[es[0].p].n, s.procs[es[0].p].block)] else []) + Puts(Do(s, es[0]), es[1..])
  }

  /** Index blocks after puts that do not overlap at all. */
  function Applied<B>(ib: seq<B>, puts: seq<(nat, B)>): seq<B>
    decreases |puts|
  {
    if |puts| == 0 then ib
    else Applied(if puts[0].0 < |ib| then ib[puts[0].0 := puts[0].1] else ib, puts[1..])
  }

  /** All puts under way are on sectors of their own, which are as they were read. */
  ghost predicate Orderly<B>(s: Disk<B>) {
    && Whole(s)
    && (forall p :: 0 <= p < |s.procs| && s.procs[p].Copied? ==> Current(s, p))
    && (forall p, q :: 0 <= p < q < |s.procs| && s.procs[p].Copied? && s.procs[q].Copied? ==>
          First(s.procs[p].n) != First(s.procs[q].n))
  }

  lemma StartOrderly<B>(s: Disk<B>, e: Step<B>)
    requires Orderly(s) && Enabled(s, e) && e.Start? && Alone(s, e.n)
    ensures Orderly(Do(s, e)) && Do(s, e).ib == s.ib
  {
    var t := Do(s, e);
    SectorFits(|s.ib|, e.n);
    forall k | 0 <= k < |s.ib| && First(k) == First(e.n)
      ensures InImage(t, e.p, k)
    {
      SectorFits(|s.ib|, k);
    }
    forall p | 0 <= p < |s.procs| && p != e.p && s.procs[p].Copied?
      ensures Current(t, p)
    {
      assert Current(s, p);
      assert forall k :: 0 <= k < |s.ib| && k != s.procs[p].n && First(k) == First(s.procs[p].n) ==>
          InImage(s, p, k) && InImage(t, p, k);
    }
  }

  lemma FinishOrderly<B>(s: Disk<B>, e: Step<B>)
    requires Orderly(s) && Enabled(s, e) && e.Finish?
    ensures s.procs[e.p].n < |s.ib|
    ensures Orderly(Do(s, e)) && Do(s, e).ib == s.ib[s.procs[e.p].n := s.procs[e.p].block]
  {
    var t, n := Do(s, e), s.procs[e.p].n;
    FinishExactly(s, e.p);
    hide Do;
    assert t.procs == s.procs[e.p := Rest] by {
      FinishRests(s, e.p);
    }
    forall p | 0 <= p < |s.procs| && p != e.p && s.procs[p].Copied?
      ensures Current(t, p)
    {
      assert Current(s, p);
      assert First(s.procs[p].n) != First(n);
      forall k | 0 <= k < |s.ib| && k != s.procs[p].n && First(k) == First(s.procs[p].n)
        ensures InImage(t, p, k)
      {
        assert InImage(s, p, k);
      }
    }
  }

  lemma FinishRests<B>(s: Disk<B>, p: nat)
    requires Enabled(s, Finish(p))
    ensures Do(s, Finish(p)).procs == s.procs[p := Rest]
  {
  }

  /** If no put starts on a sector on which another is under way, the index blocks are those of
      the same puts one after the other. */
  lemma {:induction false} OneAfterTheOther<B>(s: Disk<B>, es: seq<Step<B>>)
    requires Orderly(s) && Runs(s, es) && Apart(s, es)
    ensures After(s, es).ib == Applied(s.ib, Puts(s, es))
    decreases |es|
  {
    hide Orderly, Do, Enabled, Alone;
    if |es| > 0 {
      var t := Do(s, es[0]);
      if es[0].Start? {
        StartOrderly(s, es[0]);
        OneAfterTheOther(t, es[1..]);
        assert [] + Puts(t, es[1..]) == Puts(t, es[1..]);
      } else {
        FinishOrderly(s, es[0]);
        OneAfterTheOther(t, es[1..]);
        EndsAPut(s, es[0]);
        var first := (s.procs[es[0].p].n, s.procs[es[0].p].block);
        assert ([first] + Puts(t, es[1..]))[1..] == Puts(t, es[1..]);
      }
    }
  }

  lemma EndsAPut<B>(s: Disk<B>, e: Step<B>)
    requires Enabled(s, e) && e.Finish?
    ensures e.p < |s.procs| && s.procs[e.p].Copied?
  {
  }

  // ---- with the mutex ----

  /** A put is under way only while the mutex is held. */
  ghost predicate Locked<B>(s: Disk<B>) {
    && (forall p :: 0 <= p < |s.procs| && s.procs[p].Copied? ==> s.mutex && s.procs[p].locked)
    && (forall p, q :: 0 <= p < q < |s.procs| ==> s.procs[p].Rest? || s.procs[q].Rest?)
  }

  ghost predicate AllLock<B>(es: seq<Step<B>>) {
    forall j :: 0 <= j < |es| && es[j].Start? ==> es[j].locked
  }

  /** If all puts are made under the mutex they are apart. */
  lemma {:induction false} LockedApart<B>(s: Disk<B>, es: seq<Step<B>>)
    requires Locked(s) && Runs(s, es) && AllLock(es)
    ensures Apart(s, es)
    decreases |es|
  {
    if |es| > 0 {
      assert es[0].Start? ==> es[0].locked && Alone(s, es[0].n);
      LockedApart(Do(s, es[0]), es[1..]);
    }
  }

  // ---- without ----

  /** Two processes put index blocks, and the first writes after the second has read. */
  function Crossed<B>(p: nat, q: nat, n1: nat, b1: B, l1: bool, n2: nat, b2: B, l2: bool): seq<Step<B>> {
    [Start(p, n1, b1, l1), Start(q, n2, b2, l2), Finish(p), Finish(q)]
  }

  /** Up to the last write, for puts that do not both lock. */
  ghost predicate Halfway<B>(s: Disk<B>, v: Disk<B>, es: seq<Step<B>>, q: nat, n1: nat, b1: B, n2: nat, b2: B)
    requires n1 < |s.ib|
  {
    && v.ib == s.ib[n1 := b1] && Enabled(v, Finish(q)) && n2 < |s.ib| && First(n2) + IB_PER_SECTOR <= |s.ib|
    && v.procs[q].n == n2 && v.procs[q].block == b2
    && v.procs[q].image == s.ib[First(n2)..First(n2) + IB_PER_SECTOR]
    && Runs(s, es) && After(s, es).ib == Do(v, Finish(q)).ib
  }

  lemma CrossedRuns<B>(s: Disk<B>, p: nat, q: nat, n1: nat, b1: B, l1: bool, n2: nat, b2: B, l2: bool)
    requires Whole(s) && !s.mutex && p < |s.procs| && q < |s.procs| && p != q
    requires s.procs[p].Rest? && s.procs[q].Rest? && n1 < |s.ib| && n2 < |s.ib|
    requires l1 && l2
    ensures !Runs(s, Crossed(p, q, n1, b1, l1, n2, b2, l2))
  {
    var es := Crossed(p, q, n1, b1, l1, n2, b2, l2);
    assert es[1..][0] == es[1];
    assert Enabled(s, es[0]) && !Enabled(Do(s, es[0]), es[1]);
  }

  lemma CrossedSteps<B>(s: Disk<B>, p: nat, q: nat, n1: nat, b1: B, l1: bool, n2: nat, b2: B,
                        l2: bool) returns (v: Disk<B>)
    requires Whole(s) && !s.mutex && p < |s.procs| && q < |s.procs| && p != q
    requires s.procs[p].Rest? && s.procs[q].Rest? && n1 < |s.ib| && n2 < |s.ib|
    requires !(l1 && l2)
    ensures Halfway(s, v, Crossed(p, q, n1, b1, l1, n2, b2, l2), q, n1, b1, n2, b2)
  {
    var es := Crossed(p, q, n1, b1, l1, n2, b2, l2);
    SectorFits(|s.ib|, n1);
    SectorFits(|s.ib|, n2);
    var t := Do(s, es[0]);
    var u := Do(t, es[1]);
    assert Current(u, p) by {
      forall k | 0 <= k < |u.ib| && First(k) == First(n1)
        ensures InImage(u, p, k)
      {
        SectorFits(|s.ib|, k);
      }
    }
    FinishExactly(u, p);
    FinishRests(u, p);
    v := Do(u, es[2]);
    FourSteps(s, es);
  }

  lemma FourSteps<B>(s: Disk<B>, es: seq<Step<B>>)
    requires |es| == 4 && Enabled(s, es[0]) && Enabled(Do(s, es[0]), es[1])
    requires Enabled(Do(Do(s, es[0]), es[1]), es[2]) && Enabled(Do(Do(Do(s, es[0]), es[1]), es[2]), es[3])
    ensures Runs(s, es) && After(s, es) == Do(Do(Do(Do(s, es[0]), es[1]), es[2]), es[3])
  {
    hide Enabled, Do, Runs, After;
    var t := Do(s, es[0]);
    var u := Do(t, es[1]);
    var v := Do(u, es[2]);
    NoSteps(Do(v, es[3]));
    MoreSteps(v, es[3], []);
    MoreSteps(u, es[2], [es[3]] + []);
    MoreSteps(t, es[1], [es[2]] + ([es[3]] + []));
    MoreSteps(s, es[0], [es[1]] + ([es[2]] + ([es[3]] + [])));
    assert es == [es[0]] + ([es[1]] + ([es[2]] + ([es[3]] + [])));
  }

  lemma NoSteps<B>(s: Disk<B>)
    ensures Runs(s, []) && After(s, []) == s
  {
  }

  lemma MoreSteps<B>(s: Disk<B>, e: Step<B>, es: seq<Step<B>>)
    requires Enabled(s, e) && Runs(Do(s, e), es)
    ensures Runs(s, [e] + es) && After(s, [e] + es) == After(Do(s, e), es)
  {
    assert ([e] + es)[1..] == es;
  }

  /** That can happen unless both hold the mutex, and both puts take effect if and only if they are
      on different sectors, or on the same index block, or the first changes nothing. */
  lemma CrossedExactly<B>(s: Disk<B>, p: nat, q: nat, n1: nat, b1: B, l1: bool, n2: nat, b2: B, l2: bool)
    requires Whole(s) && !s.mutex && p < |s.procs| && q < |s.procs| && p != q
    requires s.procs[p].Rest? && s.procs[q].Rest? && n1 < |s.ib| && n2 < |s.ib|
    ensures Runs(s, Crossed(p, q, n1, b1, l1, n2, b2, l2)) <==> !(l1 && l2)
    ensures !(l1 && l2) ==>
              (After(s, Crossed(p, q, n1, b1, l1, n2, b2, l2)).ib == s.ib[n1 := b1][n2 := b2] <==>
               First(n1) != First(n2) || n1 == n2 || s.ib[n1] == b1)
  {
    hide Runs, After, Do, Crossed, First;
    if l1 && l2 {
      CrossedRuns(s, p, q, n1, b1, l1, n2, b2, l2);
    } else {
      var v := CrossedSteps(s, p, q, n1, b1, l1, n2, b2, l2);
      FinishExactly(v, q);
      CurrentExactly(s, v, q, n1, b1, n2);
    }
  }

  lemma CurrentExactly<B>(s: Disk<B>, v: Disk<B>, q: nat, n1: nat, b1: B, n2: nat)
    requires n1 < |s.ib| && n2 < |s.ib| && v.ib == s.ib[n1 := b1] && Enabled(v, Finish(q)) && v.procs[q].n == n2
    requires First(n2) + IB_PER_SECTOR <= |s.ib| && v.procs[q].image == s.ib[First(n2)..First(n2) + IB_PER_SECTOR]
    ensures Current(v, q) <==> First(n1) != First(n2) || n1 == n2 || s.ib[n1] == b1
  {
    forall k | 0 <= k < |s.ib| && First(k) == First(n2)
      ensures InImage(v, q, k) <==> s.ib[k] == v.ib[k]
    {
      SectorFits(|s.ib|, k);
    }
  }
}
