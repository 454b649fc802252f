/** Time slices: what the clock does to the processes that share the processor. */
module KernelSlice {
  import opened KernelQueues
  import opened KernelSleep
  import opened KernelSpec
  import opened KernelInv
  import opened KernelCalls
  import opened KernelProcs
  import opened KernelFrame
  import opened KernelRuns
  import opened KernelLaws

  /** The first n of a list, behind c. */
  lemma FirstOf(c: nat, l: seq<nat>, n: nat, p: nat)
    requires n <= |l| && c !in l && Once(l)
    ensures Once([c] + l[..n])
    ensures p in [c] + l[..n] <==> p == c || exists j :: 0 <= j < n && l[j] == p
  {
    var r := [c] + l[..n];
    assert forall j :: 0 <= j < |r| ==> r[j] == if j == 0 then c else l[j - 1];
    assert forall j :: 0 <= j < n ==> l[j] in l;
    if j: nat :| j < n && l[j] == p {
      assert r[j + 1] == p;
    }
  }

  /** The ring is the current process and, each once, the ready ones of its priority. */
  lemma RingMembers(k: K, p: nat)
    requires Inv(k) && k.ndefers == 0 && p < NPROC
    ensures Sized(k) && Once(Ring(k))
    ensures p in Ring(k) <==>
            k.procs[p].prstate in {PR_CURR, PR_READY} && k.procs[p].prprio == k.procs[k.currpid].prprio
  {
    InvSized(k);
    ReadyFacts(k);
    CurrentIs(k, p);
    hide Inv, Place, Once;
    var l, n := k.lists[RL], Place(k.lists[RL], k.keys, k.procs[k.currpid].prprio);
    FirstOf(k.currpid, l, n, p);
    if p in l {
      var j :| 0 <= j < |l| && l[j] == p;
      assert j < n || k.keys[l[j]] <= k.keys[l[n]];
    }
  }

  lemma CurrentIs(k: K, p: nat)
    requires Inv(k) && p < NPROC
    ensures Sized(k) && Once(k.lists[RL])
    ensures k.procs[p].prstate == PR_CURR <==> p == k.currpid
    ensures k.procs[p].prstate == PR_READY <==> p in k.lists[RL]
  {
    hide SemsOf, ReadyOf, Delays;
  }

  /** The clock handler after wakeup: while the slice lasts it only counts it down. At its end
      the slice is two ticks again, and the next of the ring runs, the former one going to the
      end; if rescheduling is put off, only that is noted. */
  lemma SliceGives(k: K)
    requires Inv(k)
    ensures Sized(k) && k.preempt in {1, 2}
    ensures var t := Slice(k);
            if k.preempt == 2 then t == k.(preempt := 1, ctx := k.ctx[k.currpid := Nothing])
            else if k.ndefers > 0 then t == k.(preempt := 2, attempt := true, ctx := k.ctx[k.currpid := Nothing])
            else
              && t.preempt == 2 && Ring(t) == Ring(k)[1..] + [Ring(k)[0]]
              && t.currpid == (if |Ring(k)| > 1 then Ring(k)[1] else k.currpid)
  {
    InvSized(k);
    Fresh(k);
    hide Inv;
    var t := SetCtx(k, Nothing).(preempt := QUANTUM);
    if k.ndefers == 0 {
      ReschedTurns(t);
      Refilled(t);
      assert Ring(t) == Ring(k);
    }
  }

  /** With a new slice. */
  lemma Fresh(k: K)
    requires Inv(k)
    ensures Sized(k) && k.preempt in {1, 2} && Inv(SetCtx(k, Nothing).(preempt := QUANTUM))
  {
    hide MembersOf, StatesOf, SemsOf, ReadyOf, Delays;
    CtxKeeps(k, Nothing);
  }

  lemma Refilled(k: K)
    requires Sized(k) && k.preempt == QUANTUM
    ensures Resched(k).preempt == QUANTUM
  {
    hide PutAt, Place;
  }

  /** A process that yields, or sleeps for no time, goes to the end of the ring. */
  lemma YieldGives(k: K)
    requires Inv(k) && k.ndefers == 0
    ensures Sized(k) && SleepMs(k, 0) == Resched(k) && Ring(SleepMs(k, 0)) == Ring(k)[1..] + [Ring(k)[0]]
  {
    hide Inv, Resched;
    ReschedTurns(k);
  }

  // ---- runs of the clock ----

  /** n interrupts of the clock. */
  function Interrupts(n: nat): (es: seq<Step>)
    ensures |es| == 2 * n
  {
    if n == 0 then [] else [ClockTick, ClockRest] + Interrupts(n - 1)
  }

  /** Nobody wakes up at the next n ticks, and no call is under way in the ring. */
  ghost predicate Calm(k: K, n: nat) {
    && Inv(k) && Sized(k) && k.ndefers == 0
    && (|k.lists[SQ]| > 0 ==> k.keys[k.lists[SQ][0]] > n)
    && forall j :: 0 <= j < |Ring(k)| ==> Ring(k)[j] < NPROC && k.ctx[Ring(k)[j]] == Nothing
  }

  lemma TickGives(k: K, n: nat)
    requires Calm(k, n) && n > 0
    ensures Sized(k) && Enabled(k, ClockTick)
    ensures var t := Do(k, ClockTick);
            && Inv(t) && t.ndefers == 0 && t.currpid == k.currpid && t.preempt == k.preempt && Ring(t) == Ring(k)
            && t.lists == k.lists && t.ctx == k.ctx[k.currpid := InClock]
            && (|t.lists[SQ]| > 0 ==> t.keys[t.lists[SQ][0]] > n - 1)
  {
    hide Inv, Place, Wakeup;
    assert k.ctx[Ring(k)[0]] == Nothing;
    StepKeeps(k, ClockTick);
    if |k.lists[SQ]| > 0 {
      SleeperElsewhere(k);
      var u := SetCtx(k, InClock);
      var keys := k.keys[k.lists[SQ][0] := k.keys[k.lists[SQ][0]] - 1];
      assert Do(k, ClockTick) == u.(keys := keys);
      SamePlace(k.lists[RL], k.keys, keys, k.procs[k.currpid].prprio);
    }
  }

  /** No sleeper is ready. */
  lemma SleeperElsewhere(k: K)
    requires Inv(k)
    ensures Sized(k) && (|k.lists[SQ]| > 0 ==> k.lists[SQ][0] !in k.lists[RL])
  {
    hide StatesOf, SemsOf, ReadyOf, Delays;
    assert |k.lists[SQ]| > 0 ==> k.lists[SQ][0] in k.lists[SQ];
  }

  lemma SamePlace(l: seq<nat>, keys: seq<int>, keys': seq<int>, key: int)
    requires forall j :: 0 <= j < |l| ==> l[j] < |keys| == |keys'| && keys'[l[j]] == keys[l[j]]
    ensures Place(l, keys', key) == Place(l, keys, key)
  {
    PlaceIs(l, keys', key, Place(l, keys, key));
  }

  lemma RestGives(k: K, n: nat)
    requires Inv(k) && Sized(k) && k.ndefers == 0 && k.ctx[k.currpid] == InClock
    requires |k.lists[SQ]| > 0 ==> k.keys[k.lists[SQ][0]] > n
    requires forall j :: 1 <= j < |Ring(k)| ==> Ring(k)[j] < NPROC && k.ctx[Ring(k)[j]] == Nothing
    ensures Enabled(k, ClockRest)
    ensures var t := Do(k, ClockRest);
            && Calm(t, n) && t.preempt == (if k.preempt == 2 then 1 else 2)
            && Ring(t) == (if k.preempt == 2 then Ring(k) else Turned(Ring(k)))
  {
    hide Inv, Slice, Resched, Place;
    StepKeeps(k, ClockRest);
    RestTurns(k);
    RestQuiet(k, n);
    SliceCtx(k);
    NothingOn(Ring(k), k.ctx, k.currpid);
    hide Ring, Turned;
  }

  lemma RestTurns(k: K)
    requires Inv(k) && Sized(k) && k.ndefers == 0
    ensures Slice(k).preempt == (if k.preempt == 2 then 1 else 2)
    ensures Ring(Slice(k)) == (if k.preempt == 2 then Ring(k) else Turned(Ring(k)))
  {
    hide Inv, Slice, Resched, Place;
    SliceGives(k);
    if k.preempt == 2 {
      assert Ring(Slice(k)) == Ring(k);
    }
  }

  lemma RestQuiet(k: K, n: nat)
    requires Inv(k) && Sized(k) && (|k.lists[SQ]| > 0 ==> k.keys[k.lists[SQ][0]] > n)
    ensures |Slice(k).lists[SQ]| > 0 ==> Slice(k).keys[Slice(k).lists[SQ][0]] > n
  {
    hide Inv, Slice;
    SliceSpares(k, -2, -2);
  }

  /** Once its own call is over, nobody in the ring is in the middle of one. */
  lemma NothingOn(l: seq<nat>, ctx: seq<Ctx>, c: nat)
    requires |l| > 0 && l[0] == c < |ctx|
    requires forall j :: 1 <= j < |l| ==> l[j] < |ctx| && ctx[l[j]] == Nothing
    ensures forall j :: 0 <= j < |l| ==> l[j] < |ctx| && ctx[c := Nothing][l[j]] == Nothing
    ensures forall j :: 0 <= j < |l| ==> Turned(l)[j] < |ctx| && ctx[c := Nothing][Turned(l)[j]] == Nothing
  {
  }

  lemma SliceCtx(k: K)
    requires Sized(k)
    ensures Slice(k).ctx == k.ctx[k.currpid := Nothing] && (k.ndefers == 0 ==> Slice(k).ndefers == 0)
  {
    hide PutAt, Place;
  }

  /** One interrupt. */
  lemma OneInterrupt(k: K, n: nat)
    requires Calm(k, n) && n > 0
    ensures Sized(k) && Enabled(k, ClockTick) && Enabled(Do(k, ClockTick), ClockRest)
    ensures var t := Do(Do(k, ClockTick), ClockRest);
            && Calm(t, n - 1) && t.preempt == (if k.preempt == 2 then 1 else 2)
            && Ring(t) == (if k.preempt == 2 then Ring(k) else Turned(Ring(k)))
  {
    hide Inv, Do, Enabled, Ring;
    TickGives(k, n);
    RingApart(k);
    RestGives(Do(k, ClockTick), n - 1);
  }

  /** The current process is not again further on in the ring. */
  lemma RingApart(k: K)
    requires Inv(k) && k.ndefers == 0
    ensures Sized(k) && forall j :: 1 <= j < |Ring(k)| ==> Ring(k)[j] != k.currpid
  {
    hide Inv;
    RingMembers(k, 0);
  }

  lemma RunOn(k: K, es: seq<Step>)
    requires Sized(k) && Enabled(k, ClockTick) && Enabled(Do(k, ClockTick), ClockRest)
    requires Runs(Do(Do(k, ClockTick), ClockRest), es)
    ensures Runs(k, [ClockTick, ClockRest] + es)
    ensures After(k, [ClockTick, ClockRest] + es) == After(Do(Do(k, ClockTick), ClockRest), es)
  {
    hide Do, Enabled;
    var fs := [ClockTick, ClockRest] + es;
    assert fs[1..] == [ClockRest] + es && fs[1..][1..] == es;
  }

  /** Turning first is the same as turning last. */
  lemma {:induction false} RotatedFirst(l: seq<nat>, m: nat)
    requires |l| > 0
    ensures Rotated(Turned(l), m) == Rotated(l, m + 1)
  {
    hide Turned;
    if m > 0 {
      RotatedFirst(l, m - 1);
    }
  }

  lemma Halves(n: nat, p: int, m: nat)
    requires n > 0 && p in {1, 2} && m == (n + 2 - p) / 2
    ensures var q := if p == 2 then 1 else 2;
            && (n - 1 + 2 - q) / 2 == (if p == 2 then m else m - 1) && (n - 1 + 2 - q) % 2 == (n + 2 - p) % 2
            && (p == 1 ==> m > 0)
  {
  }

  lemma {:induction false} RingTurns(k: K, n: nat, m: nat)
    requires Calm(k, n) && k.preempt in {1, 2} && m == (n + 2 - k.preempt) / 2
    ensures Sized(k) && Runs(k, Interrupts(n))
    ensures var t := After(k, Interrupts(n));
            Calm(t, 0) && Ring(t) == Rotated(Ring(k), m) && t.preempt == 2 - (n + 2 - k.preempt) % 2
    decreases n
  {
    hide Inv, Do, Enabled, Ring, Turned, Runs, After;
    if n > 0 {
      OneInterrupt(k, n);
      Halves(n, k.preempt, m);
      var t := Do(Do(k, ClockTick), ClockRest);
      if k.preempt == 2 {
        RingTurns(t, n - 1, m);
      } else {
        RingTurns(t, n - 1, m - 1);
        RotatedFirst(Ring(k), m - 1);
      }
      RunOn(k, Interrupts(n - 1));
    } else {
      NoneRun(k);
    }
  }

  lemma NoneRun(k: K)
    ensures Runs(k, []) && After(k, []) == k
  {
  }

  /** While nobody wakes up, every second interrupt of the clock turns the ring by one: after
      n interrupts the process runs that stands that far round. */
  lemma ClockTurns(k: K, n: nat)
    requires Calm(k, n)
    ensures Sized(k) && k.preempt in {1, 2} && Runs(k, Interrupts(n))
    ensures var t := After(k, Interrupts(n));
            && Calm(t, 0) && t.preempt == 2 - (n + 2 - k.preempt) % 2
            && t.currpid == Round(Ring(k), (n + 2 - k.preempt) / 2)
  {
    hide Inv, Do, Enabled, Runs, After, Interrupts, Round, Rotated;
    SliceGives(k);
    var m := (n + 2 - k.preempt) / 2;
    RingTurns(k, n, m);
    RotatedAt(Ring(k), m, 0);
  }
}
