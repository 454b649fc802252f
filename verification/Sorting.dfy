/** qsort: sorting an array in place, with a band of elements equal to the pivot that grows in
    the middle. Positions count elements. */
module Sorting {

  /** The sign of a comparison is that of a total preorder. */
  ghost predicate Preorder<T(!new)>(cmp: (T, T) -> int) {
    && (forall x, y :: cmp(x, y) < 0 <==> cmp(y, x) > 0)
    && (forall x, y, z :: cmp(x, y) <= 0 && cmp(y, z) <= 0 ==> cmp(x, z) <= 0)
  }

  /** s[x..y] is in order. */
  ghost predicate Sorted<T(!new)>(s: seq<T>, x: int, y: int, cmp: (T, T) -> int) {
    forall i, j :: 0 <= x <= i <= j < y <= |s| ==> cmp(s[i], s[j]) <= 0
  }

  /** t is s with s[x..y] rearranged. */
  ghost predicate Permuted<T>(s: seq<T>, t: seq<T>, x: int, y: int) {
    && |s| == |t| && 0 <= x <= y <= |s|
    && s[..x] == t[..x] && s[y..] == t[y..] && multiset(s[x..y]) == multiset(t[x..y])
  }

  // ---- the order ----

  lemma Below<T(!new)>(cmp: (T, T) -> int, x: T, y: T, z: T)
    requires Preorder(cmp) && cmp(y, z) == 0
    ensures cmp(z, y) == 0 && cmp(x, x) == 0
    ensures cmp(x, y) < 0 <==> cmp(x, z) < 0
    ensures cmp(x, y) > 0 <==> cmp(x, z) > 0
    ensures cmp(x, y) < 0 <==> cmp(y, x) > 0
    ensures cmp(x, y) > 0 <==> cmp(y, x) < 0
  {
    assert cmp(y, x) <= 0 && cmp(z, y) <= 0 ==> cmp(z, x) <= 0;
    assert cmp(z, x) <= 0 && cmp(y, z) <= 0 ==> cmp(y, x) <= 0;
  }

  lemma Under<T(!new)>(cmp: (T, T) -> int, x: T, y: T, z: T)
    requires Preorder(cmp) && cmp(x, y) <= 0 && cmp(y, z) <= 0
    ensures cmp(x, z) <= 0
  {
  }

  // ---- rearranging ----

  function Swapped<T>(s: seq<T>, i: int, j: int): (t: seq<T>)
    requires 0 <= i < |s| && 0 <= j < |s|
    ensures |t| == |s|
  {
    s[i := s[j]][j := s[i]]
  }

  lemma SwapPermutes<T>(s: seq<T>, i: int, j: int, x: int, y: int)
    requires 0 <= x <= i < y <= |s| && x <= j < y
    ensures Permuted(s, Swapped(s, i, j), x, y)
  {
    var t := Swapped(s, i, j);
    assert t[x..y] == s[x..y][i - x := s[x..y][j - x]][j - x := s[x..y][i - x]];
  }

  lemma PermutedTwice<T>(s: seq<T>, t: seq<T>, u: seq<T>, x: int, y: int)
    requires Permuted(s, t, x, y) && Permuted(t, u, x, y)
    ensures Permuted(s, u, x, y)
  {
  }

  /** A rearrangement of a part is one of the whole. */
  lemma Wider<T>(s: seq<T>, t: seq<T>, x: int, y: int, lo: int, hi: int)
    requires Permuted(s, t, x, y) && 0 <= lo <= x && y <= hi <= |s|
    ensures Permuted(s, t, lo, hi)
  {
    assert s[..lo] == s[..x][..lo] && t[..lo] == t[..x][..lo];
    assert s[hi..] == s[y..][hi - y..] && t[hi..] == t[y..][hi - y..];
    assert s[lo..hi] == s[..x][lo..] + s[x..y] + s[y..][..hi - y];
    assert t[lo..hi] == t[..x][lo..] + t[x..y] + t[y..][..hi - y];
  }

  lemma Untouched<T>(s: seq<T>, t: seq<T>, x: int, y: int, k: int)
    requires Permuted(s, t, x, y) && 0 <= k < |s| && (k < x || k >= y)
    ensures t[k] == s[k]
  {
    assert k < x ==> s[k] == s[..x][k] && t[k] == t[..x][k];
    assert k >= y ==> s[k] == s[y..][k - y] && t[k] == t[y..][k - y];
  }

  /** What is at k came from somewhere in the part. */
  lemma Origin<T>(s: seq<T>, t: seq<T>, x: int, y: int, k: int) returns (m: int)
    requires Permuted(s, t, x, y) && x <= k < y
    ensures x <= m < y && t[k] == s[m]
  {
    assert t[x..y][k - x] in multiset(t[x..y]);
    assert t[k] in s[x..y];
    var n :| 0 <= n < y - x && s[x..y][n] == t[k];
    m := x + n;
  }

  // ---- the band ----

  /** s[lo..lp] is below the band s[lp..hp + 1], whose elements are equal, and s[hp + 1..hi] is
      above it. */
  ghost predicate Parted<T(!new)>(s: seq<T>, lo: int, lp: int, hp: int, hi: int, cmp: (T, T) -> int) {
    && 0 <= lo <= lp <= hp < hi <= |s|
    && (forall k :: lo <= k < lp ==> cmp(s[k], s[lp]) < 0)
    && (forall k :: lp <= k <= hp ==> cmp(s[k], s[lp]) == 0)
    && (forall k :: hp < k < hi ==> cmp(s[k], s[lp]) > 0)
  }

  lemma PartedKept<T(!new)>(s: seq<T>, t: seq<T>, lo: int, lp: int, hp: int, hi: int, x: int, y: int,
                            cmp: (T, T) -> int)
    requires Parted(s, lo, lp, hp, hi, cmp) && Permuted(s, t, x, y)
    requires lo <= x && (y <= lp || (hp < x && y <= hi))
    ensures Parted(t, lo, lp, hp, hi, cmp)
  {
    hide Permuted;
    assert |s| == |t| by {
      SameLength(s, t, x, y);
    }
    Untouched(s, t, x, y, lp);
    forall k | lo <= k < hi
      ensures k < lp ==> cmp(t[k], t[lp]) < 0
      ensures lp <= k <= hp ==> cmp(t[k], t[lp]) == 0
      ensures hp < k ==> cmp(t[k], t[lp]) > 0
    {
      if x <= k < y {
        var m := Origin(s, t, x, y, k);
      } else {
        Untouched(s, t, x, y, k);
      }
    }
  }

  lemma SameLength<T>(s: seq<T>, t: seq<T>, x: int, y: int)
    requires Permuted(s, t, x, y)
    ensures |s| == |t| && 0 <= x <= y <= |s|
  {
  }

  /** Order on both sides of the band is order everywhere. */
  lemma Glued<T(!new)>(s: seq<T>, lo: int, lp: int, hp: int, hi: int, cmp: (T, T) -> int)
    requires Preorder(cmp) && Parted(s, lo, lp, hp, hi, cmp) && Sorted(s, lo, lp, cmp) && Sorted(s, hp + 1, hi, cmp)
    ensures Sorted(s, lo, hi, cmp)
  {
    hide Preorder;
    forall i, j | lo <= i <= j < hi
      ensures cmp(s[i], s[j]) <= 0
    {
      if i <= hp && j >= lp {
        Below(cmp, s[j], s[lp], s[lp]);
        Under(cmp, s[i], s[lp], s[j]);
      }
    }
  }

  /** To sort s[lo..hi] it is enough to sort s[x..y]. */
  ghost predicate Remains<T(!new)>(s: seq<T>, x: int, y: int, lo: int, hi: int, cmp: (T, T) -> int) {
    forall t: seq<T> :: Permuted(s, t, x, y) && Sorted(t, x, y, cmp) ==> Sorted(t, lo, hi, cmp)
  }

  /** Once the part s[u..v] on one side of the band is sorted, as in t, only the part on the
      other side remains. */
  lemma OneSide<T(!new)>(s: seq<T>, t: seq<T>, x: int, lp: int, hp: int, y: int, lo: int, hi: int, left: bool,
                         cmp: (T, T) -> int)
    requires Preorder(cmp) && Parted(s, x, lp, hp, y, cmp) && Remains(s, x, y, lo, hi, cmp)
    requires var u, v := if left then x else hp + 1, if left then lp else y;
             Permuted(s, t, u, v) && Sorted(t, u, v, cmp)
    ensures if left then Remains(t, hp + 1, y, lo, hi, cmp) else Remains(t, x, lp, lo, hi, cmp)
  {
    hide Preorder, Permuted, Parted, Sorted;
    var u, v := if left then x else hp + 1, if left then lp else y;
    var p, q := if left then hp + 1 else x, if left then y else lp;
    assert 0 <= x <= lp <= hp < y <= |s| by {
      PartedBounds(s, x, lp, hp, y, cmp);
    }
    PartedKept(s, t, x, lp, hp, y, u, v, cmp);
    Wider(s, t, u, v, x, y);
    SameLength(s, t, u, v);
    forall w: seq<T> | Permuted(t, w, p, q) && Sorted(w, p, q, cmp)
      ensures Sorted(w, lo, hi, cmp)
    {
      PartedKept(t, w, x, lp, hp, y, p, q, cmp);
      SortedKept(t, w, u, v, p, q, cmp);
      Glued(w, x, lp, hp, y, cmp);
      Wider(t, w, p, q, x, y);
      PermutedTwice(s, t, w, x, y);
    }
  }

  lemma PartedBounds<T(!new)>(s: seq<T>, lo: int, lp: int, hp: int, hi: int, cmp: (T, T) -> int)
    requires Parted(s, lo, lp, hp, hi, cmp)
    ensures 0 <= lo <= lp <= hp < hi <= |s|
  {
  }

  lemma SortedKept<T(!new)>(s: seq<T>, t: seq<T>, u: int, v: int, x: int, y: int, cmp: (T, T) -> int)
    requires Sorted(s, u, v, cmp) && Permuted(s, t, x, y) && 0 <= u && v <= |s| && (v <= x || y <= u)
    ensures Sorted(t, u, v, cmp)
  {
    hide Permuted;
    SameLength(s, t, x, y);
    forall i, j | u <= i <= j < v
      ensures cmp(t[i], t[j]) <= 0
    {
      Untouched(s, t, x, y, i);
      Untouched(s, t, x, y, j);
    }
  }

  // ---- elements in memory ----

  /** Element k of a stretch of memory, when elements have es bytes. */
  function Cell<B>(s: seq<B>, es: nat, k: int): (c: seq<B>)
    requires 0 <= k && k * es + es <= |s|
    ensures |c| == es
  {
    s[k * es..k * es + es]
  }

  lemma CellFits(n: nat, es: nat, k: int)
    requires 0 <= k < n
    ensures 0 <= k * es && k * es + es <= n * es
  {
    assert (k + 1) * es <= n * es;
  }

  lemma CellsApart(es: nat, i: int, k: int)
    requires i < k
    ensures i * es + es <= k * es
  {
    assert (i + 1) * es <= k * es;
  }

  /** All n of them. */
  ghost function Cells<B>(s: seq<B>, es: nat, n: nat): (r: seq<seq<B>>)
    requires |s| == n * es
    ensures |r| == n
  {
    seq(n, k requires 0 <= k < n => CellFits(n, es, k); Cell(s, es, k))
  }

  /** The first m bytes from p and from q on have changed places. */
  ghost predicate Exchanged<B>(s: seq<B>, t: seq<B>, p: int, q: int, m: int) {
    && |t| == |s| && 0 <= m && 0 <= p && 0 <= q && p + m <= |s| && q + m <= |s|
    && forall x {:trigger t[x]} :: 0 <= x < |s| ==>
         t[x] == if p <= x < p + m then s[q + x - p] else if q <= x < q + m then s[p + x - q] else s[x]
  }

  lemma ExchangedParts<B>(s: seq<B>, t: seq<B>, p: int, q: int, n: int, y: int)
    requires Exchanged(s, t, p, q, n) && Disjoint(p, q, n) && 0 <= y && y + n <= |s|
    ensures t[p..p + n] == s[q..q + n] && t[q..q + n] == s[p..p + n]
    ensures y != p && y != q && Disjoint(p, y, n) && Disjoint(q, y, n) ==> t[y..y + n] == s[y..y + n]
  {
  }

  lemma ExchangedCells<B>(s: seq<B>, t: seq<B>, es: nat, n: nat, i: int, j: int)
    requires 0 <= i < n && 0 <= j < n && |s| == n * es && Exchanged(s, t, i * es, j * es, es)
    ensures |t| == n * es && Cells(t, es, n) == Swapped(Cells(s, es, n), i, j)
  {
    hide Exchanged;
    CellFits(n, es, i);
    CellFits(n, es, j);
    Beside(es, i, j);
    assert |t| == |s| by {
      SameSize(s, t, i * es, j * es, es);
    }
    forall k | 0 <= k < n
      ensures Cells(t, es, n)[k] == Swapped(Cells(s, es, n), i, j)[k]
    {
      CellFits(n, es, k);
      Beside(es, i, k);
      Beside(es, j, k);
      ExchangedParts(s, t, i * es, j * es, es, k * es);
    }
  }

  lemma SameSize<B>(s: seq<B>, t: seq<B>, p: int, q: int, n: int)
    requires Exchanged(s, t, p, q, n)
    ensures |t| == |s|
  {
  }

  /** Another element is before or behind. */
  lemma Beside(es: nat, i: int, k: int)
    ensures i != k ==> i * es + es <= k * es || k * es + es <= i * es
  {
    if i < k {
      CellsApart(es, i, k);
    } else if k < i {
      CellsApart(es, k, i);
    }
  }

  /** The first m bytes from p on are those from r on, these are those from q on, and these are
      those from p on. */
  ghost predicate Turned<B>(s: seq<B>, t: seq<B>, p: int, q: int, r: int, m: int) {
    && |t| == |s| && 0 <= m && 0 <= p && 0 <= q && 0 <= r && p + m <= |s| && q + m <= |s| && r + m <= |s|
    && forall x {:trigger t[x]} :: 0 <= x < |s| ==>
         t[x] == if p <= x < p + m then s[r + x - p]
                 else if q <= x < q + m then s[p + x - q]
                 else if r <= x < r + m then s[q + x - r]
                 else s[x]
  }

  /** Stretches of n bytes are the same or do not overlap. */
  predicate Disjoint(p: int, q: int, n: int) {
    p == q || p + n <= q || q + n <= p
  }

  lemma ExchangeOne<B>(s: seq<B>, t: seq<B>, p: int, q: int, m: int, n: int)
    requires Exchanged(s, t, p, q, m) && m < n && Disjoint(p, q, n) && p + n <= |s| && q + n <= |s|
    ensures Exchanged(s, t[p + m := t[q + m]][q + m := t[p + m]], p, q, m + 1)
  {
  }

  lemma TurnOne<B>(s: seq<B>, t: seq<B>, p: int, q: int, r: int, m: int, n: int)
    requires Turned(s, t, p, q, r, m) && m < n && p + n <= |s| && q + n <= |s| && r + n <= |s|
    requires Disjoint(p, q, n) && Disjoint(p, r, n) && Disjoint(q, r, n) && p != q && p != r
    ensures Turned(s, t[p + m := t[r + m]][r + m := t[q + m]][q + m := t[p + m]], p, q, r, m + 1)
  {
    var u := t[p + m := t[r + m]][r + m := t[q + m]][q + m := t[p + m]];
    assert t[p + m] == s[p + m] && t[q + m] == s[q + m] && t[r + m] == s[r + m];
    forall x | 0 <= x < |s| && x != p + m && x != q + m && x != r + m
      ensures u[x] == t[x]
    {
    }
  }

  lemma NotYet<B>(s: seq<B>, p: int, q: int, r: int)
    requires 0 <= p <= |s| && 0 <= q <= |s| && 0 <= r <= |s|
    ensures Exchanged(s, s, p, q, 0) && Turned(s, s, p, q, r, 0)
  {
  }

  lemma TurnedParts<B>(s: seq<B>, t: seq<B>, p: int, q: int, r: int, n: int, y: int)
    requires Turned(s, t, p, q, r, n) && 0 <= y && y + n <= |s|
    requires Disjoint(p, q, n) && Disjoint(p, r, n) && Disjoint(q, r, n) && p != q && p != r
    ensures |t| == |s| && t[p..p + n] == s[r..r + n] && t[q..q + n] == s[p..p + n]
    ensures q != r ==> t[r..r + n] == s[q..q + n]
    ensures y != p && y != q && y != r && Disjoint(p, y, n) && Disjoint(q, y, n) && Disjoint(r, y, n) ==>
              t[y..y + n] == s[y..y + n]
  {
  }

  /** What becomes of element h. */
  lemma TurnedCell<B>(s: seq<B>, t: seq<B>, es: nat, n: nat, i: int, j: int, k: int, h: int)
    requires 0 <= i < n && 0 <= j < n && 0 <= k < n && 0 <= h < n && i != j && i != k && |s| == n * es && es > 0
    requires Turned(s, t, i * es, j * es, k * es, es)
    ensures |t| == n * es
    ensures Cells(t, es, n)[h] == Cells(s, es, n)[if h == i then k else if h == j then i else if h == k then j else h]
  {
    hide Turned, Cells;
    CellFits(n, es, i);
    CellFits(n, es, j);
    CellFits(n, es, k);
    CellFits(n, es, h);
    Beside(es, i, j);
    Beside(es, i, k);
    Beside(es, j, k);
    Beside(es, i, h);
    Beside(es, j, h);
    Beside(es, k, h);
    TurnedParts(s, t, i * es, j * es, k * es, es, h * es);
    CellsAt(s, es, n, if h == i then k else if h == j then i else if h == k then j else h);
    CellsAt(t, es, n, h);
  }

  lemma CellsAt<B>(s: seq<B>, es: nat, n: nat, k: int)
    requires 0 <= k < n && |s| == n * es
    ensures 0 <= k * es && k * es + es <= |s| && Cells(s, es, n)[k] == s[k * es..k * es + es]
  {
    CellFits(n, es, k);
  }

  lemma TurnedCells<B>(s: seq<B>, t: seq<B>, es: nat, n: nat, i: int, j: int, k: int)
    requires 0 <= i < n && 0 <= j < n && 0 <= k < n && i != j && i != k && |s| == n * es && es > 0
    requires Turned(s, t, i * es, j * es, k * es, es)
    ensures |t| == n * es && Cells(t, es, n) == Swapped(Swapped(Cells(s, es, n), j, k), i, j)
  {
    hide Turned, Swapped, Cells;
    Rotated(Cells(s, es, n), i, j, k);
    TurnedCell(s, t, es, n, i, j, k, i);
    forall h | 0 <= h < n
      ensures Cells(t, es, n)[h] == Swapped(Swapped(Cells(s, es, n), j, k), i, j)[h]
    {
      TurnedCell(s, t, es, n, i, j, k, h);
    }
  }

  /** An array of n elements of es bytes each. */
  class Elements<B> {
    const mem: array<B>
    const es: nat
    const n: nat

    constructor (mem: array<B>, es: nat, n: nat)
      requires es > 0 && mem.Length == n * es
      ensures this.mem == mem && this.es == es && this.n == n && Valid()
    {
      this.mem, this.es, this.n := mem, es, n;
    }

    ghost predicate Valid() {
      es > 0 && mem.Length == n * es
    }

    ghost function View(): (r: seq<seq<B>>)
      reads mem
      requires Valid()
      ensures |r| == n
    {
      Cells(mem[..], es, n)
    }

    /** What a comparison gets to see. */
    function At(k: int): (c: seq<B>)
      reads mem
      requires Valid() && 0 <= k < n
      ensures c == View()[k]
    {
      CellFits(n, es, k);
      mem[k * es..k * es + es]
    }
  }

  // ---- the methods ----

  /** qsexc: two stretches of n bytes, byte by byte. */
  method Qsexc<B>(mem: array<B>, i: int, j: int, n: nat)
    requires 0 <= i && 0 <= j && i + n <= mem.Length && j + n <= mem.Length && Disjoint(i, j, n)
    modifies mem
    ensures Exchanged(old(mem[..]), mem[..], i, j, n)
  {
    hide Exchanged;
    ghost var s := mem[..];
    NotYet(s, i, j, 0);
    var m := 0;
    while m < n
      invariant 0 <= m <= n && Exchanged(s, mem[..], i, j, m)
    {
      ExchangeOne(s, mem[..], i, j, m, n);
      ghost var t := mem[..];
      var c := mem[i + m];
      mem[i + m] := mem[j + m];
      mem[j + m] := c;
      assert mem[..] == t[i + m := t[j + m]][j + m := t[i + m]];
      m := m + 1;
    }
  }

  /** qstexc: three stretches, of which the last two may be the same. */
  method Qstexc<B>(mem: array<B>, i: int, j: int, k: int, n: nat)
    requires 0 <= i && 0 <= j && 0 <= k && i + n <= mem.Length && j + n <= mem.Length && k + n <= mem.Length
    requires Disjoint(i, j, n) && Disjoint(i, k, n) && Disjoint(j, k, n) && i != j && i != k
    modifies mem
    ensures Turned(old(mem[..]), mem[..], i, j, k, n)
  {
    hide Turned;
    ghost var s := mem[..];
    NotYet(s, i, j, k);
    var m := 0;
    while m < n
      invariant 0 <= m <= n && Turned(s, mem[..], i, j, k, m)
    {
      TurnOne(s, mem[..], i, j, k, m, n);
      ghost var t := mem[..];
      var c := mem[i + m];
      mem[i + m] := mem[k + m];
      mem[k + m] := mem[j + m];
      mem[j + m] := c;
      assert mem[..] == t[i + m := t[k + m]][k + m := t[j + m]][j + m := t[i + m]];
      m := m + 1;
    }
  }

  /** Elements i and j change places. */
  method Exchange<B>(a: Elements<B>, i: int, j: int)
    requires a.Valid() && 0 <= i < a.n && 0 <= j < a.n
    modifies a.mem
    ensures a.View() == Swapped(old(a.View()), i, j)
  {
    hide Exchanged, Cells, Swapped;
    CellFits(a.n, a.es, i);
    CellFits(a.n, a.es, j);
    Beside(a.es, i, j);
    ghost var s := a.mem[..];
    Qsexc(a.mem, i * a.es, j * a.es, a.es);
    ExchangedCells(s, a.mem[..], a.es, a.n, i, j);
  }

  /** Element i becomes that of k, k that of j, and j that of i. */
  method Rotate<B>(a: Elements<B>, i: int, j: int, k: int)
    requires a.Valid() && 0 <= i < a.n && 0 <= j < a.n && 0 <= k < a.n && i != j && i != k
    modifies a.mem
    ensures a.View() == Swapped(Swapped(old(a.View()), j, k), i, j)
  {
    hide Turned, Cells, Swapped;
    CellFits(a.n, a.es, i);
    CellFits(a.n, a.es, j);
    CellFits(a.n, a.es, k);
    Beside(a.es, i, j);
    Beside(a.es, i, k);
    Beside(a.es, j, k);
    ghost var s := a.mem[..];
    Qstexc(a.mem, i * a.es, j * a.es, k * a.es, a.es);
    TurnedCells(s, a.mem[..], a.es, a.n, i, j, k);
  }

  /** The elements as far as they are known, p being the pivot: s[lo..i] is below it, the band
      is equal to it, and s[j + 1..hi] is above it. */
  ghost predicate Known<T(!new)>(was: seq<T>, s: seq<T>, lo: int, i: int, lp: int, hp: int, j: int, hi: int, p: T,
                                 cmp: (T, T) -> int) {
    && 0 <= lo <= i <= lp <= hp <= j < hi <= |s| && Permuted(was, s, lo, hi)
    && (Preorder(cmp) ==>
          && (forall k :: lo <= k < i ==> cmp(s[k], p) < 0)
          && (forall k :: lp <= k <= hp ==> cmp(s[k], p) == 0)
          && (forall k :: j < k < hi ==> cmp(s[k], p) > 0))
  }

  /** A comparison with an end of the band is one with the pivot. */
  lemma AsPivot<T(!new)>(was: seq<T>, s: seq<T>, lo: int, i: int, lp: int, hp: int, j: int, hi: int, p: T, x: T,
                         cmp: (T, T) -> int)
    requires Known(was, s, lo, i, lp, hp, j, hi, p, cmp) && Preorder(cmp)
    ensures cmp(x, s[lp]) < 0 <==> cmp(x, p) < 0
    ensures cmp(x, s[lp]) == 0 <==> cmp(x, p) == 0
    ensures cmp(s[hp], x) > 0 <==> cmp(x, p) < 0
    ensures cmp(s[hp], x) == 0 <==> cmp(x, p) == 0
  {
    hide Preorder;
    Below(cmp, x, s[lp], p);
    Below(cmp, x, s[hp], p);
  }

  lemma Rotated<T>(s: seq<T>, i: int, j: int, k: int)
    requires 0 <= i < |s| && 0 <= j < |s| && 0 <= k < |s| && i != j && i != k
    ensures var t := Swapped(Swapped(s, j, k), i, j);
            && t[i] == s[k] && t[j] == s[i] && (j != k ==> t[k] == s[j])
            && forall m :: 0 <= m < |s| && m != i && m != j && m != k ==> t[m] == s[m]
  {
  }

  /** An element equal to the pivot, on the left. */
  lemma LeftEqual<T(!new)>(was: seq<T>, s: seq<T>, lo: int, i: int, lp: int, hp: int, j: int, hi: int, p: T,
                           cmp: (T, T) -> int)
    requires Known(was, s, lo, i, lp, hp, j, hi, p, cmp)
    requires i < lp && cmp(s[i], s[lp]) == 0
    ensures Known(was, Swapped(s, i, lp - 1), lo, i, lp - 1, hp, j, hi, p, cmp)
  {
    hide Preorder, Permuted;
    Moved(was, s, i, lp - 1, lo, hi);
    if Preorder(cmp) {
      AsPivot(was, s, lo, i, lp, hp, j, hi, p, s[i], cmp);
    }
  }

  /** An element below the pivot, on the left. */
  lemma LeftBelow<T(!new)>(was: seq<T>, s: seq<T>, lo: int, i: int, lp: int, hp: int, j: int, hi: int, p: T,
                           cmp: (T, T) -> int)
    requires Known(was, s, lo, i, lp, hp, j, hi, p, cmp)
    requires i < lp && cmp(s[i], s[lp]) < 0
    ensures Known(was, s, lo, i + 1, lp, hp, j, hi, p, cmp)
  {
    hide Preorder;
    if Preorder(cmp) {
      AsPivot(was, s, lo, i, lp, hp, j, hi, p, s[i], cmp);
    }
  }

  /** An element equal to the pivot, on the right. */
  lemma RightEqual<T(!new)>(was: seq<T>, s: seq<T>, lo: int, i: int, lp: int, hp: int, j: int, hi: int, p: T,
                            cmp: (T, T) -> int)
    requires Known(was, s, lo, i, lp, hp, j, hi, p, cmp)
    requires j > hp && cmp(s[hp], s[j]) == 0
    ensures Stuck(s, i, lp, cmp) ==> Stuck(Swapped(s, hp + 1, j), i, lp, cmp)
    ensures Known(was, Swapped(s, hp + 1, j), lo, i, lp, hp + 1, j, hi, p, cmp)
  {
    hide Preorder, Permuted;
    Moved(was, s, hp + 1, j, lo, hi);
    if Preorder(cmp) {
      AsPivot(was, s, lo, i, lp, hp, j, hi, p, s[j], cmp);
    }
  }

  /** An element above the pivot, on the right. */
  lemma RightAbove<T(!new)>(was: seq<T>, s: seq<T>, lo: int, i: int, lp: int, hp: int, j: int, hi: int, p: T,
                            cmp: (T, T) -> int)
    requires Known(was, s, lo, i, lp, hp, j, hi, p, cmp)
    requires j > hp && cmp(s[hp], s[j]) < 0
    ensures Known(was, s, lo, i, lp, hp, j - 1, hi, p, cmp)
  {
    hide Preorder;
    if Preorder(cmp) {
      AsPivot(was, s, lo, i, lp, hp, j, hi, p, s[j], cmp);
    }
  }

  /** An element below the pivot, on the right, and nothing left on the left: the band moves up. */
  lemma BandUp<T(!new)>(was: seq<T>, s: seq<T>, lo: int, i: int, lp: int, hp: int, j: int, hi: int, p: T,
                        cmp: (T, T) -> int)
    requires Known(was, s, lo, i, lp, hp, j, hi, p, cmp)
    requires j > hp && cmp(s[hp], s[j]) > 0 && i == lp
    ensures Stuck(Swapped(Swapped(s, hp + 1, j), i, hp + 1), lp + 1, lp + 1, cmp)
    ensures Known(was, Swapped(Swapped(s, hp + 1, j), i, hp + 1), lo, lp + 1, lp + 1, hp + 1, j, hi, p, cmp)
  {
    hide Preorder, Permuted, Swapped;
    Rotated(s, i, hp + 1, j);
    Moved(was, s, hp + 1, j, lo, hi);
    Moved(was, Swapped(s, hp + 1, j), i, hp + 1, lo, hi);
    if Preorder(cmp) {
      AsPivot(was, s, lo, i, lp, hp, j, hi, p, s[j], cmp);
    }
  }

  /** An element below the pivot, on the right, and one above it, on the left. */
  lemma Opposite<T(!new)>(was: seq<T>, s: seq<T>, lo: int, i: int, lp: int, hp: int, j: int, hi: int, p: T,
                          cmp: (T, T) -> int)
    requires Known(was, s, lo, i, lp, hp, j, hi, p, cmp)
    requires j > hp && cmp(s[hp], s[j]) > 0 && i < lp && Stuck(s, i, lp, cmp)
    ensures Known(was, Swapped(s, i, j), lo, i + 1, lp, hp, j - 1, hi, p, cmp)
  {
    hide Preorder, Permuted;
    Moved(was, s, i, j, lo, hi);
    if Preorder(cmp) {
      AsPivot(was, s, lo, i, lp, hp, j, hi, p, s[j], cmp);
      AsPivot(was, s, lo, i, lp, hp, j, hi, p, s[i], cmp);
    }
  }

  /** An element above the pivot, on the left, and nothing left on the right: the band moves
      down. */
  lemma BandDown<T(!new)>(was: seq<T>, s: seq<T>, lo: int, i: int, lp: int, hp: int, j: int, hi: int, p: T,
                          cmp: (T, T) -> int)
    requires Known(was, s, lo, i, lp, hp, j, hi, p, cmp)
    requires j == hp && i < lp && Stuck(s, i, lp, cmp)
    ensures Known(was, Swapped(Swapped(s, lp - 1, i), j, lp - 1), lo, i, lp - 1, hp - 1, hp - 1, hi, p, cmp)
  {
    hide Preorder, Permuted, Swapped;
    Rotated(s, j, lp - 1, i);
    Moved(was, s, lp - 1, i, lo, hi);
    Moved(was, Swapped(s, lp - 1, i), j, lp - 1, lo, hi);
    if Preorder(cmp) {
      AsPivot(was, s, lo, i, lp, hp, j, hi, p, s[i], cmp);
    }
  }

  lemma Parting<T(!new)>(was: seq<T>, s: seq<T>, lo: int, lp: int, hp: int, hi: int, p: T, cmp: (T, T) -> int)
    requires Known(was, s, lo, lp, lp, hp, hp, hi, p, cmp)
    ensures Permuted(was, s, lo, hi) && (Preorder(cmp) ==> Parted(s, lo, lp, hp, hi, cmp))
  {
    hide Preorder, Permuted;
    forall k | Preorder(cmp) && lo <= k < hi
      ensures k < lp ==> cmp(s[k], s[lp]) < 0
      ensures lp <= k <= hp ==> cmp(s[k], s[lp]) == 0
      ensures hp < k ==> cmp(s[k], s[lp]) > 0
    {
      Below(cmp, s[k], s[lp], p);
    }
  }

  lemma Start<T(!new)>(s: seq<T>, lo: int, m: int, hi: int, cmp: (T, T) -> int)
    requires 0 <= lo <= m < hi <= |s|
    ensures Known(s, s, lo, lo, m, m, hi - 1, hi, s[m], cmp)
  {
  }

  lemma Moved<T>(s: seq<T>, t: seq<T>, u: int, v: int, lo: int, hi: int)
    requires Permuted(s, t, lo, hi) && lo <= u < hi && lo <= v < hi
    ensures 0 <= u < |t| && 0 <= v < |t| && Permuted(s, Swapped(t, u, v), lo, hi)
  {
    SwapPermutes(t, u, v, lo, hi);
    PermutedTwice(s, t, Swapped(t, u, v), lo, hi);
  }

  /** On the left, the next element is above the pivot. */
  predicate Stuck<T>(s: seq<T>, i: int, lp: int, cmp: (T, T) -> int)
    requires 0 <= i <= lp < |s|
  {
    i < lp ==> cmp(s[i], s[lp]) > 0
  }

  /** qs1 from its label loop: going down on the right until an element above the pivot on the
      left meets one below it on the right, which are exchanged, or the right is done. */
  method FromRight<B(!new)>(a: Elements<B>, lo: int, i: int, lp: int, hp: int, j: int, hi: int,
                            ghost p: seq<B>, ghost was: seq<seq<B>>, cmp: (seq<B>, seq<B>) -> int)
    returns (done: bool, i': int, lp': int, hp': int, j': int)
    requires a.Valid() && lo <= i <= lp <= hp <= j < hi <= a.n
    requires Known(was, a.View(), lo, i, lp, hp, j, hi, p, cmp)
    requires 0 <= lo && Stuck(a.View(), i, lp, cmp)
    modifies a.mem
    ensures lo <= i' <= lp' <= hp' <= j' < hi
    ensures Known(was, a.View(), lo, i', lp', hp', j', hi, p, cmp)
    ensures if done then lp' - i' == lp - i && j' == hp' && Stuck(a.View(), i', lp', cmp)
            else lp' - i' + j' - hp' < lp - i + j - hp
  {
    hide Known, Permuted, Preorder, Swapped, Stuck;
    i', lp', hp', j' := i, lp, hp, j;
    while j' > hp'
      invariant lo <= i' <= lp' <= hp' <= j' < hi && lp' - i' == lp - i && j' - hp' <= j - hp
      invariant Known(was, a.View(), lo, i', lp', hp', j', hi, p, cmp)
      invariant Stuck(a.View(), i', lp', cmp)
      decreases j' - hp'
    {
      var c := cmp(a.At(hp'), a.At(j'));
      if c == 0 {
        RightEqual(was, a.View(), lo, i', lp', hp', j', hi, p, cmp);
        hp' := hp' + 1;
        Exchange(a, hp', j');
      } else if c > 0 {
        if i' == lp' {
          BandUp(was, a.View(), lo, i', lp', hp', j', hi, p, cmp);
          hp' := hp' + 1;
          Rotate(a, i', hp', j');
          lp' := lp' + 1;
          i' := lp';
        } else {
          Opposite(was, a.View(), lo, i', lp', hp', j', hi, p, cmp);
          Exchange(a, i', j');
          j' := j' - 1;
          i' := i' + 1;
          done := false;
          return;
        }
      } else {
        RightAbove(was, a.View(), lo, i', lp', hp', j', hi, p, cmp);
        j' := j' - 1;
      }
    }
    done := true;
  }

  /** qs1, up to the recursion. It ends, and only rearranges, whatever the comparison is. */
  method Partition<B(!new)>(a: Elements<B>, lo: int, hi: int, cmp: (seq<B>, seq<B>) -> int) returns (lp: int, hp: int)
    requires a.Valid() && 0 <= lo && lo + 2 <= hi <= a.n
    modifies a.mem
    ensures lo <= lp <= hp < hi
    ensures Permuted(old(a.View()), a.View(), lo, hi)
    ensures Preorder(cmp) ==> Parted(a.View(), lo, lp, hp, hi, cmp)
  {
    hide Known, Permuted, Preorder, Parted, Swapped, Elements.View, Elements.Valid;
    lp := lo + (hi - lo) / 2;
    hp := lp;
    var i, j := lo, hi - 1;
    ghost var p, was := a.At(lp), a.View();
    Start(a.View(), lo, lp, hi, cmp);
    while true
      invariant lo <= i <= lp <= hp <= j < hi
      invariant Known(was, a.View(), lo, i, lp, hp, j, hi, p, cmp)
      decreases lp - i + j - hp
    {
      if i < lp {
        var c := cmp(a.At(i), a.At(lp));
        if c == 0 {
          LeftEqual(was, a.View(), lo, i, lp, hp, j, hi, p, cmp);
          lp := lp - 1;
          Exchange(a, i, lp);
          continue;
        }
        if c < 0 {
          LeftBelow(was, a.View(), lo, i, lp, hp, j, hi, p, cmp);
          i := i + 1;
          continue;
        }
      }
      assert Stuck(a.View(), i, lp, cmp);
      var done;
      done, i, lp, hp, j := FromRight(a, lo, i, lp, hp, j, hi, p, was, cmp);
      if done && i == lp {
        Parting(was, a.View(), lo, lp, hp, hi, p, cmp);
        break;
      }
      if done {
        BandDown(was, a.View(), lo, i, lp, hp, j, hi, p, cmp);
        lp := lp - 1;
        Rotate(a, j, lp, i);
        hp := hp - 1;
        j := hp;
      }
    }
  }

  // ---- the recursion ----

  function Pow2(k: nat): nat {
    if k == 0 then 1 else 2 * Pow2(k - 1)
  }

  /** So many calls open at a time are not too many for n elements. */
  ghost predicate Shallow(frames: nat, n: nat) {
    frames > 0 && Pow2(frames - 1) <= if n == 0 then 1 else n
  }

  lemma Halves(inner: nat, part: nat, n: nat)
    requires Shallow(inner, part) && 2 * part < n && n > 1
    ensures Shallow(inner + 1, n)
  {
  }

  lemma OneCall(n: nat)
    ensures Shallow(1, n)
  {
  }

  lemma AllRemains<T(!new)>(s: seq<T>, lo: int, hi: int, cmp: (T, T) -> int)
    requires 0 <= lo <= hi <= |s|
    ensures Remains(s, lo, hi, lo, hi, cmp) && Permuted(s, s, lo, hi)
  {
  }

  lemma Rearranged<T(!new)>(s: seq<T>, t: seq<T>, x: int, y: int, lo: int, hi: int, cmp: (T, T) -> int)
    requires Remains(s, x, y, lo, hi, cmp) && Permuted(s, t, x, y)
    ensures Remains(t, x, y, lo, hi, cmp)
  {
    hide Permuted, Sorted;
    forall u: seq<T> | Permuted(t, u, x, y) && Sorted(u, x, y, cmp)
      ensures Sorted(u, lo, hi, cmp)
    {
      PermutedTwice(s, t, u, x, y);
    }
  }

  lemma NoneRemains<T(!new)>(s: seq<T>, x: int, y: int, lo: int, hi: int, cmp: (T, T) -> int)
    requires Preorder(cmp) && Remains(s, x, y, lo, hi, cmp) && 0 <= x <= y <= |s| && y - x <= 1
    ensures Sorted(s, lo, hi, cmp)
  {
    assert Permuted(s, s, x, y);
    assert y - x == 1 ==> cmp(s[x], s[x]) <= 0;
  }

  /** Once round: the part is parted, and then one side of the band is sorted. */
  lemma Round<T(!new)>(s: seq<T>, t: seq<T>, u: seq<T>, v: seq<T>, x: int, lp: int, hp: int, y: int,
                       lo: int, hi: int, left: bool, cmp: (T, T) -> int)
    requires Permuted(s, t, lo, hi) && 0 <= lo <= x <= lp <= hp < y <= hi && Permuted(t, u, x, y)
    requires Permuted(u, v, if left then x else hp + 1, if left then lp else y)
    requires Preorder(cmp) ==>
               && Remains(t, x, y, lo, hi, cmp) && Parted(u, x, lp, hp, y, cmp)
               && Sorted(v, if left then x else hp + 1, if left then lp else y, cmp)
    ensures Permuted(s, v, lo, hi)
    ensures Preorder(cmp) ==> Remains(v, if left then hp + 1 else x, if left then y else lp, lo, hi, cmp)
  {
    hide Permuted, Preorder, Sorted, Parted, Remains;
    SameLength(s, t, lo, hi);
    SameLength(t, u, x, y);
    Wider(t, u, x, y, lo, hi);
    Wider(u, v, if left then x else hp + 1, if left then lp else y, lo, hi);
    PermutedTwice(s, t, u, lo, hi);
    PermutedTwice(s, u, v, lo, hi);
    if Preorder(cmp) {
      Rearranged(t, u, x, y, lo, hi, cmp);
      OneSide(u, v, x, lp, hp, y, lo, hi, left, cmp);
    }
  }

  /** qs1: the part a[lo..hi] is rearranged, whatever the comparison is, and sorted if that is
      a preorder. The larger side of the band is sorted by going round, so at most
      floor(log2(hi - lo)) + 1 calls are open at a time; frames is their number. */
  method Qs1<B(!new)>(a: Elements<B>, lo: int, hi: int, cmp: (seq<B>, seq<B>) -> int) returns (ghost frames: nat)
    requires a.Valid() && 0 <= lo <= hi <= a.n
    modifies a.mem
    ensures Permuted(old(a.View()), a.View(), lo, hi)
    ensures Preorder(cmp) ==> Sorted(a.View(), lo, hi, cmp)
    ensures Shallow(frames, hi - lo)
    decreases hi - lo
  {
    hide Permuted, Preorder, Sorted, Parted, Remains, Shallow;
    frames := 1;
    var x, y := lo, hi;
    ghost var s := a.View();
    AllRemains(s, lo, hi, cmp);
    OneCall(hi - lo);
    while y - x > 1
      invariant lo <= x <= y <= hi
      invariant Permuted(s, a.View(), lo, hi)
      invariant Preorder(cmp) ==> Remains(a.View(), x, y, lo, hi, cmp)
      invariant Shallow(frames, hi - lo)
      decreases y - x
    {
      ghost var t := a.View();
      var lp, hp := Partition(a, x, y, cmp);
      ghost var u := a.View();
      ghost var inner;
      var left := lp - x < y - hp;
      if left {
        inner := Qs1(a, x, lp, cmp);
      } else {
        inner := Qs1(a, hp + 1, y, cmp);
      }
      Round(s, t, u, a.View(), x, lp, hp, y, lo, hi, left, cmp);
      Halves(inner, if left then lp - x else y - hp - 1, hi - lo);
      if inner + 1 > frames {
        frames := inner + 1;
      }
      if left {
        x := hp + 1;
      } else {
        y := lp;
      }
    }
    if Preorder(cmp) {
      NoneRemains(a.View(), x, y, lo, hi, cmp);
    }
  }

  /** qsort of n elements of es bytes each. */
  method Qsort<B(!new)>(mem: array<B>, n: nat, es: nat, cmp: (seq<B>, seq<B>) -> int)
    requires es > 0 && mem.Length == n * es
    modifies mem
    ensures multiset(Cells(mem[..], es, n)) == multiset(old(Cells(mem[..], es, n)))
    ensures Preorder(cmp) ==> Sorted(Cells(mem[..], es, n), 0, n, cmp)
  {
    var a := new Elements(mem, es, n);
    ghost var s := a.View();
    ghost var _ := Qs1(a, 0, n, cmp);
    assert a.View()[0..n] == a.View() && s[0..n] == s;
  }
}
