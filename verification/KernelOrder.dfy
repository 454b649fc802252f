/** Sequences of which some members are missing. */
module KernelOrder {

  /** a is b without some of its members. */
  ghost predicate Sub<T>(a: seq<T>, b: seq<T>)
    decreases |b|
  {
    || |a| == 0
    || (|b| > 0 && ((a[0] == b[0] && Sub(a[1..], b[1..])) || Sub(a, b[1..])))
  }

  lemma {:induction false} SubSame<T>(a: seq<T>)
    ensures Sub(a, a)
  {
    if |a| > 0 {
      SubSame(a[1..]);
    }
  }

  lemma {:induction false} SubTrans<T>(a: seq<T>, b: seq<T>, c: seq<T>)
    requires Sub(a, b) && Sub(b, c)
    ensures Sub(a, c)
    decreases |c|
  {
    if |a| > 0 && |b| > 0 {
      if b[0] == c[0] && Sub(b[1..], c[1..]) {
        if a[0] == b[0] && Sub(a[1..], b[1..]) {
          SubTrans(a[1..], b[1..], c[1..]);
        } else {
          SubTrans(a, b[1..], c[1..]);
        }
      } else {
        SubTrans(a, b, c[1..]);
      }
    }
  }

  lemma {:induction false} SubFront<T>(x: seq<T>, a: seq<T>, b: seq<T>)
    requires Sub(a, b)
    ensures Sub(x + a, x + b)
    decreases |x|
  {
    if |x| == 0 {
      assert x + a == a && x + b == b;
    } else {
      SubFront(x[1..], a, b);
      assert (x + a)[1..] == x[1..] + a && (x + b)[1..] == x[1..] + b;
    }
  }

  lemma {:induction false} SubBack<T>(a: seq<T>, b: seq<T>, y: seq<T>)
    requires Sub(a, b)
    ensures Sub(a + y, b + y)
    decreases |b|
  {
    if |a| == 0 {
      SubSame(y);
      SubEnd(b, y);
      assert a + y == y;
    } else {
      assert (b + y)[1..] == b[1..] + y && (a + y)[1..] == a[1..] + y;
      if a[0] == b[0] && Sub(a[1..], b[1..]) {
        SubBack(a[1..], b[1..], y);
      } else {
        SubBack(a, b[1..], y);
      }
    }
  }

  lemma {:induction false} SubEnd<T>(b: seq<T>, y: seq<T>)
    ensures Sub(y, b + y)
    decreases |b|
  {
    if |b| == 0 {
      SubSame(y);
      assert b + y == y;
    } else {
      SubEnd(b[1..], y);
      assert (b + y)[1..] == b[1..] + y;
    }
  }

  /** One member is missing. */
  lemma SubCut<T>(l: seq<T>, k: nat)
    requires k < |l|
    ensures Sub(l[..k] + l[k + 1..], l)
    ensures multiset(l[..k] + l[k + 1..]) + multiset([l[k]]) == multiset(l)
  {
    SubEnd([l[k]], l[k + 1..]);
    SubFront(l[..k], l[k + 1..], [l[k]] + l[k + 1..]);
    assert l == l[..k] + ([l[k]] + l[k + 1..]);
  }

  /** Two steps: what leaves (a, c) and what remains (m, n), of what was there (l) and what joins
      (b, d). */
  lemma SubSteps<T>(a: seq<T>, b: seq<T>, l: seq<T>, m: seq<T>, c: seq<T>, d: seq<T>, n: seq<T>)
    requires Sub(a + m, l + b) && Sub(c + n, m + d)
    ensures Sub((a + c) + n, l + (b + d))
  {
    hide Sub;
    SubFront(a, c + n, m + d);
    SubBack(a + m, l + b, d);
    assert a + (m + d) == (a + m) + d;
    assert a + (c + n) == (a + c) + n;
    assert (l + b) + d == l + (b + d);
    SubTrans(a + (c + n), a + (m + d), l + (b + d));
  }

  ghost predicate Adds<T>(a: seq<T>, m: seq<T>, x: seq<T>, l: seq<T>, b: seq<T>) {
    multiset(a) + multiset(m) + multiset(x) == multiset(l) + multiset(b)
  }

  /** In two steps x and y go missing. */
  lemma MissingSteps<T>(a: seq<T>, b: seq<T>, l: seq<T>, m: seq<T>, c: seq<T>, d: seq<T>, n: seq<T>, x: seq<T>,
                        y: seq<T>)
    requires Adds(a, m, x, l, b) && Adds(c, n, y, m, d)
    ensures Adds(a + c, n, x + y, l, b + d)
  {
    var A, M, X, L, B, D := multiset(a), multiset(m), multiset(x), multiset(l), multiset(b), multiset(d);
    var R := multiset(c) + multiset(n) + multiset(y);
    assert multiset(a + c) + multiset(n) + multiset(x + y) == (A + X) + R;
    assert (A + X) + (M + D) == (A + M + X) + D;
    assert (L + B) + D == L + multiset(b + d);
  }
}
