/** Domain names in messages, after RFC 1035: writing a question, and reading a name that may
    end in a pointer to an earlier one. */
module Dns {

  const SYSERR := -1
  const DNSDATASIZ := 500

  /** The header in front of the data of a message. */
  const HEADER := 12

  const DOT := 46

  type Byte = x: int | 0 <= x < 256
  type Text = seq<Byte>

  // ---- names ----

  /** The labels of a name, between dots. */
  function Split(name: Text): (r: seq<Text>)
    ensures |r| > 0
  {
    if |name| == 0 then [[]]
    else
      var r, c := Split(name[..|name| - 1]), name[|name| - 1];
      if c == DOT then r + [[]] else r[|r| - 1 := r[|r| - 1] + [c]]
  }

  function Join(labels: seq<Text>): Text {
    if |labels| == 0 then []
    else if |labels| == 1 then labels[0]
    else Join(labels[..|labels| - 1]) + [DOT] + labels[|labels| - 1]
  }

  predicate NoDots(piece: Text) {
    forall k :: 0 <= k < |piece| ==> piece[k] != DOT
  }

  /** The labels of a name make it up again, and have no dots in them. */
  lemma {:induction false} SplitJoins(name: Text)
    ensures Join(Split(name)) == name
    ensures forall k :: 0 <= k < |Split(name)| ==> NoDots(Split(name)[k])
  {
    if |name| > 0 {
      var n := |name| - 1;
      var r, c := Split(name[..n]), name[n];
      SplitJoins(name[..n]);
      assert name == name[..n] + [c];
      if c == DOT {
        assert (r + [[]])[..|r|] == r;
      } else {
        var t := r[|r| - 1 := r[|r| - 1] + [c]];
        assert t[..|r| - 1] == r[..|r| - 1];
      }
    }
  }

  // ---- writing ----

  /** Labels on the wire, each behind its length, which is kept in a byte. */
  function Wire(labels: seq<Text>): Text {
    if |labels| == 0 then []
    else
      var last := labels[|labels| - 1];
      Wire(labels[..|labels| - 1]) + [|last| % 256] + last
  }

  /** The question: the name, and the type and class of an Internet address. */
  function Question(name: Text): Text {
    Wire(Split(name)) + [0] + [0, 1] + [0, 1]
  }

  lemma {:induction false} WireSize(name: Text)
    ensures |Wire(Split(name))| == |name| + 1
  {
    if |name| > 0 {
      var n := |name| - 1;
      var r, c := Split(name[..n]), name[n];
      WireSize(name[..n]);
      if c == DOT {
        assert (r + [[]])[..|r|] == r;
      } else {
        assert r[|r| - 1 := r[|r| - 1] + [c]][..|r| - 1] == r[..|r| - 1];
      }
    } else {
      Nothing();
    }
  }

  /** The question fits the data of a message if and only if the name has at most 494
      characters; names of up to 499 are taken. */
  lemma FitsExactly(name: Text)
    ensures |Question(name)| <= DNSDATASIZ <==> |name| <= DNSDATASIZ - 6
  {
    WireSize(name);
  }

  /** One more character. */
  lemma WireMore(s: Text, c: Byte)
    ensures var r := Split(s);
            var last := r[|r| - 1];
            var w, w' := Wire(r), Wire(Split(s + [c]));
            && |w| == |s| + 1 && |last| < |w| && w[|w| - 1 - |last|] == |last| % 256
            && (c == DOT ==> w' == w + [0] && Split(s + [c])[|Split(s + [c])| - 1] == [])
            && (c != DOT ==>
                  && w' == w[|w| - 1 - |last| := (|last| + 1) % 256] + [c]
                  && Split(s + [c])[|Split(s + [c])| - 1] == last + [c])
  {
    hide Wire, Split;
    WireSize(s);
    var r, n := Split(s), |Split(s)| - 1;
    SplitSnoc(s, c);
    assert r == r[..n] + [r[n]];
    WireSnoc(r[..n], r[n]);
    if c == DOT {
      WireSnoc(r, []);
    } else {
      WireSnoc(r[..n], r[n] + [c]);
    }
  }

  lemma SplitSnoc(s: Text, c: Byte)
    ensures var r := Split(s);
            Split(s + [c]) == if c == DOT then r + [[]] else r[..|r| - 1] + [r[|r| - 1] + [c]]
  {
    var t := s + [c];
    assert t[..|t| - 1] == s;
  }

  lemma WireSnoc(labels: seq<Text>, last: Text)
    ensures Wire(labels + [last]) == Wire(labels) + [|last| % 256] + last
  {
    assert (labels + [last])[..|labels|] == labels;
  }

  /** dns_bldq. The buffer takes the question of any name that is not refused. */
  method DnsBldq(dname: Text, buf: array<Byte>) returns (r: int)
    requires buf.Length >= DNSDATASIZ && (|dname| < DNSDATASIZ ==> buf.Length >= |dname| + 6)
    modifies buf
    ensures r == if |dname| >= DNSDATASIZ then SYSERR else HEADER + |Question(dname)|
    ensures |dname| < 500 ==> r == |dname| + 18
    ensures |dname| < DNSDATASIZ ==>
              && |Question(dname)| <= buf.Length && buf[..|Question(dname)|] == Question(dname)
              && buf[|Question(dname)|..] == old(buf[|Question(dname)|..])
  {
    hide Wire, Split, Written, Question;
    var llptr, data := 0, 1;
    buf[llptr] := 0;
    ghost var was := buf[..];
    Begun(was);
    var i := 0;
    assert dname[..0] == [];
    while i < |dname|
      invariant 0 <= i <= |dname| && data == i + 1 <= DNSDATASIZ
      invariant Written(buf[..], was, dname[..i], llptr)
    {
      if data >= DNSDATASIZ {
        return SYSERR;
      }
      OneMore(buf[..], was, dname[..i], dname[i], llptr);
      assert dname[..i + 1] == dname[..i] + [dname[i]];
      ghost var s := buf[..];
      if dname[i] != DOT {
        buf[data] := dname[i];
        buf[llptr] := (buf[llptr] as int + 1) % 256;
        assert buf[..] == Counted(s[data := dname[i]], llptr);
      } else {
        llptr := data;
        buf[llptr] := 0;
        assert buf[..] == s[data := 0];
      }
      data := data + 1;
      i := i + 1;
    }
    assert dname[..i] == dname;
    ghost var s := buf[..];
    buf[data] := 0;
    buf[data + 1], buf[data + 2] := 0, 1;
    buf[data + 3], buf[data + 4] := 0, 1;
    assert buf[..] == s[data := 0][data + 1 := 0][data + 2 := 1][data + 3 := 0][data + 4 := 1];
    Finished(s, buf[..], was, dname, llptr);
    r := HEADER + data + 5;
  }

  /** The length at k is one more. */
  function Counted(s: Text, k: nat): (r: Text)
    requires k < |s|
    ensures |r| == |s|
  {
    s[k := (s[k] as int + 1) % 256]
  }

  /** The name s is in the buffer, which is otherwise as it was; the length of its last label is
      at llptr. */
  ghost predicate Written(buf: Text, was: Text, s: Text, llptr: int) {
    var last, n := Split(s)[|Split(s)| - 1], |s| + 1;
    |buf| == |was| >= n && buf[..n] == Wire(Split(s)) && buf[n..] == was[n..] && llptr == |s| - |last| >= 0
  }

  /** The character is put behind and counted, or a dot begins a new label. */
  lemma OneMore(buf: Text, was: Text, s: Text, c: Byte, llptr: int)
    requires Written(buf, was, s, llptr) && |buf| > |s| + 1
    ensures 0 <= llptr <= |s|
    ensures c != DOT ==> Written(Counted(buf[|s| + 1 := c], llptr), was, s + [c], llptr)
    ensures c == DOT ==> Written(buf[|s| + 1 := 0], was, s + [c], |s| + 1)
  {
    hide Wire, Split;
    WireMore(s, c);
    var n := |s| + 1;
    var w := buf[..n];
    assert buf[n + 1..] == buf[n..][1..] && was[n + 1..] == was[n..][1..];
    if c == DOT {
      assert buf[n := 0][..n + 1] == w + [0];
    } else {
      assert Counted(buf[n := c], llptr)[..n + 1] == Counted(w, llptr) + [c];
      assert (w[llptr] as int + 1) % 256 == (|Split(s)[|Split(s)| - 1]| + 1) % 256;
    }
  }

  lemma Finished(s: Text, t: Text, was: Text, dname: Text, llptr: int)
    requires |dname| + 6 <= |s| && Written(s, was, dname, llptr)
    requires var n := |dname| + 1;
             t == s[n := 0][n + 1 := 0][n + 2 := 1][n + 3 := 0][n + 4 := 1]
    ensures |Question(dname)| == |dname| + 6 && t[..|Question(dname)|] == Question(dname)
    ensures |t| == |was| && t[|Question(dname)|..] == was[|Question(dname)|..]
  {
    hide Wire, Split;
    WireSize(dname);
    var n := |dname| + 1;
    assert t[n + 5..] == s[n..][5..] && was[n + 5..] == was[n..][5..];
  }

  lemma Begun(buf: Text)
    requires |buf| > 0 && buf[0] == 0
    ensures Written(buf, buf, [], 0)
  {
    Nothing();
    assert buf[..1] == [0];
  }

  lemma Nothing()
    ensures Wire(Split([])) == [0] && Split([]) == [[]]
  {
    var one: seq<Text> := [[]];
    assert one[..0] == [];
  }

  // ---- reading ----

  /** Where the pointer at off points. */
  function Target(pkt: Text, off: nat): nat
    requires off + 1 < |pkt|
  {
    (pkt[off] as int * 256 + pkt[off + 1]) % 0x4000
  }

  /** From off on there is a name, in reading which at most so many pointers are followed: labels of
      at most 63 bytes, and then either the end or a pointer to where the name goes on. */
  predicate Readable(pkt: Text, hops: nat, off: nat)
    decreases hops, |pkt| - off
  {
    && off < |pkt|
    && (if pkt[off] == 0 then true
        else if pkt[off] <= 63 then off + 1 + pkt[off] < |pkt| && Readable(pkt, hops, off + 1 + pkt[off])
        else off + 1 < |pkt| && hops > 0 && Readable(pkt, hops - 1, Target(pkt, off)))
  }

  /** Its labels, after section 4.1.4 of RFC 1035. */
  function LabelsAt(pkt: Text, hops: nat, off: nat): seq<Text>
    requires Readable(pkt, hops, off)
    decreases hops, |pkt| - off
  {
    if pkt[off] == 0 then []
    else if pkt[off] <= 63 then
      [pkt[off + 1..off + 1 + pkt[off]]] + LabelsAt(pkt, hops, off + 1 + pkt[off])
    else LabelsAt(pkt, hops - 1, Target(pkt, off))
  }

  /** The bytes that it takes up in place. */
  function InPlace(pkt: Text, hops: nat, off: nat): nat
    requires Readable(pkt, hops, off)
    decreases hops, |pkt| - off
  {
    if pkt[off] == 0 then 1
    else if pkt[off] <= 63 then 1 + pkt[off] + InPlace(pkt, hops, off + 1 + pkt[off])
    else 2
  }

  /** Labels with a dot behind each. */
  function Dotted(labels: seq<Text>): Text {
    if |labels| == 0 then [] else labels[0] + [DOT] + Dotted(labels[1..])
  }

  /** The buffer holds the text, with NUL for its last character, and is as it was behind. */
  ghost predicate NameIn(buf: Text, was: Text, text: Text) {
    |buf| == |was| && 0 < |text| <= |buf| && buf[..|text|] == text[|text| - 1 := 0] && buf[|text|..] == was[|text|..]
  }

  /** dns_getrname: the labels, each with a dot behind it, go to dst from d on, and then the
      last dot becomes NUL. Without any label that is what stands in front. It ends whenever the
      name can be read with some number of pointers. */
  method DnsGetrname(sop: Text, son: nat, dst: array<Byte>, d: nat, ghost hops: nat) returns (used: nat)
    requires Readable(sop, hops, son)
    requires d + |Dotted(LabelsAt(sop, hops, son))| <= dst.Length
    requires d > 0 || |LabelsAt(sop, hops, son)| > 0
    modifies dst
    ensures used == InPlace(sop, hops, son)
    ensures NameIn(dst[..], old(dst[..]), old(dst[..d]) + Dotted(LabelsAt(sop, hops, son)))
    decreases hops
  {
    hide Readable, LabelsAt, InPlace, Dotted, SoFar, NameIn;
    ghost var was := dst[..];
    ghost var all := was[..d] + Dotted(LabelsAt(sop, hops, son));
    var p, w := CopyLabels(sop, son, dst, d, hops, all);
    Next(sop, hops, p);
    ghost var s := dst[..];
    if sop[p] == 0 {
      Ended(s, was, w, all);
      w := w - 1;
      dst[w] := 0;
      assert dst[..] == s[w := 0];
      used := p + 1 - son;
    } else {
      var offset := (sop[p] as int * 256 + sop[p + 1]) % 0x4000;
      p := p + 2;
      ghost var rest := Dotted(LabelsAt(sop, hops - 1, offset));
      SoFarIs(s, was, w, all, rest);
      var _ := DnsGetrname(sop, offset, dst, w, hops - 1);
      InParts(dst[..], s, was, w, all, rest);
      used := p - son;
    }
  }

  /** The loop of dns_getrname: as far as the end of the name or a pointer, at p. */
  method CopyLabels(sop: Text, son: nat, dst: array<Byte>, d: nat, ghost hops: nat, ghost all: Text)
    returns (p: nat, w: nat)
    requires Readable(sop, hops, son) && d <= dst.Length && |all| <= dst.Length
    requires all == dst[..d] + Dotted(LabelsAt(sop, hops, son))
    modifies dst
    ensures son <= p < |sop| && (sop[p] == 0 || sop[p] > 63) && Readable(sop, hops, p)
    ensures SoFar(dst[..], old(dst[..]), w, all, Dotted(LabelsAt(sop, hops, p))) && w >= d
    ensures p - son + InPlace(sop, hops, p) == InPlace(sop, hops, son)
    ensures w == d ==> LabelsAt(sop, hops, p) == LabelsAt(sop, hops, son)
  {
    hide Readable, LabelsAt, InPlace, Dotted, SoFar;
    AtFirst(dst[..], d, Dotted(LabelsAt(sop, hops, son)));
    Next(sop, hops, son);
    p, w := son, d;
    var llen := sop[p];
    while llen != 0 && llen <= 63
      invariant son <= p < |sop| && llen == sop[p] && d <= w && Readable(sop, hops, p)
      invariant SoFar(dst[..], old(dst[..]), w, all, Dotted(LabelsAt(sop, hops, p)))
      invariant p - son + InPlace(sop, hops, p) == InPlace(sop, hops, son)
      invariant w == d ==> LabelsAt(sop, hops, p) == LabelsAt(sop, hops, son)
      decreases |sop| - p
    {
      Next(sop, hops, p);
      p := p + 1;
      ghost var s, v, x, rest := dst[..], w, sop[p..p + llen] + [DOT], Dotted(LabelsAt(sop, hops, p + llen));
      SoFarIs(s, old(dst[..]), w, all, x + rest);
      w := CopyLabel(sop, p, llen, dst, w);
      More(s, dst[..], old(dst[..]), v, w, all, x, rest);
      p := p + llen;
      llen := sop[p];
    }
  }

  /** One step of reading a name. */
  lemma Next(pkt: Text, hops: nat, off: nat)
    requires Readable(pkt, hops, off)
    ensures off < |pkt|
    ensures pkt[off] == 0 ==>
              LabelsAt(pkt, hops, off) == [] && Dotted(LabelsAt(pkt, hops, off)) == []
                && InPlace(pkt, hops, off) == 1
    ensures 0 < pkt[off] <= 63 ==>
              var next := off + 1 + pkt[off];
              && next < |pkt| && Readable(pkt, hops, next)
              && LabelsAt(pkt, hops, off) == [pkt[off + 1..next]] + LabelsAt(pkt, hops, next)
              && Dotted(LabelsAt(pkt, hops, off)) == pkt[off + 1..next] + [DOT] + Dotted(LabelsAt(pkt, hops, next))
              && InPlace(pkt, hops, off) == 1 + pkt[off] + InPlace(pkt, hops, next)
    ensures pkt[off] > 63 ==>
              && off + 1 < |pkt| && hops > 0 && Readable(pkt, hops - 1, Target(pkt, off))
              && LabelsAt(pkt, hops, off) == LabelsAt(pkt, hops - 1, Target(pkt, off))
              && InPlace(pkt, hops, off) == 2
  {
    if 0 < pkt[off] <= 63 {
      DottedFirst(pkt[off + 1..off + 1 + pkt[off]], LabelsAt(pkt, hops, off + 1 + pkt[off]));
    }
  }

  lemma DottedFirst(piece: Text, rest: seq<Text>)
    ensures Dotted([piece] + rest) == piece + [DOT] + Dotted(rest)
  {
    assert ([piece] + rest)[1..] == rest;
  }

  /** So much of the text is in s, the place for which begins where was differs from it. */
  ghost predicate SoFar(s: Text, was: Text, w: nat, all: Text, rest: Text) {
    |s| == |was| && w <= |s| && s[..w] + rest == all && s[w..] == was[w..] && |all| <= |s|
  }

  lemma SoFarIs(s: Text, was: Text, w: nat, all: Text, rest: Text)
    requires SoFar(s, was, w, all, rest)
    ensures |s| == |was| && w + |rest| == |all| <= |s| && s[..w] + rest == all && s[w..] == was[w..]
    ensures s[|all|..] == was[|all|..]
  {
    assert s[|all|..] == s[w..][|rest|..] && was[|all|..] == was[w..][|rest|..];
  }

  /** All of it, and NUL in place of the last dot. */
  lemma Ended(s: Text, was: Text, w: nat, all: Text)
    requires SoFar(s, was, w, all, []) && w > 0
    ensures w <= |s| && NameIn(s[w - 1 := 0], was, all)
  {
  }

  /** The rest was written by another call. */
  lemma InParts(t: Text, s: Text, was: Text, w: nat, all: Text, rest: Text)
    requires SoFar(s, was, w, all, rest) && NameIn(t, s, s[..w] + rest)
    ensures NameIn(t, was, all)
  {
    SoFarIs(s, was, w, all, rest);
  }

  lemma AtFirst(s: Text, d: nat, rest: Text)
    requires d + |rest| <= |s|
    ensures SoFar(s, s, d, s[..d] + rest, rest)
  {
  }

  /** x is written next. */
  lemma More(s: Text, t: Text, was: Text, v: nat, w: nat, all: Text, x: Text, rest: Text)
    requires SoFar(s, was, v, all, x + rest) && |t| == |s| && w == v + |x| <= |t|
    requires t[..w] == s[..v] + x && t[w..] == s[w..]
    ensures SoFar(t, was, w, all, rest)
  {
    assert s[..v] + (x + rest) == s[..v] + x + rest;
    assert s[w..] == s[v..][|x|..] && was[w..] == was[v..][|x|..];
  }

  /** The bytes of a label, and a dot. */
  method CopyLabel(sop: Text, son: nat, llen: nat, dst: array<Byte>, d: nat) returns (w: nat)
    requires son + llen <= |sop| && d + llen < dst.Length
    modifies dst
    ensures w == d + llen + 1 && dst[..w] == old(dst[..d]) + (sop[son..son + llen] + [DOT])
    ensures dst[w..] == old(dst[w..])
  {
    w := d;
    var i := 0;
    while i < llen
      invariant 0 <= i <= llen && w == d + i
      invariant dst[..w] == old(dst[..d]) + sop[son..son + i] && dst[w..] == old(dst[w..])
    {
      dst[w] := sop[son + i];
      w := w + 1;
      i := i + 1;
    }
    dst[w] := DOT;
    w := w + 1;
  }
}
