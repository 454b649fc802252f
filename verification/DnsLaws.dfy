/** Reading a name gives back the name that was written, exactly if its labels are as RFC 1035
    wants them. */
module DnsLaws {
  import opened Dns

  /** A label of section 2.3.4 of RFC 1035. */
  predicate LabelOk(l: Text) {
    1 <= |l| <= 63
  }

  predicate AllOk(labels: seq<Text>) {
    forall k :: 0 <= k < |labels| ==> LabelOk(labels[k])
  }

  lemma {:induction false} WireCat(a: seq<Text>, b: seq<Text>)
    ensures Wire(a + b) == Wire(a) + Wire(b)
  {
    if |b| == 0 {
      assert a + b == a;
    } else {
      var n := |b| - 1;
      assert (a + b)[..|a| + n] == a + b[..n];
      WireCat(a, b[..n]);
    }
  }

  lemma WireFirst(l: Text, rest: seq<Text>)
    ensures Wire([l] + rest) == [|l| % 256] + l + Wire(rest)
  {
    WireCat([l], rest);
    assert [l][..0] == [];
  }

  /** From off on the message holds x. */
  predicate HasAt(pkt: Text, off: nat, x: Text) {
    off + |x| <= |pkt| && pkt[off..off + |x|] == x
  }

  lemma HasParts(pkt: Text, off: nat, x: Text, y: Text)
    requires HasAt(pkt, off, x + y)
    ensures HasAt(pkt, off, x) && HasAt(pkt, off + |x|, y)
  {
    assert pkt[off..off + |x|] == pkt[off..off + |x + y|][..|x|];
    assert pkt[off + |x|..off + |x| + |y|] == pkt[off..off + |x + y|][|x|..];
  }

  /** The question for the name, in the middle of a message. */
  lemma HasQuestion(pre: Text, name: Text, post: Text)
    ensures HasAt(pre + Question(name) + post, |pre|, Question(name))
  {
    hide Question;
  }

  /** Labels that are in order are read as they were written. */
  lemma {:induction false} ReadWire(pkt: Text, off: nat, labels: seq<Text>, hops: nat)
    requires AllOk(labels) && HasAt(pkt, off, Wire(labels) + [0])
    ensures Readable(pkt, hops, off) && LabelsAt(pkt, hops, off) == labels
    ensures InPlace(pkt, hops, off) == |Wire(labels)| + 1
    decreases |labels|
  {
    hide Wire, AllOk, HasAt, Readable, LabelsAt, InPlace, LabelOk;
    if |labels| > 0 {
      var l, rest := labels[0], labels[1..];
      RestOk(labels);
      WireFirst(l, rest);
      assert labels == [l] + rest;
      ShortLabel(l);
      assert Wire(labels) + [0] == [|l|] + (l + (Wire(rest) + [0]));
      HasParts(pkt, off, [|l|], l + (Wire(rest) + [0]));
      HasParts(pkt, off + 1, l, Wire(rest) + [0]);
      ReadWire(pkt, off + 1 + |l|, rest, hops);
      ReadLabel(pkt, off, l, hops);
    } else {
      HasParts(pkt, off, Wire(labels), [0]);
      NoneWired(labels);
      ReadEnd(pkt, off, hops);
    }
  }

  lemma ShortLabel(l: Text)
    requires LabelOk(l)
    ensures |l| % 256 == |l| < 256
  {
  }

  lemma ReadLabel(pkt: Text, off: nat, l: Text, hops: nat)
    requires LabelOk(l) && HasAt(pkt, off, [|l|]) && HasAt(pkt, off + 1, l) && Readable(pkt, hops, off + 1 + |l|)
    ensures Readable(pkt, hops, off)
    ensures LabelsAt(pkt, hops, off) == [l] + LabelsAt(pkt, hops, off + 1 + |l|)
    ensures InPlace(pkt, hops, off) == 1 + |l| + InPlace(pkt, hops, off + 1 + |l|)
  {
    assert pkt[off] == pkt[off..off + 1][0];
  }

  lemma ReadEnd(pkt: Text, off: nat, hops: nat)
    requires HasAt(pkt, off, [0])
    ensures Readable(pkt, hops, off) && LabelsAt(pkt, hops, off) == [] && InPlace(pkt, hops, off) == 1
  {
    assert pkt[off] == pkt[off..off + 1][0];
  }

  lemma NoneWired(labels: seq<Text>)
    requires |labels| == 0
    ensures Wire(labels) == []
  {
  }

  lemma RestOk(labels: seq<Text>)
    requires AllOk(labels) && |labels| > 0
    ensures LabelOk(labels[0]) && AllOk(labels[1..])
  {
  }

  // ---- names that are not read back ----

  lemma {:induction false} JoinGrows(labels: seq<Text>, k: nat)
    requires 0 < k < |labels|
    ensures |Join(labels[..k])| < |Join(labels)|
  {
    var n := |labels| - 1;
    if k < n {
      JoinGrows(labels[..n], k);
      assert labels[..n][..k] == labels[..k];
    }
  }

  /** Where labels have at most 63 characters, so has any stretch without a dot. */
  lemma {:induction false} DotWithin(labels: seq<Text>, a: nat)
    requires (forall k :: 0 <= k < |labels| ==> |labels[k]| <= 63) && a + 64 <= |Join(labels)|
    ensures exists j :: a <= j < a + 64 && Join(labels)[j] == DOT
  {
    var t, n := Join(labels), |labels| - 1;
    if n > 0 {
      var m := |Join(labels[..n])|;
      if a + 64 <= m {
        DotWithin(labels[..n], a);
        var j :| a <= j < a + 64 && Join(labels[..n])[j] == DOT;
        assert t[j] == DOT;
      } else {
        assert t[m] == DOT;
      }
    }
  }

  lemma {:induction false} LabelsShort(pkt: Text, hops: nat, off: nat)
    requires Readable(pkt, hops, off)
    ensures forall k :: 0 <= k < |LabelsAt(pkt, hops, off)| ==> |LabelsAt(pkt, hops, off)[k]| <= 63
    decreases hops, |pkt| - off
  {
    if pkt[off] != 0 {
      if pkt[off] <= 63 {
        LabelsShort(pkt, hops, off + 1 + pkt[off]);
      } else {
        LabelsShort(pkt, hops - 1, Target(pkt, off));
      }
    }
  }

  /** Where label k stands in the name. */
  lemma {:induction false} Stretch(labels: seq<Text>, k: nat) returns (a: nat)
    requires k < |labels|
    ensures a + |labels[k]| <= |Join(labels)| && Join(labels)[a..a + |labels[k]|] == labels[k]
  {
    var n := |labels| - 1;
    if k < n {
      a := Stretch(labels[..n], k);
      var init := Join(labels[..n]);
      assert Join(labels)[a..a + |labels[k]|] == init[a..a + |labels[k]|];
    } else if n == 0 {
      a := 0;
    } else {
      a := |Join(labels[..n])| + 1;
    }
  }

  /** A label that is too long makes a name that cannot be read from any message. */
  lemma TooLong(name: Text, k: nat, read: seq<Text>)
    requires k < |Split(name)| && |Split(name)[k]| > 63 && forall j :: 0 <= j < |read| ==> |read[j]| <= 63
    ensures Join(read) != name
  {
    SplitJoins(name);
    var l := Split(name)[k];
    var a := Stretch(Split(name), k);
    assert NoDots(l);
    NoDotIn(name, a, l);
    if Join(read) == name {
      DotWithin(read, a);
      assert false;
    }
  }

  lemma NoDotIn(name: Text, a: nat, l: Text)
    requires NoDots(l) && a + |l| <= |name| && name[a..a + |l|] == l
    ensures forall j :: a <= j < a + |l| ==> name[j] != DOT
  {
    assert forall j :: a <= j < a + |l| ==> name[j] == l[j - a];
  }

  /** The first label that is empty ends the name when it is read. */
  lemma CutShort(name: Text, k: nat, pre: Text, post: Text, hops: nat)
    requires k < |Split(name)| && AllOk(Split(name)[..k]) && |Split(name)[k]| == 0
    ensures var pkt := pre + Question(name) + post;
            Readable(pkt, hops, |pre|) && LabelsAt(pkt, hops, |pre|) == Split(name)[..k]
    ensures k > 0 ==> Join(Split(name)[..k]) != name
  {
    hide Wire, AllOk, Split;
    var labels := Split(name);
    var pkt, rest := pre + Question(name) + post, labels[k + 1..];
    assert labels == labels[..k] + ([[]] + rest);
    WireCat(labels[..k], [[]] + rest);
    WireFirst([], rest);
    assert Question(name) == Wire(labels[..k]) + [0] + (Wire(rest) + [0, 0, 1, 0, 1]);
    HasQuestion(pre, name, post);
    HasParts(pkt, |pre|, Wire(labels[..k]) + [0], Wire(rest) + [0, 0, 1, 0, 1]);
    ReadWire(pkt, |pre|, labels[..k], hops);
    if k > 0 {
      SplitJoins(name);
      JoinGrows(labels, k);
    }
  }

  lemma {:induction false} FirstBad(labels: seq<Text>) returns (k: nat)
    requires !AllOk(labels)
    ensures k < |labels| && !LabelOk(labels[k]) && AllOk(labels[..k])
  {
    if LabelOk(labels[0]) {
      k := FirstBad(labels[1..]);
      assert labels[..k + 1] == [labels[0]] + labels[1..][..k];
      k := k + 1;
    } else {
      k := 0;
    }
  }

  /** The name in a question, read back, is the name that was asked for if and only if all its
      labels have 1 to 63 characters. */
  lemma RoundTripExactly(name: Text, pre: Text, post: Text, hops: nat)
    ensures var pkt, off := pre + Question(name) + post, |pre|;
            AllOk(Split(name)) <==>
            Readable(pkt, hops, off) && |LabelsAt(pkt, hops, off)| > 0 && Join(LabelsAt(pkt, hops, off)) == name
    ensures AllOk(Split(name)) ==>
              InPlace(pre + Question(name) + post, hops, |pre|) == |name| + 2
  {
    var pkt, off := pre + Question(name) + post, |pre|;
    var labels := Split(name);
    if AllOk(labels) {
      HasQuestion(pre, name, post);
      assert Question(name) == Wire(labels) + [0] + [0, 1, 0, 1];
      HasParts(pkt, off, Wire(labels) + [0], [0, 1, 0, 1]);
      ReadWire(pkt, off, labels, hops);
      SplitJoins(name);
      WireSize(name);
    } else {
      var k := FirstBad(labels);
      if |labels[k]| == 0 {
        CutShort(name, k, pre, post, hops);
      } else if Readable(pkt, hops, off) {
        LabelsShort(pkt, hops, off);
        TooLong(name, k, LabelsAt(pkt, hops, off));
      }
    }
  }

  /** What dns_getrname leaves is then the name, with NUL behind it. */
  lemma {:induction false} DottedJoin(labels: seq<Text>)
    requires |labels| > 0
    ensures Dotted(labels) == Join(labels) + [DOT]
  {
    if |labels| > 1 {
      DottedJoin(labels[1..]);
      JoinFirst(labels[0], labels[1..]);
      assert labels == [labels[0]] + labels[1..];
    } else {
      assert Dotted(labels[1..]) == [];
    }
  }

  lemma {:induction false} JoinFirst(l: Text, rest: seq<Text>)
    requires |rest| > 0
    ensures Join([l] + rest) == l + [DOT] + Join(rest)
  {
    var all, n := [l] + rest, |rest| - 1;
    assert all[..n + 1] == [l] + rest[..n];
    if n > 0 {
      JoinFirst(l, rest[..n]);
    }
  }

  /** The text that a question's name is read into, for a buffer that begins at d. */
  lemma ReadsBack(name: Text, pre: Text, post: Text, hops: nat, buf: Text, was: Text, d: nat)
    requires AllOk(Split(name)) && d <= |was|
    requires var pkt := pre + Question(name) + post;
             Readable(pkt, hops, |pre|) && NameIn(buf, was, was[..d] + Dotted(LabelsAt(pkt, hops, |pre|)))
    ensures d + |name| < |buf| && buf[..d] == was[..d] && buf[d..d + |name| + 1] == name + [0]
  {
    hide AllOk, Readable, LabelsAt, Question, Split, Join, Dotted;
    RoundTripExactly(name, pre, post, hops);
    var pkt := pre + Question(name) + post;
    DottedJoin(LabelsAt(pkt, hops, |pre|));
    var t := was[..d] + (name + [DOT]);
    assert buf[..|t|] == t[|t| - 1 := 0];
    assert t[|t| - 1 := 0] == was[..d] + (name + [0]);
    assert buf[..d] == buf[..|t|][..d];
    assert buf[d..|t|] == buf[..|t|][d..];
  }

  // ---- pointers ----

  /** Every pointer that is met goes to a name that begins before the one it ends. */
  predicate GoesBack(pkt: Text, start: nat, off: nat)
    decreases start, |pkt| - off
  {
    && off < |pkt|
    && (if pkt[off] == 0 then true
        else if pkt[off] <= 63 then off + 1 + pkt[off] < |pkt| && GoesBack(pkt, start, off + 1 + pkt[off])
        else
          off + 1 < |pkt| && Target(pkt, off) < start && GoesBack(pkt, Target(pkt, off), Target(pkt, off)))
  }

  /** Such a name can be read: it takes at most as many pointers as there are bytes before it. */
  lemma {:induction false} BackEnds(pkt: Text, start: nat, off: nat)
    requires GoesBack(pkt, start, off)
    ensures Readable(pkt, start, off)
    decreases start, |pkt| - off
  {
    if pkt[off] != 0 {
      if pkt[off] <= 63 {
        BackEnds(pkt, start, off + 1 + pkt[off]);
      } else {
        BackEnds(pkt, Target(pkt, off), Target(pkt, off));
        MoreHops(pkt, Target(pkt, off), start - 1, Target(pkt, off));
      }
    }
  }

  /** With more pointers allowed the same is read. */
  lemma {:induction false} MoreHops(pkt: Text, hops: nat, more: nat, off: nat)
    requires Readable(pkt, hops, off) && hops <= more
    ensures Readable(pkt, more, off) && LabelsAt(pkt, more, off) == LabelsAt(pkt, hops, off)
    ensures InPlace(pkt, more, off) == InPlace(pkt, hops, off)
    decreases hops, |pkt| - off
  {
    if pkt[off] != 0 {
      if pkt[off] <= 63 {
        MoreHops(pkt, hops, more, off + 1 + pkt[off]);
      } else {
        MoreHops(pkt, hops - 1, more - 1, Target(pkt, off));
      }
    }
  }

  /** A name that ends in a pointer to itself cannot be read. */
  lemma {:induction false} NeverEnds(pkt: Text, hops: nat, off: nat)
    requires off + 1 < |pkt| && pkt[off] > 63 && Target(pkt, off) == off
    ensures !Readable(pkt, hops, off)
    decreases hops
  {
    if hops > 0 {
      NeverEnds(pkt, hops - 1, off);
    }
  }

  /** A name may go on elsewhere: labels at off, and then a pointer to t, which is counted from
      the start of the message. Read from off the name is these labels and those at t, and it
      takes up two bytes for the pointer. */
  lemma {:induction false} ReadPointer(pkt: Text, off: nat, front: seq<Text>, high: Byte, t: nat, hops: nat)
    requires AllOk(front) && t < 0x4000 && high > 63 && high % 64 == t / 256
    requires HasAt(pkt, off, Wire(front) + [high, t % 256]) && Readable(pkt, hops, t)
    ensures Readable(pkt, hops + 1, off) && LabelsAt(pkt, hops + 1, off) == front + LabelsAt(pkt, hops, t)
    ensures InPlace(pkt, hops + 1, off) == |Wire(front)| + 2
    decreases |front|
  {
    hide Wire, AllOk, HasAt, Readable, LabelsAt, InPlace, LabelOk;
    var end: Text := [high, t % 256];
    if |front| > 0 {
      var l, rest := front[0], front[1..];
      RestOk(front);
      WireFirst(l, rest);
      assert front == [l] + rest;
      ShortLabel(l);
      assert Wire(front) + end == [|l|] + (l + (Wire(rest) + end));
      HasParts(pkt, off, [|l|], l + (Wire(rest) + end));
      HasParts(pkt, off + 1, l, Wire(rest) + end);
      ReadPointer(pkt, off + 1 + |l|, rest, high, t, hops);
      ReadLabel(pkt, off, l, hops + 1);
      assert front + LabelsAt(pkt, hops, t) == [l] + (rest + LabelsAt(pkt, hops, t));
    } else {
      HasParts(pkt, off, Wire(front), end);
      NoneWired(front);
      FollowPointer(pkt, off, high, t, hops);
    }
  }

  lemma FollowPointer(pkt: Text, off: nat, high: Byte, t: nat, hops: nat)
    requires t < 0x4000 && high > 63 && high % 64 == t / 256
    requires HasAt(pkt, off, [high, t % 256]) && Readable(pkt, hops, t)
    ensures Readable(pkt, hops + 1, off) && LabelsAt(pkt, hops + 1, off) == LabelsAt(pkt, hops, t)
    ensures InPlace(pkt, hops + 1, off) == 2
  {
    assert pkt[off] == pkt[off..off + 2][0] && pkt[off + 1] == pkt[off..off + 2][1];
    LowBits(high, t);
    assert Target(pkt, off) == t;
    hide Target;
  }

  /** The two highest of 16 bits do not matter. */
  lemma LowBits(high: Byte, t: nat)
    requires t < 0x4000 && high % 64 == t / 256
    ensures (high as int * 256 + t % 256) % 0x4000 == t
  {
    var k := high as int / 64;
    assert high as int * 256 + t % 256 == 0x4000 * k + t;
  }

  /** A name of which the end stands elsewhere in the message, as section 4.1.4 of RFC 1035
      compresses it, is read back whole. */
  lemma CompressedRoundTrip(pkt: Text, off: nat, front: seq<Text>, t: nat, rest: seq<Text>)
    requires AllOk(front) && AllOk(rest) && t < 0x4000
    requires HasAt(pkt, t, Wire(rest) + [0]) && HasAt(pkt, off, Wire(front) + [192 + t / 256, t % 256])
    ensures Readable(pkt, 1, off) && LabelsAt(pkt, 1, off) == front + rest
    ensures InPlace(pkt, 1, off) == |Wire(front)| + 2
  {
    hide Wire, AllOk, HasAt, Readable, LabelsAt, InPlace;
    ReadWire(pkt, t, rest, 0);
    ReadPointer(pkt, off, front, 192 + t / 256, t, 0);
  }

  /** "bb.c" at offset 12, and then "a" and a pointer to it. */
  lemma PointsFromStart()
    ensures var pkt: Text := seq(12, _ => 0) + [2, 98, 98, 1, 99, 0] + [1, 97, 192, 12];
            Readable(pkt, 1, 18) && LabelsAt(pkt, 1, 18) == [[97], [98, 98], [99]] && InPlace(pkt, 1, 18) == 4
  {
    var front: seq<Text>, rest: seq<Text> := [[97]], [[98, 98], [99]];
    var pkt: Text := seq(12, _ => 0) + [2, 98, 98, 1, 99, 0] + [1, 97, 192, 12];
    WireFirst([97], []);
    WireFirst([98, 98], [[99]]);
    WireFirst([99], []);
    assert front == [[97]] + [] && rest == [[98, 98]] + [[99]] && [[99]] == [[99]] + [];
    assert Wire(front) + [192, 12] == [1, 97, 192, 12] && Wire(rest) + [0] == [2, 98, 98, 1, 99, 0];
    assert pkt[18..22] == [1, 97, 192, 12] && pkt[12..18] == [2, 98, 98, 1, 99, 0];
    CompressedRoundTrip(pkt, 18, front, 12, rest);
  }

  // ---- the bytes of a question ----

  /** From a up to e there is no dot in the name, and it goes no further on either side. */
  ghost predicate Label(name: Text, a: int, e: int) {
    && 0 <= a <= e <= |name| && (forall j :: a <= j < e ==> name[j] != DOT)
    && (a == 0 || name[a - 1] == DOT) && (e == |name| || name[e] == DOT)
  }

  /** The last label of a name. */
  lemma {:induction false} LastLabel(name: Text)
    ensures var r := Split(name);
            |r[|r| - 1]| <= |name| && Label(name, |name| - |r[|r| - 1]|, |name|)
  {
    if |name| > 0 {
      var s := name[..|name| - 1];
      LastLabel(s);
      SplitSnoc(s, name[|name| - 1]);
      assert name == s + [name[|name| - 1]];
      hide Split;
    }
  }

  /** Characters stand one further on, and in front of every label is its length. */
  ghost predicate Laid(w: Text, name: Text) {
    && |w| > |name|
    && (forall j :: 0 <= j < |name| && name[j] != DOT ==> w[j + 1] == name[j])
    && forall a, e :: Label(name, a, e) ==> w[a] == (e - a) % 256
  }

  lemma {:induction false} WireLaid(name: Text)
    ensures |Wire(Split(name))| == |name| + 1 && Laid(Wire(Split(name)), name)
  {
    hide Wire, Split;
    if |name| == 0 {
      Nothing();
    } else {
      var s, c := name[..|name| - 1], name[|name| - 1];
      assert name == s + [c];
      WireLaid(s);
      LastLabel(s);
      WireMore(s, c);
      var last := Split(s)[|Split(s)| - 1];
      LaidMore(Wire(Split(s)), s, c, |last|);
    }
  }

  lemma LaidMore(w: Text, s: Text, c: Byte, n: nat)
    requires Laid(w, s) && |w| == |s| + 1 && n <= |s| && Label(s, |s| - n, |s|)
    ensures c == DOT ==> Laid(w + [0], s + [c])
    ensures c != DOT ==> Laid(w[|s| - n := (n + 1) % 256] + [c], s + [c])
  {
    var name := s + [c];
    var v := if c == DOT then w + [0] else w[|s| - n := (n + 1) % 256] + [c];
    assert name[|s|] == c && forall j :: 0 <= j < |s| ==> name[j] == s[j];
    forall a, e | Label(name, a, e)
      ensures v[a] == (e - a) % 256
    {
      if c == DOT {
        assert e <= |s| ==> Label(s, a, e);
      } else if e <= |s| {
        assert Label(s, a, e) && name[e] == DOT;
      } else {
        assert name[|s| - n..|s|] == s[|s| - n..];
        assert a == |s| - n;
      }
    }
  }

  /** The question, byte by byte: it is six bytes longer than the name, holds each character but
      the dots one place further on, the length of each label in front of it, and ends with the
      end of the name and the type and class of an address. */
  lemma QuestionIs(name: Text)
    ensures var q, n := Question(name), |name|;
            && |q| == n + 6 && q[n + 1..] == [0, 0, 1, 0, 1]
            && (forall j :: 0 <= j < n && name[j] != 46 ==> q[j + 1] == name[j])
            && forall a, e :: 0 <= a <= e <= n && Label(name, a, e) ==> q[a] == (e - a) % 256
  {
    hide Wire, Split;
    WireLaid(name);
  }
}
