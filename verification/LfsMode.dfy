/** The mode with which a local file is opened. */
module LfsMode {
  import opened LfsTypes
  import opened LfsSpec
  import opened LfsDevice
  import opened LfsCalls
  import opened LfsOpen

  const LF_MODE_R := 1
  const LF_MODE_W := 2
  const LF_MODE_N := 4
  const LF_MODE_O := 8

  /** How often c stands in the string. */
  function Count(mode: string, c: char): nat {
    if |mode| == 0 then 0
    else Count(mode[..|mode| - 1], c) + if mode[|mode| - 1] == c then 1 else 0
  }

  predicate Known(mode: string) {
    forall k :: 0 <= k < |mode| ==> mode[k] in "rwon"
  }

  /** r and w at most once each, and one of o and n at most. */
  predicate ModeOk(mode: string) {
    && Known(mode) && Count(mode, 'r') <= 1 && Count(mode, 'w') <= 1
    && Count(mode, 'o') + Count(mode, 'n') <= 1
  }

  function Bit(mode: string, c: char, bit: nat): nat {
    if Count(mode, c) > 0 then bit else 0
  }

  /** The bits of the letters, before the default. */
  function Bits(mode: string): nat {
    Bit(mode, 'r', LF_MODE_R) + Bit(mode, 'w', LF_MODE_W) + Bit(mode, 'o', LF_MODE_O) + Bit(mode, 'n', LF_MODE_N)
  }

  /** A letter is in the string if and only if it is counted, and more than once if and only
      if it is at two places. */
  lemma {:induction false} CountMeans(mode: string, c: char)
    ensures Count(mode, c) > 0 <==> exists k :: 0 <= k < |mode| && mode[k] == c
    ensures Count(mode, c) > 1 <==> exists j, k :: 0 <= j < k < |mode| && mode[j] == c && mode[k] == c
  {
    if |mode| > 0 {
      var n := |mode| - 1;
      CountMeans(mode[..n], c);
      assert forall k :: 0 <= k < n ==> mode[..n][k] == mode[k];
    }
  }

  lemma CountMore(mode: string, x: char, c: char)
    ensures Count(mode + [x], c) == Count(mode, c) + if x == c then 1 else 0
  {
    assert (mode + [x])[..|mode|] == mode;
  }

  lemma {:induction false} CountPart(mode: string, k: nat, c: char)
    requires k <= |mode|
    ensures Count(mode[..k], c) <= Count(mode, c)
  {
    if k < |mode| {
      CountPart(mode[..|mode| - 1], k, c);
      assert mode[..|mode| - 1][..k] == mode[..k];
    } else {
      assert mode[..k] == mode;
    }
  }

  lemma OneMore(mode: string, k: nat)
    requires k < |mode|
    ensures mode[..k + 1] == mode[..k] + [mode[k]]
    ensures forall c {:trigger Count(mode[..k], c)} ::
              Count(mode[..k + 1], c) == Count(mode[..k], c) + if mode[k] == c then 1 else 0
    ensures forall c {:trigger Count(mode[..k], c)} :: Count(mode[..k + 1], c) <= Count(mode, c)
  {
    assert mode[..k + 1] == mode[..k] + [mode[k]];
    forall c
      ensures Count(mode[..k + 1], c) == Count(mode[..k], c) + if mode[k] == c then 1 else 0
      ensures Count(mode[..k + 1], c) <= Count(mode, c)
    {
      CountMore(mode[..k], mode[k], c);
      CountPart(mode, k + 1, c);
    }
  }

  /** lfgetmode. It fails exactly for strings that are not well formed; neither r nor w means both. */
  method Lfgetmode(mode: string) returns (mbits: int)
    ensures mbits == SYSERR_CODE <==> !ModeOk(mode)
    ensures ModeOk(mode) ==>
              mbits == if Count(mode, 'r') + Count(mode,
                                                   'w') > 0 then Bits(mode) else Bits(mode) + LF_MODE_R + LF_MODE_W
  {
    hide Count;
    var r, w, o, n := 0, 0, 0, 0;
    var k := 0;
    NoneYet();
    assert mode[..0] == [];
    while k < |mode|
      invariant k <= |mode| && ModeOk(mode[..k])
      invariant r == Bit(mode[..k], 'r', LF_MODE_R) && w == Bit(mode[..k], 'w', LF_MODE_W)
      invariant o == Bit(mode[..k], 'o', LF_MODE_O) && n == Bit(mode[..k], 'n', LF_MODE_N)
    {
      OneMore(mode, k);
      var ch := mode[k];
      assert Known(mode[..k + 1]) <==> Known(mode[..k]) && ch in "rwon";
      assert ModeOk(mode) ==> ModeOk(mode[..k + 1]);
      match ch {
        case 'r' =>
          if r != 0 {
            return SYSERR_CODE;
          }
          r := LF_MODE_R;
        case 'w' =>
          if w != 0 {
            return SYSERR_CODE;
          }
          w := LF_MODE_W;
        case 'o' =>
          if o != 0 || n != 0 {
            return SYSERR_CODE;
          }
          o := LF_MODE_O;
        case 'n' =>
          if o != 0 || n != 0 {
            return SYSERR_CODE;
          }
          n := LF_MODE_N;
        case _ =>
          return SYSERR_CODE;
      }
      k := k + 1;
    }
    assert mode[..k] == mode;
    mbits := r + w + o + n;
    if r + w == 0 {
      mbits := mbits + LF_MODE_R + LF_MODE_W;
    }
  }

  lemma NoneYet()
    ensures ModeOk([]) && Bits([]) == 0
    ensures forall c {:trigger Count([], c)} :: Count([], c) == 0
  {
  }

  /** lfsopen of a name in a mode; nodisk is when no disk was selected. */
  method LfsopenMode(fs: Lfs, nodisk: bool, name: string, mode: string) returns (r: int)
    requires Valid(fs)
    modifies fs, fs.lfltab
    ensures Valid(fs)
    ensures (View(fs), r) ==
            if nodisk || !ModeOk(mode) then (old(View(fs)), SYSERR_CODE)
            else OpenF(old(View(fs)), name, Count(mode, 'o') > 0, Count(mode, 'n') > 0)
  {
    hide Valid, View, OpenF;
    if nodisk {
      return SYSERR_CODE;
    }
    if |name| >= LF_NAME_LEN {
      OpenFails(View(fs), name, Count(mode, 'o') > 0, Count(mode, 'n') > 0);
      return SYSERR_CODE;
    }
    var mbits := Lfgetmode(mode);
    if mbits == SYSERR_CODE {
      return SYSERR_CODE;
    }
    BitsApart(Count(mode, 'r') > 0 || Count(mode, 'w') == 0, Count(mode, 'w') > 0 || Count(mode, 'r') == 0,
              Count(mode, 'o') > 0, Count(mode, 'n') > 0);
    r := Lfsopen(fs, name, mbits / LF_MODE_O % 2 == 1, mbits / LF_MODE_N % 2 == 1);
  }

  /** The bits do not get in each other's way. */
  lemma BitsApart(r: bool, w: bool, o: bool, n: bool)
    ensures var m := (if r then 1 else 0) + (if w then 2 else 0) + (if n then 4 else 0) + if o then 8 else 0;
            (m / LF_MODE_O % 2 == 1 <==> o) && (m / LF_MODE_N % 2 == 1 <==> n)
  {
  }
}
