/** Balanced loop brackets give code the nesting shape that the replay proofs walk over
    (Brainf_ckInterpreter.cs:160-176, 366-403, 551-573): every `[` has a body ending at its
    matching `]`, and inside a body the only `]` at its own level is the last token. */
module LoopShape {
  import opened Common
  import opened Brackets
  import opened Tokens
  import opened Resumption

  lemma {:induction false} HeightAppend(a: string, b: string)
    ensures Height(a + b) == Height(a) + Height(b)
    decreases |b|
  {
    if b == [] {
      assert a + b == a;
    } else {
      var b' := b[..|b| - 1];
      assert (a + b)[..|a + b| - 1] == a + b';
      HeightAppend(a, b');
    }
  }

  /** The height of a prefix is the first character's change plus the height of the rest of it. */
  lemma HeightCons(s: string, k: nat)
    requires 1 <= k <= |s|
    ensures Height(s[..k]) == Delta(s[0]) + Height(s[1..][..k - 1])
  {
    assert s[..k] == s[..1] + s[1..][..k - 1];
    assert s[..1][..0] == [];
    HeightAppend(s[..1], s[1..][..k - 1]);
  }

  /** Past a prefix of height 0, the heights of longer prefixes are those of the rest. */
  lemma HeightShift(s: string, n: nat, k: nat)
    requires n + k <= |s| && Height(s[..n]) == 0
    ensures Height(s[n..][..k]) == Height(s[..n + k])
  {
    assert s[..n + k] == s[..n] + s[n..][..k];
    HeightAppend(s[..n], s[n..][..k]);
  }

  lemma DropBalanced(s: string, n: nat)
    requires n <= |s| && Height(s[..n]) == 0 && Balanced(s)
    ensures Balanced(s[n..])
  {
    forall k | 0 <= k <= |s[n..]| ensures Height(s[n..][..k]) >= 0 {
      HeightShift(s, n, k);
    }
    HeightShift(s, n, |s| - n);
    assert s[n..][..|s| - n] == s[n..];
    assert s[..|s|] == s;
  }

  lemma DropUnmatched(s: string, n: nat, e: nat)
    requires UnmatchedCloseAt(s, e) && n <= e && Height(s[..n]) == 0
    ensures UnmatchedCloseAt(s[n..], e - n)
  {
    var u := s[n..][..e - n];
    forall k | 0 <= k <= |u| ensures Height(u[..k]) >= 0 {
      assert u[..k] == s[n..][..k];
      HeightShift(s, n, k);
      assert s[..e][..n + k] == s[..n + k];
    }
    HeightShift(s, n, e - n);
  }

  /** A `]` left unmatched behind an opening `[` takes the rest below zero. */
  lemma UnmatchedPastOpen(s: string, e: nat)
    requires UnmatchedCloseAt(s, e) && |s| > 0 && s[0] == '['
    ensures e >= 1 && Height(s[1..][..e - 1]) == -1
  {
    HeightCons(s, 1);
    assert s[1..][..0] == [];
    if e >= 1 {
      HeightCons(s, e);
    }
  }

  lemma PrefixesNonNegative(s: string, e: nat)
    requires e <= |s| && NonNegative(s[..e])
    ensures forall k :: 0 <= k <= e ==> Height(s[..k]) >= 0
  {
    forall k | 0 <= k <= e ensures Height(s[..k]) >= 0 {
      assert s[..e][..k] == s[..k];
    }
  }

  /** A `]` at `i` is the last token of a loop body. */
  lemma ShapeClose(seg: seq<Token>, i: nat, body: bool)
    requires i < |seg| && seg[i].op == ']'
    requires !body ==> Balanced(OpsOf(seg)[i..])
    requires body ==> UnmatchedCloseAt(OpsOf(seg)[i..], |seg| - 1 - i)
    ensures body && i == |seg| - 1
  {
    var s := OpsOf(seg)[i..];
    HeightCons(s, 1);
    assert s[1..][..0] == [];
    if body {
      PrefixesNonNegative(s, |seg| - 1 - i);
    }
  }

  /** A `[` in balanced code, or before the `]` that ends a body, has a body of its own. */
  lemma OpenHasBody(seg: seq<Token>, i: nat, body: bool)
    requires i < |seg| && seg[i].op == '['
    requires !body ==> Balanced(OpsOf(seg)[i..])
    requires body ==> UnmatchedCloseAt(OpsOf(seg)[i..], |seg| - 1 - i)
    ensures InnerLoop(seg, i).Some?
  {
    var s := OpsOf(seg)[i..];
    var t := s[1..];
    if body {
      UnmatchedPastOpen(s, |seg| - 1 - i);
    } else {
      HeightCons(s, |s|);
      assert s[..|s|] == s;
      assert t[..|t|] == t;
    }
    InnerLoopSpec(seg, i);
    OpsOfSlice(seg, i + 1, |seg|);
    assert OpsOf(seg[i + 1..]) == t;
  }

  /** The body of a `[` ends at the first `]` it leaves unmatched. */
  lemma OpenBody(seg: seq<Token>, i: nat, loop: seq<Token>)
    requires i < |seg| && seg[i].op == '[' && InnerLoop(seg, i) == Some(loop)
    ensures UnmatchedCloseAt(OpsOf(loop)[0..], |loop| - 1 - 0)
  {
    var t := OpsOf(seg)[i..][1..];
    InnerLoopSpec(seg, i);
    OpsOfSlice(seg, i + 1, |seg|);
    assert OpsOf(seg[i + 1..]) == t;
    var n := |loop|;
    OpsOfSlice(seg, i + 1, i + 1 + n);
    assert OpsOf(loop)[0..] == t[..n];
    assert t[..n][..n - 1] == t[..n - 1];
  }

  /** A `[` and its body, up to the matching `]`, together have height 0. */
  lemma OpenLoopAt(seg: seq<Token>, i: nat, loop: seq<Token>)
    requires i < |seg| && seg[i].op == '[' && InnerLoop(seg, i) == Some(loop)
    ensures LoopAt(OpsOf(seg), i, |loop|) && |OpsOf(seg)| == |seg|
  {
    var s := OpsOf(seg)[i..];
    var t := s[1..];
    InnerLoopSpec(seg, i);
    OpsOfSlice(seg, i + 1, |seg|);
    assert OpsOf(seg[i + 1..]) == t;
    HeightCons(s, 1 + |loop|);
    HeightStep(t, |loop| - 1);
  }

  /** In `w`, a `[` at `i` opens a body of `n` characters closed by a matching `]`. */
  ghost predicate LoopAt(w: string, i: nat, n: nat)
  {
    && i < |w| && w[i..][0] == '[' && 1 <= n && i + 1 + n <= |w|
    && UnmatchedCloseAt(w[i..][1..], n - 1) && Height(w[i..][..1 + n]) == 0
  }

  /** Past a loop of height 0 at the front of `s`, the rest nests as `s` did. */
  lemma PastBody(s: string, n: nat, body: bool, e: nat)
    requires |s| > 0 && s[0] == '[' && 1 <= n && 1 + n <= |s| && e == |s| - 1
    requires UnmatchedCloseAt(s[1..], n - 1) && Height(s[..1 + n]) == 0
    requires !body ==> Balanced(s)
    requires body ==> UnmatchedCloseAt(s, e)
    ensures !body ==> Balanced(s[1 + n..])
    ensures body ==> 1 + n < |s| && UnmatchedCloseAt(s[1 + n..], e - (1 + n))
  {
    if body {
      UnmatchedPastOpen(s, e);
      PrefixesNonNegative(s[1..], n - 1);
      DropUnmatched(s, 1 + n, e);
    } else {
      DropBalanced(s, 1 + n);
    }
  }

  /** The code after the body of a `[` keeps the nesting the code from `i` had. */
  lemma ShapeOpen(w: string, i: nat, n: nat, body: bool, e: nat, e2: int)
    requires LoopAt(w, i, n) && e == |w| - 1 - i && e2 == |w| - 1 - (i + 1 + n)
    requires !body ==> Balanced(w[i..])
    requires body ==> UnmatchedCloseAt(w[i..], e)
    ensures !body ==> Balanced(w[i + 1 + n..])
    ensures body ==> i + 1 + n < |w| && UnmatchedCloseAt(w[i + 1 + n..], e2)
  {
    PastBody(w[i..], n, body, e);
    DropSuffix(w, i, 1 + n);
  }

  lemma DropSuffix(s: string, i: nat, k: nat)
    requires i + k <= |s|
    ensures s[i..][k..] == s[i + k..]
  {
  }

  /** Any other token leaves the nesting of the rest as it was. */
  lemma ShapeOther(seg: seq<Token>, i: nat, body: bool)
    requires i < |seg| && seg[i].op != '[' && seg[i].op != ']'
    requires !body ==> Balanced(OpsOf(seg)[i..])
    requires body ==> UnmatchedCloseAt(OpsOf(seg)[i..], |seg| - 1 - i)
    ensures !body ==> Balanced(OpsOf(seg)[i + 1..])
    ensures body ==> i + 1 < |seg| && UnmatchedCloseAt(OpsOf(seg)[i + 1..], |seg| - 1 - (i + 1))
  {
    var s := OpsOf(seg)[i..];
    HeightCons(s, 1);
    assert s[1..][..0] == [];
    OpsOfSlice(seg, i + 1, |seg|);
    assert OpsOf(seg)[i + 1..] == s[1..];
    if body {
      DropUnmatched(s, 1, |seg| - 1 - i);
    } else {
      DropBalanced(s, 1);
    }
  }

  /** Balanced code is shaped as the replay walks expect: every `[` has a body of the same shape
      and, inside a loop body, the only `]` at its own level is the last token. */
  lemma {:induction false} ShapeFrom(seg: seq<Token>, i: nat, body: bool)
    requires i <= |seg|
    requires !body ==> Balanced(OpsOf(seg)[i..])
    requires body ==> UnmatchedCloseAt(OpsOf(seg)[i..], |seg| - 1 - i)
    ensures Shape(seg, i, body)
    decreases |seg|, |seg| - i, 2
  {
    if i < |seg| {
      if seg[i].op == ']' {
        ShapeClose(seg, i, body);
      } else if seg[i].op == '[' {
        ShapeFromOpen(seg, i, body);
      } else {
        ShapeOther(seg, i, body);
        ShapeFrom(seg, i + 1, body);
      }
    }
  }

  lemma {:induction false} ShapeFromOpen(seg: seq<Token>, i: nat, body: bool)
    requires i < |seg| && seg[i].op == '['
    requires !body ==> Balanced(OpsOf(seg)[i..])
    requires body ==> UnmatchedCloseAt(OpsOf(seg)[i..], |seg| - 1 - i)
    ensures Shape(seg, i, body)
    decreases |seg|, |seg| - i, 1
  {
    OpenHasBody(seg, i, body);
    var loop := InnerLoop(seg, i).value;
    ShapeHead(seg, i, loop);
    ShapeTail(seg, i, body, loop);
    ShapeFrom(seg, i + 1 + |loop|, body);
  }

  /** The body of a `[` is shaped as a loop body. */
  lemma {:induction false} ShapeHead(seg: seq<Token>, i: nat, loop: seq<Token>)
    requires i < |seg| && seg[i].op == '[' && InnerLoop(seg, i) == Some(loop)
    ensures Shape(loop, 0, true)
    decreases |seg|, |seg| - i, 0
  {
    OpenBody(seg, i, loop);
    ShapeFrom(loop, 0, true);
  }

  /** The code after the body of a `[` nests as the code from the `[` does. */
  lemma ShapeTail(seg: seq<Token>, i: nat, body: bool, loop: seq<Token>)
    requires i < |seg| && seg[i].op == '[' && InnerLoop(seg, i) == Some(loop)
    requires !body ==> Balanced(OpsOf(seg)[i..])
    requires body ==> UnmatchedCloseAt(OpsOf(seg)[i..], |seg| - 1 - i)
    ensures !body ==> Balanced(OpsOf(seg)[i + 1 + |loop|..])
    ensures body ==> i + 1 + |loop| < |seg| && UnmatchedCloseAt(OpsOf(seg)[i + 1 + |loop|..], |seg| - 1 - (i + 1 + |loop|))
  {
    OpenLoopAt(seg, i, loop);
    ShapeOpen(OpsOf(seg), i, |loop|, body, |seg| - 1 - i, |seg| - 1 - (i + 1 + |loop|));
  }
}
