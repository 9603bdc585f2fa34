/** RST_str_replace: a first pass counts the occurrences, a second one copies into a buffer of exactly
    the length that the count gives. */
module StrReplace {
  import opened Common
  import opened Containers

  const NUL := '\0'

  /** rep stands in s at i. */
  predicate At(s: string, rep: string, i: nat) { i + |rep| <= |s| && s[i..i + |rep|] == rep }

  /** Where rep first stands in s, from i on. */
  function FirstAt(s: string, rep: string, i: nat): (r: Option<nat>)
    ensures r.Some? ==> i <= r.value && At(s, rep, r.value) && forall k :: i <= k < r.value ==> !At(s, rep, k)
    ensures r.None? ==> forall k :: i <= k ==> !At(s, rep, k)
    decreases |s| - i
  {
    if i + |rep| > |s| then None else if At(s, rep, i) then Some(i) else FirstAt(s, rep, i + 1)
  }

  /** The pieces of s from i on, between the occurrences of rep, found from the left. */
  function Split(s: string, rep: string, i: nat): (ps: seq<string>)
    requires rep != [] && i <= |s|
    ensures ps != []
    decreases |s| - i
  {
    match FirstAt(s, rep, i)
    case None => [s[i..]]
    case Some(k) => [s[i..k]] + Split(s, rep, k + |rep|)
  }

  /** The pieces with `glue` between them. */
  function Glued(ps: seq<string>, glue: string): string
    requires ps != []
  {
    if |ps| == 1 then ps[0] else ps[0] + glue + Glued(ps[1..], glue)
  }

  /** What replacing means: the occurrences of rep, found from the left, give way to `with`. */
  function Replaced(s: string, rep: string, with: string): string
    requires rep != []
  {
    Glued(Split(s, rep, 0), with)
  }

  /** Followed by rep, the piece contains rep only at its end. */
  predicate Clear(p: string, rep: string) { forall k :: 0 <= k < |p| ==> !At(p + rep, rep, k) }

  /** The pieces of a leftmost division. */
  predicate Leftmost(ps: seq<string>, rep: string)
    requires ps != []
  {
    if |ps| == 1 then FirstAt(ps[0], rep, 0).None? else Clear(ps[0], rep) && Leftmost(ps[1..], rep)
  }

  lemma GluedStep(p: string, ps: seq<string>, glue: string)
    requires ps != []
    ensures Glued([p] + ps, glue) == p + glue + Glued(ps, glue) && ([p] + ps)[1..] == ps
  {
  }

  /** Nothing is lost by splitting. */
  lemma {:induction false} SplitGlues(s: string, rep: string, i: nat)
    requires rep != [] && i <= |s|
    ensures Glued(Split(s, rep, i), rep) == s[i..]
    decreases |s| - i
  {
    match FirstAt(s, rep, i)
    case None =>
    case Some(k) =>
      SplitGlues(s, rep, k + |rep|);
      GluedStep(s[i..k], Split(s, rep, k + |rep|), rep);
      assert s[i..] == s[i..k] + s[k..k + |rep|] + s[k + |rep|..];
  }

  lemma {:induction false} AtShift(s: string, rep: string, i: nat, k: nat, j: nat)
    requires i <= k && At(s, rep, k) && j <= k - i
    ensures At(s[i..k] + rep, rep, j) <==> At(s, rep, i + j)
  {
    var t := s[i..k + |rep|];
    assert t == s[i..k] + s[k..k + |rep|];
    var u, v := t[j..j + |rep|], s[i + j..i + j + |rep|];
    assert forall x :: 0 <= x < |rep| ==> u[x] == v[x];
    assert u == v;
  }

  lemma {:induction false} AtInRest(s: string, rep: string, i: nat, j: nat)
    requires i <= |s|
    ensures At(s[i..], rep, j) <==> At(s, rep, i + j)
  {
    if i + j + |rep| <= |s| {
      assert s[i..][j..j + |rep|] == s[i + j..i + j + |rep|];
    }
  }

  /** Where rep first stands in the rest of s. */
  lemma {:induction false} FirstInRest(s: string, rep: string, i: nat)
    requires i <= |s|
    ensures FirstAt(s[i..], rep, 0).None? <==> FirstAt(s, rep, i).None?
  {
    hide At;
    var r, r' := FirstAt(s, rep, i), FirstAt(s[i..], rep, 0);
    if r.Some? {
      AtInRest(s, rep, i, r.value - i);
    }
    if r'.Some? {
      AtInRest(s, rep, i, r'.value);
    }
  }

  lemma {:induction false} ClearBefore(s: string, rep: string, i: nat, k: nat)
    requires i <= k && At(s, rep, k)
    ensures Clear(s[i..k], rep) <==> forall j :: i <= j < k ==> !At(s, rep, j)
  {
    hide At;
    assert k <= |s| by { AtBound(s, rep, k); }
    forall j: nat | j < k - i
      ensures At(s[i..k] + rep, rep, j) <==> At(s, rep, i + j)
    {
      AtShift(s, rep, i, k, j);
    }
    if Clear(s[i..k], rep) {
      forall j | i <= j < k ensures !At(s, rep, j) { assert !At(s[i..k] + rep, rep, j - i); }
    }
  }

  lemma AtBound(s: string, rep: string, k: nat)
    requires At(s, rep, k)
    ensures k + |rep| <= |s|
  {
  }

  lemma {:induction false} SplitLeftmost(s: string, rep: string, i: nat)
    requires rep != [] && i <= |s|
    ensures Leftmost(Split(s, rep, i), rep)
    decreases |s| - i
  {
    hide At, FirstAt, Clear;
    match FirstAt(s, rep, i)
    case None => FirstInRest(s, rep, i);
    case Some(k) =>
      AtBound(s, rep, k);
      SplitLeftmost(s, rep, k + |rep|);
      GluedStep(s[i..k], Split(s, rep, k + |rep|), rep);
      ClearBefore(s, rep, i, k);
  }

  lemma Apart(t: string, p: string, rep: string, rest: string)
    requires t == p + rep + rest
    ensures t[..|p|] == p && t[|p|..|p| + |rep|] == rep && t[|p| + |rep|..] == rest
  {
  }

  /** Only one division is leftmost. */
  lemma {:induction false} LeftmostUnique(ps: seq<string>, s: string, rep: string, i: nat)
    requires rep != [] && i <= |s| && ps != [] && Glued(ps, rep) == s[i..] && Leftmost(ps, rep)
    ensures ps == Split(s, rep, i)
    decreases |ps|
  {
    hide At, FirstAt, Clear;
    var p := ps[0];
    if |ps| == 1 {
      FirstInRest(s, rep, i);
      assert ps == [p];
    } else {
      var k, rest := i + |p|, Glued(ps[1..], rep);
      Apart(s[i..], p, rep, rest);
      Placed(s, i, p, rep, rest);
      ClearBefore(s, rep, i, k);
      FirstIs(s, rep, i, k);
      LeftmostUnique(ps[1..], s, rep, k + |rep|);
      assert ps == [p] + ps[1..];
    }
  }

  lemma {:induction false} Placed(s: string, i: nat, p: string, rep: string, rest: string)
    requires i <= |s| && s[i..] == p + rep + rest
    ensures var k := i + |p|; At(s, rep, k) && s[i..k] == p && s[k + |rep|..] == rest
  {
    var k := i + |p|;
    Apart(s[i..], p, rep, rest);
    assert s[i..k] == s[i..][..|p|] && s[k..k + |rep|] == s[i..][|p|..|p| + |rep|];
    assert s[k + |rep|..] == s[i..][|p| + |rep|..];
  }

  lemma {:induction false} FirstIs(s: string, rep: string, i: nat, k: nat)
    requires i <= k && At(s, rep, k) && forall j :: i <= j < k ==> !At(s, rep, j)
    ensures FirstAt(s, rep, i) == Some(k)
  {
    var r := FirstAt(s, rep, i);
    assert r.Some?;
  }

  /** Splitting is the leftmost division into pieces that occurrences of rep separate, and replacing
      rep by itself changes nothing. */
  lemma {:induction false} SplitExact(ps: seq<string>, s: string, rep: string)
    requires rep != [] && ps != []
    ensures ps == Split(s, rep, 0) <==> Glued(ps, rep) == s && Leftmost(ps, rep)
    ensures Replaced(s, rep, rep) == s
  {
    hide Split, Leftmost, Glued;
    SplitGlues(s, rep, 0);
    SplitLeftmost(s, rep, 0);
    assert s[0..] == s;
    if Glued(ps, rep) == s && Leftmost(ps, rep) {
      LeftmostUnique(ps, s, rep, 0);
    }
  }

  /** The length of the pieces with something between them. */
  lemma {:induction false} GluedLength(ps: seq<string>, a: string, b: string)
    requires ps != []
    ensures |Glued(ps, a)| + |b| * (|ps| - 1) == |Glued(ps, b)| + |a| * (|ps| - 1)
    decreases |ps|
  {
    if |ps| > 1 {
      GluedLength(ps[1..], a, b);
      Distribute(|a|, |ps| - 2);
      Distribute(|b|, |ps| - 2);
    }
  }

  lemma Distribute(a: int, n: int)
    ensures a * (n + 1) == a * n + a
  {
  }

  /** strstr */
  method StrStr(s: string, from: nat, rep: string) returns (r: Option<nat>)
    requires from <= |s|
    ensures r == FirstAt(s, rep, from)
  {
    var i := from;
    while i + |rep| <= |s|
      invariant from <= i && FirstAt(s, rep, i) == FirstAt(s, rep, from)
      decreases |s| - i
    {
      if s[i..i + |rep|] == rep {
        return Some(i);
      }
      i := i + 1;
    }
    r := None;
  }

  /** Copies src into dst at p. */
  method CopyInto(dst: array<char>, p: nat, src: string)
    requires p + |src| <= dst.Length
    modifies dst
    ensures dst[..p + |src|] == old(dst[..p]) + src
  {
    var i := 0;
    while i < |src|
      invariant i <= |src| && dst[..p + i] == old(dst[..p]) + src[..i]
    {
      dst[p + i] := src[i];
      i := i + 1;
    }
    assert src[..i] == src;
  }

  /** The counting pass. */
  method CountOccurrences(s: string, rep: string) returns (count: nat)
    requires rep != []
    ensures count == |Split(s, rep, 0)| - 1
  {
    hide At, FirstAt;
    var ins := 0;
    count := 0;
    var tmp := StrStr(s, ins, rep);
    while tmp.Some?
      invariant ins <= |s| && tmp == FirstAt(s, rep, ins)
      invariant count + |Split(s, rep, ins)| == |Split(s, rep, 0)|
      decreases |s| - ins
    {
      AtBound(s, rep, tmp.value);
      ins := tmp.value + |rep|;
      count := count + 1;
      tmp := StrStr(s, ins, rep);
    }
  }

  /** RST_str_replace; orig and with may be null pointers.  The result is the replaced string and its
      terminator, and fills the buffer. */
  method Replace(orig: Option<string>, rep: string, with: Option<string>) returns (result: array?<char>)
    requires rep != []
    ensures orig.None? ==> result == null
    ensures orig.Some? ==>
              result != null && fresh(result)
              && result[..] == Replaced(orig.value, rep, if with.Some? then with.value else []) + [NUL]
  {
    if orig.None? {
      return null;
    }
    var s := orig.value;
    var w := if with.Some? then with.value else [];
    var count := CountOccurrences(s, rep);
    BufferLength(s, rep, w);
    result := new char[|s| + (|w| - |rep|) * count + 1];
    CopyReplaced(s, rep, w, count, result);
  }

  lemma {:induction false} BufferLength(s: string, rep: string, w: string)
    requires rep != []
    ensures |s| + (|w| - |rep|) * (|Split(s, rep, 0)| - 1) == |Replaced(s, rep, w)|
  {
    hide Split, Glued;
    var n := |Split(s, rep, 0)| - 1;
    SplitGlues(s, rep, 0);
    assert s[0..] == s;
    GluedLength(Split(s, rep, 0), rep, w);
    Difference(|w|, |rep|, n);
  }

  lemma Difference(a: int, b: int, n: int)
    ensures (a - b) * n == a * n - b * n
  {
  }

  /** strncpy of what is before an occurrence, then strcpy of what replaces it, with its terminator. */
  method CopyBoth(result: array<char>, p: nat, front: string, w: string)
    requires p + |front| + |w| < result.Length
    modifies result
    ensures result[..p + |front| + |w|] == old(result[..p]) + front + w
  {
    ghost var before := result[..p];
    CopyInto(result, p, front);
    CopyInto(result, p + |front|, w + [NUL]);
    Terminated(result[..p + |front| + |w| + 1], before + front, w);
    assert result[..p + |front| + |w| + 1][..p + |front| + |w|] == result[..p + |front| + |w|];
  }

  /** The copying pass. */
  method CopyReplaced(s: string, rep: string, w: string, occurrences: nat, result: array<char>)
    requires rep != [] && occurrences == |Split(s, rep, 0)| - 1 && result.Length == |Replaced(s, rep, w)| + 1
    modifies result
    ensures result[..] == Replaced(s, rep, w) + [NUL]
  {
    hide At, FirstAt, Glued;
    ghost var whole := Replaced(s, rep, w);
    var count: nat, tmp: nat, from: nat := occurrences, 0, 0;
    assert result[..0] == [] && [] + whole == whole;
    while count > 0
      invariant from <= |s| && count == |Split(s, rep, from)| - 1
      invariant tmp <= |whole| && result[..tmp] + Glued(Split(s, rep, from), w) == whole
    {
      count := count - 1;
      var ins := StrStr(s, from, rep);
      AtBound(s, rep, ins.value);
      var front := s[from..ins.value];
      Joins(result[..tmp], front, w, Split(s, rep, ins.value + |rep|), whole);
      CopyBoth(result, tmp, front, w);
      tmp := tmp + |front| + |w|;
      from := ins.value + |rep|;
    }
    LastPiece(s, rep, from, w);
    CopyInto(result, tmp, s[from..] + [NUL]);
    assert result[..] == result[..tmp + |s[from..] + [NUL]|];
  }

  lemma Terminated(t: string, before: string, w: string)
    requires t == before + (w + [NUL])
    ensures t[..|before| + |w|] == before + w
  {
  }

  lemma LastPiece(s: string, rep: string, from: nat, w: string)
    requires rep != [] && from <= |s| && |Split(s, rep, from)| == 1
    ensures Glued(Split(s, rep, from), w) == s[from..]
  {
  }

  lemma {:induction false} Joins(a: string, front: string, w: string, ps: seq<string>, whole: string)
    requires ps != [] && a + Glued([front] + ps, w) == whole
    ensures a + front + w + Glued(ps, w) == whole && |a| + |front| + |w| <= |whole|
  {
    hide Glued;
    GluedStep(front, ps, w);
    assert a + (front + w + Glued(ps, w)) == a + front + w + Glued(ps, w);
  }
}
