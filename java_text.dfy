/** The parts of `java.lang.String` the service relies on: `trim`, `isEmpty` after `trim`,
    ASCII `toLowerCase`, and the text string concatenation produces for a null reference. */
module JavaText {
  import opened Wrappers

  /** `String.trim` strips every character at or below U+0020 (space) from both ends. */
  predicate IsTrimmable(c: char) { c <= ' ' }

  predicate AllBlank(s: string) { forall i :: 0 <= i < |s| ==> IsTrimmable(s[i]) }

  /** Neither the first nor the last character (if any) would be stripped by `trim`. */
  predicate NoBlankEnds(s: string) { s == [] || (!IsTrimmable(s[0]) && !IsTrimmable(s[|s| - 1])) }

  /** The leading-strip loop of `String.trim`. */
  function TrimStart(s: string): (r: string)
    ensures |r| <= |s| && r == s[|s| - |r|..]
    ensures AllBlank(s[..|s| - |r|])
    ensures r == [] || !IsTrimmable(r[0])
  {
    if |s| > 0 && IsTrimmable(s[0]) then
      var r := TrimStart(s[1..]);
      assert s[..|s| - |r|] == [s[0]] + s[1..][..|s| - 1 - |r|];
      assert s[1..][|s| - 1 - |r|..] == s[|s| - |r|..];
      r
    else
      s
  }

  /** The trailing-strip loop of `String.trim`. */
  function TrimEnd(s: string): (r: string)
    ensures |r| <= |s| && r == s[..|r|]
    ensures AllBlank(s[|r|..])
    ensures r == [] || !IsTrimmable(r[|r| - 1])
  {
    if |s| > 0 && IsTrimmable(s[|s| - 1]) then
      var r := TrimEnd(s[..|s| - 1]);
      assert s[|r|..] == s[..|s| - 1][|r|..] + [s[|s| - 1]];
      assert s[..|s| - 1][..|r|] == s[..|r|];
      r
    else
      s
  }

  /** Java's `String.trim`: the middle of `s` once blank padding is cut from both ends
      (`TrimSplit` shows that only blanks are cut). */
  function Trim(s: string): (r: string)
    ensures |r| <= |s|
    ensures NoBlankEnds(r)
  {
    var t := TrimStart(s);
    var r := TrimEnd(t);
    assert r != [] ==> r[0] == t[0];
    r
  }

  /** `s.trim().isEmpty()`. */
  predicate IsBlank(s: string) { |Trim(s)| == 0 }

  /** ASCII `Character.toLowerCase`. */
  function LowerChar(c: char): char
  {
    if 'A' <= c <= 'Z' then (c as int + 32) as char else c
  }

  /** `String.toLowerCase`, restricted to ASCII letters. */
  function ToLower(s: string): string
  {
    seq(|s|, i requires 0 <= i < |s| => LowerChar(s[i]))
  }

  predicate StartsWith(s: string, prefix: string) { |prefix| <= |s| && s[..|prefix|] == prefix }

  predicate EndsWith(s: string, suffix: string) { |suffix| <= |s| && s[|s| - |suffix|..] == suffix }

  /** What Java's `+` on strings produces for a possibly null string operand. */
  function NullableText(s: Option<string>): string
  {
    match s
    case None => "null"
    case Some(t) => t
  }

  lemma {:induction false} TrimStartPadded(pre: string, w: string)
    requires AllBlank(pre)
    requires w == [] || !IsTrimmable(w[0])
    ensures TrimStart(pre + w) == w
    decreases |pre|
  {
    if pre != [] {
      assert (pre + w)[1..] == pre[1..] + w;
      TrimStartPadded(pre[1..], w);
    } else {
      assert pre + w == w;
    }
  }

  lemma {:induction false} TrimEndPadded(w: string, post: string)
    requires AllBlank(post)
    requires w == [] || !IsTrimmable(w[|w| - 1])
    ensures TrimEnd(w + post) == w
    decreases |post|
  {
    if post != [] {
      assert (w + post)[..|w + post| - 1] == w + post[..|post| - 1];
      TrimEndPadded(w, post[..|post| - 1]);
    } else {
      assert w + post == w;
    }
  }

  /** `trim` gives back exactly the middle of any blank-padded text whose own ends are not blank:
      together with the contract of `Trim`, this says `Trim(s)` is THE unpadded core of `s`. */
  lemma TrimPadded(pre: string, w: string, post: string)
    requires AllBlank(pre) && AllBlank(post) && NoBlankEnds(w)
    ensures Trim(pre + w + post) == w
  {
    assert pre + w + post == pre + (w + post);
    if w == [] {
      assert AllBlank(pre + post);
      assert TrimStart(pre + post) == [];
      assert pre + w + post == pre + post;
    } else {
      TrimStartPadded(pre, w + post);
      TrimEndPadded(w, post);
    }
  }

  /** A string is blank in the sense of `trim().isEmpty()` exactly when every character of it would be
      stripped by `trim`. */
  lemma BlankIffAllTrimmable(s: string)
    ensures IsBlank(s) <==> AllBlank(s)
  {
    if AllBlank(s) {
      TrimPadded(s, [], []);
      assert s + [] + [] == s;
    }
    if IsBlank(s) {
      var pre, post := TrimSplit(s);
      assert s == pre + post;
    }
  }

  lemma LowerKeepsPadding(x: string)
    ensures AllBlank(x) ==> AllBlank(ToLower(x))
    ensures NoBlankEnds(x) ==> NoBlankEnds(ToLower(x))
  {
    assert forall i :: 0 <= i < |x| ==> (IsTrimmable(ToLower(x)[i]) <==> IsTrimmable(x[i]));
  }

  lemma ToLowerConcat(a: string, b: string, c: string)
    ensures ToLower(a + b + c) == ToLower(a) + ToLower(b) + ToLower(c)
  {
    assert forall i :: 0 <= i < |a + b + c| ==>
      ToLower(a + b + c)[i] == (ToLower(a) + ToLower(b) + ToLower(c))[i];
  }

  /** A string cut into a head, the middle `r` and a tail, where `t` is `s` without its head. */
  lemma ThreeWaySplit(s: string, t: string, r: string)
    requires |t| <= |s| && t == s[|s| - |t|..]
    requires |r| <= |t| && r == t[..|r|]
    ensures s == s[..|s| - |t|] + r + t[|r|..]
  {
    assert s == s[..|s| - |t|] + t;
    assert t == r + t[|r|..];
  }

  /** Every string is its trimmed core with blank padding on both sides. */
  lemma TrimSplit(s: string) returns (pre: string, post: string)
    ensures AllBlank(pre) && AllBlank(post) && s == pre + Trim(s) + post
  {
    var t := TrimStart(s);
    var r := TrimEnd(t);
    assert Trim(s) == r;
    pre, post := s[..|s| - |t|], t[|r|..];
    assert AllBlank(pre) && AllBlank(post);
    ThreeWaySplit(s, t, r);
  }

  /** Java lower-cases before trimming; for ASCII lower-casing the order does not matter, so the
      coercion may equally be read as "trim, then compare case-insensitively". */
  lemma LowerTrimCommute(s: string)
    ensures Trim(ToLower(s)) == ToLower(Trim(s))
  {
    var w := Trim(s);
    var pre, post := TrimSplit(s);
    ToLowerConcat(pre, w, post);
    LowerKeepsPadding(pre);
    LowerKeepsPadding(w);
    LowerKeepsPadding(post);
    TrimPadded(ToLower(pre), ToLower(w), ToLower(post));
  }
}
