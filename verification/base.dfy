/**
 * Small shared vocabulary: an optional value and Ruby's `String#strip`,
 * which the engine applies to a `chdir` node's text and the `echo`
 * plugin applies to its node's text.
 */
module Base {

  /** A value that may be absent (Ruby's `nil`). */
  datatype Option<+T> = None | Some(value: T)

  /**
   * The characters `String#strip` removes: NUL, horizontal tab, line
   * feed, vertical tab, form feed, carriage return and space.
   */
  predicate IsStripSpace(c: char)
  {
    c == ' ' || c as int == 0 || (9 <= c as int <= 13)
  }

  ghost predicate AllSpace(s: string)
  {
    forall k :: 0 <= k < |s| ==> IsStripSpace(s[k])
  }

  /** Removes the leading whitespace; what is left is a suffix of `s`. */
  function StripStart(s: string): (r: string)
    ensures |r| <= |s|
    ensures r == s[|s| - |r|..]
    ensures AllSpace(s[..|s| - |r|])
    ensures r != [] ==> !IsStripSpace(r[0])
  {
    if s != [] && IsStripSpace(s[0]) then StripStart(s[1..]) else s
  }

  /** Removes the trailing whitespace; what is left is a prefix of `s`. */
  function StripEnd(s: string): (r: string)
    ensures |r| <= |s|
    ensures r == s[..|r|]
    ensures AllSpace(s[|r|..])
    ensures r != [] ==> !IsStripSpace(r[|r| - 1])
  {
    if s != [] && IsStripSpace(s[|s| - 1]) then StripEnd(s[..|s| - 1]) else s
  }

  /**
   * `String#strip`: `s` is `pre + r + post` with `pre` and `post` made of
   * whitespace only, and `r` neither starts nor ends with whitespace.
   */
  function Strip(s: string): (r: string)
    ensures exists pre, post :: s == pre + r + post && AllSpace(pre) && AllSpace(post)
    ensures r != [] ==> !IsStripSpace(r[0]) && !IsStripSpace(r[|r| - 1])
  {
    var t := StripStart(s);
    var r := StripEnd(t);
    var pre, post := s[..|s| - |t|], t[|r|..];
    StripSplit(s, t, r);
    assert s == pre + r + post && AllSpace(pre) && AllSpace(post);
    r
  }

  /** The two halves of `Strip` cut `s` into leading space, the result and trailing space. */
  lemma StripSplit(s: string, t: string, r: string)
    requires |t| <= |s| && t == s[|s| - |t|..] && AllSpace(s[..|s| - |t|])
    requires |r| <= |t| && r == t[..|r|] && AllSpace(t[|r|..])
    ensures s == s[..|s| - |t|] + r + t[|r|..]
  {
    assert t == r + t[|r|..];
    assert s == s[..|s| - |t|] + t;
  }

  /** Stripping twice is stripping once. */
  lemma {:induction false} StripIdempotent(s: string)
    ensures Strip(Strip(s)) == Strip(s)
  {
    var r := Strip(s);
    assert StripStart(r) == r by {
      if r != [] {
        assert !IsStripSpace(r[0]);
      }
    }
    assert StripEnd(r) == r by {
      if r != [] {
        assert !IsStripSpace(r[|r| - 1]);
      }
    }
  }
}
