/** Whitespace trimming as performed by JavaScript's `String.prototype.trim`,
    which the skill and tech-stack inputs apply before anything else. */
module Text {

  /** The characters `trim` strips: the ECMAScript WhiteSpace and
      LineTerminator code points. */
  predicate IsSpace(c: char) {
    || c == ' ' || c == '\t' || c == '\n' || c == '\r'
    || c == '\U{000B}' || c == '\U{000C}' || c == '\U{00A0}' || c == '\U{FEFF}'
    || c == '\U{1680}' || ('\U{2000}' <= c <= '\U{200A}')
    || c == '\U{2028}' || c == '\U{2029}' || c == '\U{202F}' || c == '\U{205F}'
    || c == '\U{3000}'
  }

  /** Every character of `s` is whitespace (so the empty string is blank). */
  predicate AllSpace(s: string)
    decreases |s|
  {
    s == [] || (IsSpace(s[0]) && AllSpace(s[1..]))
  }

  /** A string that neither starts nor ends with whitespace. */
  predicate Tight(s: string) {
    s == [] || (!IsSpace(s[0]) && !IsSpace(s[|s| - 1]))
  }

  /** Drops leading whitespace; what is left does not start with any. */
  function TrimStart(s: string): (r: string)
    ensures |r| <= |s|
    ensures r == [] || !IsSpace(r[0])
  {
    if s != [] && IsSpace(s[0]) then TrimStart(s[1..]) else s
  }

  /** Drops trailing whitespace; what is left is a prefix of `s` that does
      not end with any. */
  function TrimEnd(s: string): (r: string)
    ensures |r| <= |s| && r == s[..|r|]
    ensures r == [] || !IsSpace(r[|r| - 1])
  {
    if s != [] && IsSpace(s[|s| - 1]) then
      var r := TrimEnd(s[..|s| - 1]);
      assert s[..|s| - 1][..|r|] == s[..|r|];
      r
    else s
  }

  /** `s.trim()`: the result has no whitespace at either end. */
  function Trim(s: string): (r: string)
    ensures Tight(r)
  {
    var a := TrimStart(s);
    var r := TrimEnd(a);
    assert r != [] ==> r[0] == a[0];
    r
  }

  lemma {:induction false} AllSpaceAppend(a: string, b: string)
    requires AllSpace(a) && AllSpace(b)
    ensures AllSpace(a + b)
    decreases |a|
  {
    if a != [] {
      assert (a + b)[1..] == a[1..] + b;
      AllSpaceAppend(a[1..], b);
    } else {
      assert a + b == b;
    }
  }

  lemma {:induction false} AllSpaceAt(s: string, k: int)
    requires AllSpace(s) && 0 <= k < |s|
    ensures IsSpace(s[k])
    decreases k
  {
    if k > 0 {
      AllSpaceAt(s[1..], k - 1);
    }
  }

  lemma {:induction false} AllSpaceButLast(s: string)
    requires AllSpace(s) && s != []
    ensures AllSpace(s[..|s| - 1]) && IsSpace(s[|s| - 1])
    decreases |s|
  {
    AllSpaceAt(s, |s| - 1);
    if |s| > 1 {
      AllSpaceButLast(s[1..]);
      assert s[1..][..|s| - 2] == s[..|s| - 1][1..];
    }
  }

  /** The whitespace TrimStart drops. */
  lemma {:induction false} LeadingSpace(s: string) returns (pre: string)
    ensures AllSpace(pre) && s == pre + TrimStart(s)
    decreases |s|
  {
    if s != [] && IsSpace(s[0]) {
      var p := LeadingSpace(s[1..]);
      pre := [s[0]] + p;
      assert pre[1..] == p;
      assert s == [s[0]] + s[1..];
    } else {
      pre := [];
    }
  }

  /** The whitespace TrimEnd drops. */
  lemma {:induction false} TrailingSpace(s: string) returns (post: string)
    ensures AllSpace(post) && s == TrimEnd(s) + post
    decreases |s|
  {
    if s != [] && IsSpace(s[|s| - 1]) {
      var init, last := s[..|s| - 1], s[|s| - 1];
      var p := TrailingSpace(init);
      post := p + [last];
      assert AllSpace(post) by {
        assert AllSpace([last]);
        AllSpaceAppend(p, [last]);
      }
      var t := TrimEnd(init);
      assert TrimEnd(s) == t;
      assert s == t + post by {
        assert s == init + [last];
        assert init == t + p;
      }
    } else {
      post := [];
    }
  }

  /** What `trim` keeps is a contiguous piece of the input with nothing but
      whitespace cut off on either side. */
  lemma TrimSplits(s: string) returns (pre: string, post: string)
    ensures AllSpace(pre) && AllSpace(post)
    ensures s == pre + Trim(s) + post
  {
    var a := TrimStart(s);
    pre := LeadingSpace(s);
    post := TrailingSpace(a);
  }

  /** The trimmed input is empty exactly when the input is blank. */
  lemma TrimBlank(s: string)
    ensures Trim(s) == [] <==> AllSpace(s)
  {
    var pre, post := TrimSplits(s);
    var r := Trim(s);
    if r == [] {
      assert s == pre + post;
      AllSpaceAppend(pre, post);
    } else if AllSpace(s) {
      assert s[|pre|] == r[0];
      AllSpaceAt(s, |pre|);
      assert false;
    }
  }

  lemma {:induction false} TrimStartOfPadded(a: string, m: string)
    requires AllSpace(a) && (m == [] || !IsSpace(m[0]))
    ensures TrimStart(a + m) == m
    decreases |a|
  {
    if a != [] {
      assert (a + m)[0] == a[0] && (a + m)[1..] == a[1..] + m;
      TrimStartOfPadded(a[1..], m);
    } else {
      assert a + m == m;
    }
  }

  lemma {:induction false} TrimEndOfPadded(m: string, b: string)
    requires AllSpace(b) && (m == [] || !IsSpace(m[|m| - 1]))
    ensures TrimEnd(m + b) == m
    decreases |b|
  {
    if b != [] {
      AllSpaceButLast(b);
      assert (m + b)[|m + b| - 1] == b[|b| - 1];
      assert (m + b)[..|m + b| - 1] == m + b[..|b| - 1];
      TrimEndOfPadded(m, b[..|b| - 1]);
    } else {
      assert m + b == m;
    }
  }

  /** Trim is determined by what it keeps: any text without whitespace at its
      ends, padded with whitespace on both sides, trims back to itself. */
  lemma TrimOfPadded(a: string, m: string, b: string)
    requires AllSpace(a) && AllSpace(b) && Tight(m)
    ensures Trim(a + m + b) == m
  {
    var s := a + m + b;
    if m == [] {
      assert AllSpace(s) by {
        assert s == a + b;
        AllSpaceAppend(a, b);
      }
      TrimBlank(s);
    } else {
      assert TrimStart(s) == m + b by {
        assert s == a + (m + b);
        assert (m + b)[0] == m[0];
        TrimStartOfPadded(a, m + b);
      }
      assert TrimEnd(m + b) == m by {
        TrimEndOfPadded(m, b);
      }
    }
  }

  /** Trimming twice is trimming once. */
  lemma TrimIdempotent(s: string)
    ensures Trim(Trim(s)) == Trim(s)
  {
    var t := Trim(s);
    assert [] + t + [] == t;
    TrimOfPadded([], t, []);
  }
}
