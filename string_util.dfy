/**
 * The few functions of Go's `strings` package that the scraper relies on,
 * each given a definition and a contract that characterises it.
 */
module StringUtil {

  /** `pat` occurs in `s` starting at index `i`. */
  ghost predicate OccursAt(s: string, pat: string, i: int) {
    0 <= i && i + |pat| <= |s| && s[i..i + |pat|] == pat
  }

  /** strings.Contains(s, pat), which is also what a jq `test` does with a pattern free of regex operators. */
  function HasInfix(s: string, pat: string): (r: bool)
    ensures r <==> exists i :: OccursAt(s, pat, i)
    decreases |s|
  {
    if |s| < |pat| then false
    else if s[..|pat|] == pat then
      assert OccursAt(s, pat, 0);
      true
    else
      var rest := HasInfix(s[1..], pat);
      assert forall i :: OccursAt(s[1..], pat, i) ==> OccursAt(s, pat, i + 1);
      assert forall i :: OccursAt(s, pat, i) && i > 0 ==> OccursAt(s[1..], pat, i - 1);
      rest
  }

  /** strings.Join(parts, string(sep)). */
  function Join(parts: seq<string>, sep: char): string
  {
    if |parts| == 0 then ""
    else if |parts| == 1 then parts[0]
    else parts[0] + [sep] + Join(parts[1..], sep)
  }

  /**
   * strings.Split(s, string(sep)): the pieces between separators, so always
   * one more piece than there are separators (Split("", '/') is [""]).
   */
  function Split(s: string, sep: char): (parts: seq<string>)
    ensures |parts| >= 1
    ensures forall i :: 0 <= i < |parts| ==> sep !in parts[i]
    decreases |s|
  {
    if s == [] then [""]
    else
      var rest := Split(s[1..], sep);
      if s[0] == sep then [""] + rest
      else [[s[0]] + rest[0]] + rest[1..]
  }

  /** Joining the pieces with the separator gives back the string that was split. */
  lemma {:induction false} SplitThenJoin(s: string, sep: char)
    ensures Join(Split(s, sep), sep) == s
    decreases |s|
  {
    if s != [] {
      var rest := Split(s[1..], sep);
      SplitThenJoin(s[1..], sep);
      assert s == [s[0]] + s[1..];
      if s[0] == sep {
        assert ([""] + rest)[1..] == rest;
      } else {
        var parts := [[s[0]] + rest[0]] + rest[1..];
        assert parts[1..] == rest[1..];
        assert |rest| > 1 ==> Join(rest, sep) == rest[0] + [sep] + Join(rest[1..], sep);
      }
    }
  }

  /** A string with no separator splits into itself. */
  lemma {:induction false} SplitNoSeparator(s: string, sep: char)
    requires sep !in s
    ensures Split(s, sep) == [s]
    decreases |s|
  {
    if s != [] {
      SplitNoSeparator(s[1..], sep);
      assert [s[0]] + s[1..] == s;
    }
  }

  /** Joining pieces that avoid a character other than the separator gives a string that avoids it too. */
  lemma {:induction false} JoinAvoids(parts: seq<string>, sep: char, c: char)
    requires c != sep
    requires forall i :: 0 <= i < |parts| ==> c !in parts[i]
    ensures c !in Join(parts, sep)
    decreases |parts|
  {
    if |parts| > 1 {
      JoinAvoids(parts[1..], sep, c);
    }
  }

  /** A join starts where its first piece starts. */
  lemma JoinHead(parts: seq<string>, sep: char)
    requires |parts| >= 1 && parts[0] != []
    ensures Join(parts, sep) != [] && Join(parts, sep)[0] == parts[0][0]
  {
  }

  /** Splitting `a + sep + rest`, with `a` separator-free, peels `a` off as the first piece. */
  lemma {:induction false} SplitAfterPiece(a: string, rest: string, sep: char)
    requires sep !in a
    ensures Split(a + [sep] + rest, sep) == [a] + Split(rest, sep)
    decreases |a|
  {
    var s := a + [sep] + rest;
    if a == [] {
      assert s == [sep] + rest;
      assert s[1..] == rest;
    } else {
      assert s[1..] == a[1..] + [sep] + rest;
      SplitAfterPiece(a[1..], rest, sep);
      assert [a[0]] + a[1..] == a;
    }
  }

  /** Split inverts Join on separator-free pieces: the pieces of a joined string are the ones joined. */
  lemma {:induction false} SplitJoin(parts: seq<string>, sep: char)
    requires |parts| >= 1
    requires forall i :: 0 <= i < |parts| ==> sep !in parts[i]
    ensures Split(Join(parts, sep), sep) == parts
    decreases |parts|
  {
    if |parts| == 1 {
      SplitNoSeparator(parts[0], sep);
    } else {
      SplitJoin(parts[1..], sep);
      SplitAfterPiece(parts[0], Join(parts[1..], sep), sep);
      assert [parts[0]] + parts[1..] == parts;
    }
  }

  /** strings.TrimLeft(s, string(c)): drops every leading `c`. */
  function TrimLeft(s: string, c: char): (r: string)
    ensures |r| <= |s| && r == s[|s| - |r|..]
    ensures forall k :: 0 <= k < |s| - |r| ==> s[k] == c
    ensures r == [] || r[0] != c
    decreases |s|
  {
    if s != [] && s[0] == c then TrimLeft(s[1..], c) else s
  }

  /** strings.TrimRight(s, string(c)): drops every trailing `c`. */
  function TrimRight(s: string, c: char): (r: string)
    ensures |r| <= |s| && r == s[..|r|]
    ensures forall k :: |r| <= k < |s| ==> s[k] == c
    ensures r == [] || r[|r| - 1] != c
    decreases |s|
  {
    if s != [] && s[|s| - 1] == c then TrimRight(s[..|s| - 1], c) else s
  }

  /** strings.Trim(s, string(c)): drops every leading and trailing `c`. */
  function Trim(s: string, c: char): (r: string)
    ensures |r| <= |s|
    ensures r == [] || (r[0] != c && r[|r| - 1] != c)
  {
    TrimRight(TrimLeft(s, c), c)
  }

  /** The trim is a slice of the input, and everything cut off on either side is `c`. */
  lemma TrimIsSlice(s: string, c: char)
    ensures exists i, j :: 0 <= i <= j <= |s| && Trim(s, c) == s[i..j]
                           && (forall k :: 0 <= k < i ==> s[k] == c) && (forall k :: j <= k < |s| ==> s[k] == c)
  {
    var left := TrimLeft(s, c);
    var i := |s| - |left|;
    assert Trim(s, c) == s[i..i + |Trim(s, c)|];
  }

  /** A string that does not start with `c` is its own left trim. */
  lemma TrimLeftNothing(s: string, c: char)
    requires s == [] || s[0] != c
    ensures TrimLeft(s, c) == s
  {
  }

  /** A string that does not end with `c` is its own right trim. */
  lemma TrimRightNothing(s: string, c: char)
    requires s == [] || s[|s| - 1] != c
    ensures TrimRight(s, c) == s
  {
  }

  /** Every character of `p` is `c`. */
  predicate AllChar(p: string, c: char) {
    forall k :: 0 <= k < |p| ==> p[k] == c
  }

  /** Leading copies of `c` make no difference to the left trim. */
  lemma {:induction false} TrimLeftPadding(c: char, p: string, s: string)
    requires AllChar(p, c)
    ensures TrimLeft(p + s, c) == TrimLeft(s, c)
    decreases |p|
  {
    var t := p + s;
    if p == [] {
      assert t == s;
    } else {
      assert t[0] == c;
      assert t[1..] == p[1..] + s;
      TrimLeftPadding(c, p[1..], s);
    }
  }

  /** Trailing copies of `c` make no difference to the right trim. */
  lemma {:induction false} TrimRightPadding(c: char, s: string, p: string)
    requires AllChar(p, c)
    ensures TrimRight(s + p, c) == TrimRight(s, c)
    decreases |p|
  {
    var t := s + p;
    if p == [] {
      assert t == s;
    } else {
      assert t[|t| - 1] == c;
      assert t[..|t| - 1] == s + p[..|p| - 1];
      TrimRightPadding(c, s, p[..|p| - 1]);
    }
  }

  /** A string that neither starts nor ends with `c` is what trimming `c` from any padding of it gives back. */
  lemma TrimPadded(c: char, pre: string, s: string, post: string)
    requires AllChar(pre, c) && AllChar(post, c)
    requires s == [] || (s[0] != c && s[|s| - 1] != c)
    ensures Trim(pre + s + post, c) == s
  {
    var left := if s == [] then [] else s + post;
    TrimLeftOfPadded(c, pre, s, post);
    TrimRightOfPadded(c, s, post);
    TrimInTwoSteps(pre + s + post, c, left, s);
  }

  /** The left trim of a padded string drops the leading padding, and all of it when nothing else is there. */
  lemma TrimLeftOfPadded(c: char, pre: string, s: string, post: string)
    requires AllChar(pre, c) && AllChar(post, c)
    requires s == [] || s[0] != c
    ensures TrimLeft(pre + s + post, c) == if s == [] then [] else s + post
  {
    var tail := s + post;
    assert pre + s + post == pre + tail;
    TrimLeftPadding(c, pre, tail);
    if s == [] {
      assert tail == post + [];
      TrimLeftPadding(c, post, []);
    } else {
      assert tail[0] == s[0];
      TrimLeftNothing(tail, c);
    }
  }

  /** The right trim then drops the trailing padding. */
  lemma TrimRightOfPadded(c: char, s: string, post: string)
    requires AllChar(post, c)
    requires s == [] || s[|s| - 1] != c
    ensures TrimRight(if s == [] then [] else s + post, c) == s
  {
    if s != [] {
      TrimRightPadding(c, s, post);
      TrimRightNothing(s, c);
    }
  }

  /** Trimming is trimming the left, then the right. */
  lemma TrimInTwoSteps(x: string, c: char, left: string, r: string)
    requires TrimLeft(x, c) == left && TrimRight(left, c) == r
    ensures Trim(x, c) == r
  {
  }

  /** A string that does not contain `c` is its own trim. */
  lemma TrimWithoutChar(s: string, c: char)
    requires c !in s
    ensures Trim(s, c) == s
  {
    TrimLeftNothing(s, c);
    TrimRightNothing(s, c);
  }

  /** strings.TrimPrefix(s, p): `s` without a leading `p`, or `s` itself when it does not start with `p`. */
  function TrimPrefix(s: string, p: string): (r: string)
    ensures p <= s ==> p + r == s
    ensures !(p <= s) ==> r == s
  {
    if p <= s then s[|p|..] else s
  }

  /** Prepending a prefix and trimming it again gives the original string back. */
  lemma TrimPrefixOfConcat(p: string, t: string)
    ensures TrimPrefix(p + t, p) == t
  {
    assert p <= p + t;
  }

  predicate IsUpper(c: char) { 'A' <= c <= 'Z' }

  /** unicode.ToLower on the ASCII range: upper-case letters move down by 32, everything else stays. */
  function LowerChar(c: char): (r: char)
    ensures !IsUpper(r)
    ensures IsUpper(c) ==> r as int == c as int + 32
    ensures !IsUpper(c) ==> r == c
  {
    if IsUpper(c) then (c as int + 32) as char else c
  }

  /** strings.ToLower, restricted to ASCII case mapping. */
  function ToLower(s: string): (r: string)
    ensures |r| == |s|
    ensures forall i :: 0 <= i < |r| ==> r[i] == LowerChar(s[i])
    ensures forall i :: 0 <= i < |r| ==> !IsUpper(r[i])
  {
    seq(|s|, i requires 0 <= i < |s| => LowerChar(s[i]))
  }

  /** Lower-casing is idempotent. */
  lemma ToLowerIdempotent(s: string)
    ensures ToLower(ToLower(s)) == ToLower(s)
  {
  }

  /** Lower-casing works piece by piece. */
  lemma ToLowerConcat(a: string, b: string)
    ensures ToLower(a + b) == ToLower(a) + ToLower(b)
  {
  }

  /** Lower-casing neither creates nor removes a separator or a space. */
  lemma ToLowerKeepsPunctuation(s: string, c: char)
    requires !IsUpper(c) && !('a' <= c <= 'z')
    ensures c in ToLower(s) <==> c in s
  {
    if c in s {
      var i :| 0 <= i < |s| && s[i] == c;
      assert ToLower(s)[i] == c;
    }
  }
}
