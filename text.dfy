/**
 * String helpers with JavaScript's meaning: `trim`, `split`, `join`,
 * ASCII `toLowerCase`, substring search, and the decimal rendering of a
 * natural number.
 */
module Text {

  /** JavaScript's white space: WhiteSpace and LineTerminator, the set that
      both `String.prototype.trim` and the regular-expression class `\s` use. */
  predicate IsSpace(c: char) {
    || c == '\t' || c == '\n' || c == '\U{000B}' || c == '\U{000C}' || c == '\r' || c == ' '
    || c == '\U{00A0}' || c == '\U{1680}' || ('\U{2000}' <= c <= '\U{200A}')
    || c == '\U{2028}' || c == '\U{2029}' || c == '\U{202F}' || c == '\U{205F}'
    || c == '\U{3000}' || c == '\U{FEFF}'
  }

  predicate AllSpace(s: string) {
    forall i :: 0 <= i < |s| ==> IsSpace(s[i])
  }

  lemma AllSpaceAppend(a: string, b: string)
    ensures AllSpace(a + b) <==> AllSpace(a) && AllSpace(b)
  {
    if AllSpace(a + b) {
      assert forall i :: 0 <= i < |a| ==> a[i] == (a + b)[i];
      assert forall i :: 0 <= i < |b| ==> b[i] == (a + b)[|a| + i];
    }
  }

  /** No white space at either end (the empty string included). */
  predicate IsTrimmed(s: string) {
    s == [] || (!IsSpace(s[0]) && !IsSpace(s[|s| - 1]))
  }

  /** `s.trimStart()` */
  function TrimStart(s: string): (r: string)
    ensures |r| <= |s|
    ensures r == [] || !IsSpace(r[0])
  {
    if |s| > 0 && IsSpace(s[0]) then TrimStart(s[1..]) else s
  }

  /** `TrimStart` drops a white-space prefix and keeps the rest. */
  lemma {:induction false} TrimStartSlice(s: string)
    ensures TrimStart(s) == s[|s| - |TrimStart(s)|..]
    ensures AllSpace(s[..|s| - |TrimStart(s)|])
    decreases |s|
  {
    var r := TrimStart(s);
    if |s| > 0 && IsSpace(s[0]) {
      TrimStartSlice(s[1..]);
      TrimStartStep(s, r);
    } else {
      assert s[..0] == [];
    }
  }

  /** A suffix of `s[1..]` after white space is a suffix of `s` after white
      space, when `s[0]` is white space. */
  lemma TrimStartStep(s: string, r: string)
    requires |s| > 0 && IsSpace(s[0])
    requires |r| <= |s| - 1 && r == s[1..][|s| - 1 - |r|..] && AllSpace(s[1..][..|s| - 1 - |r|])
    ensures r == s[|s| - |r|..] && AllSpace(s[..|s| - |r|])
  {
    var k := |s| - |r|;
    forall i | 0 <= i < k ensures IsSpace(s[..k][i]) {
      if i > 0 {
        assert s[..k][i] == s[1..][..k - 1][i - 1];
      }
    }
  }

  /** `s.trimEnd()` */
  function TrimEnd(s: string): (r: string)
    ensures |r| <= |s|
    ensures r == [] || !IsSpace(r[|r| - 1])
  {
    if |s| > 0 && IsSpace(s[|s| - 1]) then TrimEnd(s[..|s| - 1]) else s
  }

  /** `TrimEnd` drops a white-space suffix and keeps the rest. */
  lemma {:induction false} TrimEndSlice(s: string)
    ensures TrimEnd(s) == s[..|TrimEnd(s)|]
    ensures AllSpace(s[|TrimEnd(s)|..])
    decreases |s|
  {
    var r := TrimEnd(s);
    if |s| > 0 && IsSpace(s[|s| - 1]) {
      TrimEndSlice(s[..|s| - 1]);
      TrimEndStep(s, r);
    } else {
      assert s[|s|..] == [];
    }
  }

  /** A prefix of `s[..|s| - 1]` before white space is a prefix of `s` before
      white space, when the last character of `s` is white space. */
  lemma TrimEndStep(s: string, r: string)
    requires |s| > 0 && IsSpace(s[|s| - 1])
    requires |r| <= |s| - 1 && r == s[..|s| - 1][..|r|] && AllSpace(s[..|s| - 1][|r|..])
    ensures r == s[..|r|] && AllSpace(s[|r|..])
  {
    forall i | |r| <= i < |s| ensures IsSpace(s[i]) {
      if i < |s| - 1 {
        assert s[i] == s[..|s| - 1][|r|..][i - |r|];
      }
    }
  }

  /** `s.trim()` */
  function Trim(s: string): (r: string)
    ensures IsTrimmed(r)
    ensures r == [] <==> AllSpace(s)
    ensures |r| <= |s|
  {
    var t := TrimStart(s);
    var r := TrimEnd(t);
    TrimSpec(s);
    r
  }

  /** What `Trim` promises, from the two slices it takes. */
  lemma TrimSpec(s: string)
    ensures IsTrimmed(TrimEnd(TrimStart(s)))
    ensures TrimEnd(TrimStart(s)) == [] <==> AllSpace(s)
  {
    var t := TrimStart(s);
    var r := TrimEnd(t);
    TrimStartSlice(s);
    TrimEndSlice(t);
    assert r == [] ==> AllSpace(s) by {
      if r == [] {
        assert s == s[..|s| - |t|] + t;
        assert AllSpace(t[|r|..]);
      }
    }
    assert r != [] ==> IsTrimmed(r) by {
      if r != [] {
        assert r[0] == t[0];
      }
    }
    assert r != [] ==> !IsSpace(s[|s| - |t|]) by {
      if r != [] {
        assert r[0] == t[0] == s[|s| - |t|];
      }
    }
  }

  /** `Trim(s)` is the slice of `s` between a white-space prefix and a
      white-space suffix; `a` is where it starts. */
  lemma TrimIsSlice(s: string) returns (a: nat)
    ensures a + |Trim(s)| <= |s| && Trim(s) == s[a..a + |Trim(s)|]
    ensures AllSpace(s[..a]) && AllSpace(s[a + |Trim(s)|..])
  {
    var t := TrimStart(s);
    TrimStartSlice(s);
    var r := TrimEnd(t);
    TrimEndSlice(t);
    a := |s| - |t|;
    assert r == s[a..a + |r|];
    forall i | a + |r| <= i < |s| ensures IsSpace(s[i]) {
      assert s[i] == t[|r|..][i - a - |r|];
    }
  }

  // ---------------------------------------------------------------------
  // The text a string carries, white space aside
  // ---------------------------------------------------------------------

  /** The characters of `s` that are not white space, in order. */
  function NonSpace(s: string): (r: string)
    ensures forall i :: 0 <= i < |r| ==> !IsSpace(r[i])
  {
    if s == [] then [] else (if IsSpace(s[0]) then [] else [s[0]]) + NonSpace(s[1..])
  }

  /** The non-white-space characters of several strings, one after another. */
  function NonSpaceAll(xs: seq<string>): string {
    if xs == [] then [] else NonSpace(xs[0]) + NonSpaceAll(xs[1..])
  }

  lemma {:induction false} NonSpaceAppend(a: string, b: string)
    ensures NonSpace(a + b) == NonSpace(a) + NonSpace(b)
    decreases |a|
  {
    if a != [] {
      assert (a + b)[1..] == a[1..] + b;
      NonSpaceAppend(a[1..], b);
    } else {
      assert a + b == b;
    }
  }

  lemma {:induction false} NonSpaceOfSpace(s: string)
    requires AllSpace(s)
    ensures NonSpace(s) == []
    decreases |s|
  {
    if s != [] {
      NonSpaceOfSpace(s[1..]);
    }
  }

  /** Trimming removes white space only. */
  lemma NonSpaceTrim(s: string)
    ensures NonSpace(Trim(s)) == NonSpace(s)
  {
    var a := TrimIsSlice(s);
    var b := a + |Trim(s)|;
    assert s == s[..a] + s[a..b] + s[b..];
    NonSpaceAppend(s[..a] + s[a..b], s[b..]);
    NonSpaceAppend(s[..a], s[a..b]);
    NonSpaceOfSpace(s[..a]);
    NonSpaceOfSpace(s[b..]);
  }

  /** Splitting on a white-space character loses no other character, and
      keeps them in order. */
  lemma {:induction false} SplitOnNonSpace(s: string, c: char)
    requires IsSpace(c)
    ensures NonSpaceAll(SplitOn(s, c)) == NonSpace(s)
    decreases |s|
  {
    if c in s {
      var i := FirstIndex(s, c);
      var rest := SplitOn(s[i + 1..], c);
      assert SplitOn(s, c) == [s[..i]] + rest;
      assert ([s[..i]] + rest)[1..] == rest;
      SplitOnNonSpace(s[i + 1..], c);
      assert s == s[..i] + ([c] + s[i + 1..]);
      NonSpaceAppend(s[..i], [c] + s[i + 1..]);
      assert ([c] + s[i + 1..])[1..] == s[i + 1..];
    } else {
      assert SplitOn(s, c)[1..] == [];
    }
  }

  /** Trimming leaves a trimmed string as it is. */
  lemma TrimTrimmed(s: string)
    requires IsTrimmed(s)
    ensures Trim(s) == s
  {
  }

  /** Trimming keeps a slice of its input, so it adds no character. */
  lemma TrimKeepsOut(s: string, c: char)
    requires c !in s
    ensures c !in Trim(s)
  {
    var t := TrimStart(s);
    TrimStartSlice(s);
    var r := TrimEnd(t);
    TrimEndSlice(t);
    forall k | 0 <= k < |r| ensures r[k] != c {
      assert r[k] == t[k] == s[|s| - |t| + k];
    }
  }

  /**
   * `xs.join(sep)`, defined from the right so that pushing one more element
   * appends `sep` and that element.
   */
  function Join(xs: seq<string>, sep: string): string {
    if |xs| == 0 then ""
    else if |xs| == 1 then xs[0]
    else Join(xs[..|xs| - 1], sep) + sep + xs[|xs| - 1]
  }

  lemma JoinPush(xs: seq<string>, x: string, sep: string)
    ensures Join(xs + [x], sep) == if xs == [] then x else Join(xs, sep) + sep + x
  {
    assert (xs + [x])[..|xs|] == xs;
  }

  /** Joining non-empty trimmed parts with a separator yields a trimmed,
      non-empty string. */
  lemma {:induction false} JoinTrimmed(xs: seq<string>, sep: string)
    requires |xs| > 0
    requires forall k :: 0 <= k < |xs| ==> xs[k] != "" && IsTrimmed(xs[k])
    ensures Join(xs, sep) != "" && IsTrimmed(Join(xs, sep))
    ensures Join(xs, sep)[0] == xs[0][0]
  {
    if |xs| > 1 {
      JoinTrimmed(xs[..|xs| - 1], sep);
    }
  }

  /** `s.split(c)` for a one-character separator. */
  function SplitOn(s: string, c: char): (r: seq<string>)
    ensures |r| >= 1
    ensures forall k :: 0 <= k < |r| ==> c !in r[k]
  {
    if c !in s then [s]
    else
      var i := FirstIndex(s, c);
      [s[..i]] + SplitOn(s[i + 1..], c)
  }

  /** Joining a non-empty tail after a head puts one separator between them. */
  lemma {:induction false} JoinCons(x: string, xs: seq<string>, sep: string)
    requires xs != []
    ensures Join([x] + xs, sep) == x + sep + Join(xs, sep)
    decreases |xs|
  {
    if |xs| > 1 {
      var init := xs[..|xs| - 1];
      JoinCons(x, init, sep);
      assert ([x] + xs)[..|xs|] == [x] + init;
      assert xs[..|xs| - 1] == init;
    } else {
      assert [x] + xs == [x, xs[0]];
      assert [x, xs[0]][..1] == [x];
    }
  }

  /** Splitting on `c` and joining with `c` gives the string back: the pieces
      are exactly the text between consecutive occurrences of `c`. */
  lemma {:induction false} SplitOnJoin(s: string, c: char)
    ensures Join(SplitOn(s, c), [c]) == s
    decreases |s|
  {
    if c in s {
      var i := FirstIndex(s, c);
      var before, after := s[..i], s[i + 1..];
      var rest := SplitOn(after, c);
      calc {
        Join(SplitOn(s, c), [c]);
        Join([before] + rest, [c]);
        { JoinCons(before, rest, [c]); }
        before + [c] + Join(rest, [c]);
        { SplitOnJoin(after, c); }
        before + [c] + after;
        { SplitAround(s, i); }
        s;
      }
    }
  }

  lemma SplitAround(s: string, i: nat)
    requires i < |s|
    ensures s[..i] + [s[i]] + s[i + 1..] == s
  {
  }

  function FirstIndex(s: string, c: char): (i: nat)
    requires c in s
    ensures i < |s| && s[i] == c && c !in s[..i]
  {
    if s[0] == c then 0 else 1 + FirstIndex(s[1..], c)
  }

  /** A character that is not white space, which `SplitOn` puts in one of its
      pieces when the separator is itself white space. */
  lemma {:induction false} SplitOnKeepsText(s: string, c: char) returns (k: nat)
    requires IsSpace(c) && !AllSpace(s)
    ensures k < |SplitOn(s, c)| && !AllSpace(SplitOn(s, c)[k])
    decreases |s|
  {
    var r := SplitOn(s, c);
    if c in s {
      var i := FirstIndex(s, c);
      var rest := SplitOn(s[i + 1..], c);
      assert r == [s[..i]] + rest;
      if AllSpace(s[..i]) {
        SpaceAfterPrefix(s, i);
        var j := SplitOnKeepsText(s[i + 1..], c);
        k := j + 1;
        assert r[k] == rest[j];
      } else {
        k := 0;
      }
    } else {
      k := 0;
    }
  }

  /** When `s` is not all white space but `s[..i]` is and `s[i]` is, the text
      is after `i`. */
  lemma SpaceAfterPrefix(s: string, i: nat)
    requires i < |s| && IsSpace(s[i]) && AllSpace(s[..i]) && !AllSpace(s)
    ensures !AllSpace(s[i + 1..])
  {
    forall t | 0 <= t < i ensures IsSpace(s[t]) { assert s[..i][t] == s[t]; }
    var t :| 0 <= t < |s| && !IsSpace(s[t]);
    assert s[i + 1..][t - i - 1] == s[t];
  }

  function AsciiLowerChar(c: char): char {
    if 'A' <= c <= 'Z' then (c as int + 32) as char else c
  }

  /** `s.toLowerCase()` on ASCII letters. */
  function AsciiLower(s: string): (r: string)
    ensures |r| == |s|
    ensures forall i :: 0 <= i < |s| ==> r[i] == AsciiLowerChar(s[i])
  {
    if s == [] then [] else [AsciiLowerChar(s[0])] + AsciiLower(s[1..])
  }

  predicate StartsWith(s: string, prefix: string) {
    |prefix| <= |s| && s[..|prefix|] == prefix
  }

  /** `s.includes(w)` */
  predicate Contains(s: string, w: string)
    decreases |s|
  {
    StartsWith(s, w) || (|s| > 0 && Contains(s[1..], w))
  }

  /** Decimal digits of a natural number, as `String(n)` writes them. */
  function NatToString(n: nat): (r: string)
    ensures |r| >= 1
    ensures forall i :: 0 <= i < |r| ==> '0' <= r[i] <= '9'
  {
    if n < 10 then [Digit(n)] else NatToString(n / 10) + [Digit(n % 10)]
  }

  /** The number a string of decimal digits spells, most significant first. */
  function DecimalValue(s: string): nat
    requires forall i :: 0 <= i < |s| ==> '0' <= s[i] <= '9'
  {
    if s == [] then 0
    else DecimalValue(s[..|s| - 1]) * 10 + (s[|s| - 1] as int - '0' as int)
  }

  /** `String(n)` spells `n` in decimal, with no leading zero. */
  lemma {:induction false} NatToStringValue(n: nat)
    ensures DecimalValue(NatToString(n)) == n
    ensures NatToString(n)[0] == '0' ==> n == 0
  {
    var r := NatToString(n);
    if n >= 10 {
      NatToStringValue(n / 10);
      assert r[..|r| - 1] == NatToString(n / 10);
    }
  }

  function Digit(d: nat): (c: char)
    requires d < 10
    ensures '0' <= c <= '9'
  {
    ('0' as int + d) as char
  }
}
