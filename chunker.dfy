/**
 * The text chunker: `splitParagraphs`, `packParagraphs` and
 * `chunkComposition`. The repository carries it twice, in
 * src/lib/rag-utils.js and scripts/rag-utils.mjs; the two copies differ only
 * in their comments, so this one model stands for both.
 *
 * `packParagraphs` appears in two forms: `PackParagraphs` is
 * the loop over mutable `chunks`, `current` and `currentLen`, and `Pack` is
 * the same computation as a left fold (`PackStep`), which the loop is proved
 * to compute. The fold state also records, for every emitted chunk, the
 * group of paragraphs or lines it was joined from; the lemmas about `Pack`
 * are stated with these groups.
 */
module Chunker {
  import opened Wrappers
  import opened Text

  const DEFAULT_TARGET_CHARS: int := 3500
  const DEFAULT_MAX_CHARS: int := 4500
  /** The budgets `chunkComposition` passes to `packParagraphs`. */
  const COMPOSITION_TARGET_CHARS: int := 3200
  const COMPOSITION_MAX_CHARS: int := 4800

  const PARAGRAPH_SEP: string := "\n\n"
  const LINE_SEP: string := "\n"

  function MaxInt(a: int, b: int): int { if a < b then b else a }

  // ---------------------------------------------------------------------
  // Normalisation and splitting
  // ---------------------------------------------------------------------

  /** `s.replace(/\r\n/g, '\n')`: one left-to-right pass, which drops every
      `'\r'` directly followed by `'\n'` and nothing else. */
  function NormalizeNewlines(s: string): (r: string)
    ensures r == DropCrBeforeLf(s)
    ensures |r| <= |s|
    ensures '\r' !in s ==> r == s
    decreases |s|
  {
    if |s| >= 2 && s[0] == '\r' && s[1] == '\n' then
      DropCrPair(s);
      "\n" + NormalizeNewlines(s[2..])
    else if s == [] then ""
    else [s[0]] + NormalizeNewlines(s[1..])
  }

  /** A CRLF pair leaves only its `'\n'`. */
  lemma DropCrPair(s: string)
    requires |s| >= 2 && s[0] == '\r' && s[1] == '\n'
    ensures DropCrBeforeLf(s) == "\n" + DropCrBeforeLf(s[2..])
  {
    var t := s[1..];
    assert t[1..] == s[2..] && t[0] == '\n';
    assert DropCrBeforeLf(t) == [t[0]] + DropCrBeforeLf(t[1..]);
    assert DropCrBeforeLf(s) == [] + DropCrBeforeLf(t);
  }

  /** The reference for `NormalizeNewlines`: each character kept unless it
      is a `'\r'` with a `'\n'` right after it. */
  function DropCrBeforeLf(s: string): string {
    if s == [] then []
    else (if |s| >= 2 && s[0] == '\r' && s[1] == '\n' then [] else [s[0]]) + DropCrBeforeLf(s[1..])
  }

  /** Normalising line ends removes white space only. */
  lemma {:induction false} NormalizeNewlinesNonSpace(s: string)
    ensures NonSpace(NormalizeNewlines(s)) == NonSpace(s)
    decreases |s|
  {
    if |s| >= 2 && s[0] == '\r' && s[1] == '\n' {
      NormalizeNewlinesNonSpace(s[2..]);
      assert s[1..][1..] == s[2..];
      assert ("\n" + NormalizeNewlines(s[2..]))[1..] == NormalizeNewlines(s[2..]);
    } else if s != [] {
      NormalizeNewlinesNonSpace(s[1..]);
      assert ([s[0]] + NormalizeNewlines(s[1..]))[1..] == NormalizeNewlines(s[1..]);
    }
  }

  /** `.map((p) => p.trim())` */
  function MapTrim(xs: seq<string>): (r: seq<string>)
    ensures |r| == |xs|
    ensures forall k :: 0 <= k < |xs| ==> r[k] == Trim(xs[k])
  {
    seq(|xs|, k requires 0 <= k < |xs| => Trim(xs[k]))
  }

  /** `.filter(Boolean)` on strings: drops the empty ones. */
  function DropEmpty(xs: seq<string>): (r: seq<string>)
    ensures |r| <= |xs|
    ensures forall k :: 0 <= k < |r| ==> r[k] != "" && r[k] in xs
    ensures forall k :: 0 <= k < |xs| && xs[k] != "" ==> xs[k] in r
    ensures (forall k :: 0 <= k < |xs| ==> xs[k] != "") ==> r == xs
  {
    if xs == [] then []
    else (if xs[0] == "" then [] else [xs[0]]) + DropEmpty(xs[1..])
  }

  /** `.filter(Boolean)` distributes over concatenation, so it keeps the
      order and the number of copies of every non-empty string. */
  lemma {:induction false} DropEmptyAppend(a: seq<string>, b: seq<string>)
    ensures DropEmpty(a + b) == DropEmpty(a) + DropEmpty(b)
    decreases |a|
  {
    if a == [] {
      assert a + b == b;
    } else {
      assert (a + b)[1..] == a[1..] + b;
      DropEmptyAppend(a[1..], b);
    }
  }

  /** Dropping empty strings and trimming lose no character but white space. */
  lemma {:induction false} DropEmptyNonSpace(xs: seq<string>)
    ensures NonSpaceAll(DropEmpty(xs)) == NonSpaceAll(xs)
    decreases |xs|
  {
    if xs != [] {
      DropEmptyNonSpace(xs[1..]);
      var rest := DropEmpty(xs[1..]);
      if xs[0] == "" {
        assert DropEmpty(xs) == rest;
        assert NonSpace(xs[0]) == [];
      } else {
        assert DropEmpty(xs) == [xs[0]] + rest;
        assert ([xs[0]] + rest)[1..] == rest;
      }
    }
  }

  lemma {:induction false} MapTrimNonSpace(xs: seq<string>)
    ensures NonSpaceAll(MapTrim(xs)) == NonSpaceAll(xs)
    decreases |xs|
  {
    if xs != [] {
      MapTrimNonSpace(xs[1..]);
      assert MapTrim(xs)[1..] == MapTrim(xs[1..]);
      NonSpaceTrim(xs[0]);
    }
  }

  /** End of the white-space run that starts at `i`. */
  function SpaceRunEnd(s: string, i: nat): (j: nat)
    requires i <= |s|
    ensures i <= j <= |s| && (j == |s| || !IsSpace(s[j]))
    ensures forall k :: i <= k < j ==> IsSpace(s[k])
    decreases |s| - i
  {
    if i < |s| && IsSpace(s[i]) then SpaceRunEnd(s, i + 1) else i
  }

  /** The last `'\n'` in `s[lo..hi]`, if there is one. */
  function LastNewline(s: string, lo: nat, hi: nat): (r: Option<nat>)
    requires lo <= hi <= |s|
    ensures r.Some? ==> lo <= r.value < hi && s[r.value] == '\n'
    ensures r.Some? ==> forall k :: r.value < k < hi ==> s[k] != '\n'
    ensures r.None? ==> forall k :: lo <= k < hi ==> s[k] != '\n'
    decreases hi - lo
  {
    if hi == lo then None
    else if s[hi - 1] == '\n' then Some(hi - 1)
    else LastNewline(s, lo, hi - 1)
  }

  /**
   * Where a match of the regular expression `/\n\s*\n+/` that starts at `q`
   * ends. The greedy `\s*` takes the whole white-space run after the first
   * newline and gives back characters until `\n+` can match, so the match
   * ends just after the last newline of that run; without a second newline
   * there is no match at `q`.
   */
  function BlankLineMatch(s: string, q: nat): (e: Option<nat>)
    requires q < |s|
    ensures e.Some? ==> q + 2 <= e.value <= |s|
    ensures e.Some? ==> forall k :: q <= k < e.value ==> IsSpace(s[k])
    ensures e.Some? ==> s[q] == '\n' && s[e.value - 1] == '\n'
  {
    if s[q] != '\n' then None
    else
      var j := SpaceRunEnd(s, q + 1);
      match LastNewline(s, q + 1, j)
      case None => None
      case Some(k) => Some(k + 1)
  }

  /**
   * JavaScript's `String.prototype.split` with a regular expression: look
   * for a match at each position `q` from the left; on a match ending at `e`
   * emit `s[start..q]` and resume at `e`; at the end emit the rest.
   */
  function SplitFrom(s: string, start: nat, q: nat): (r: seq<string>)
    requires start <= q <= |s|
    ensures |r| >= 1
    decreases |s| - q
  {
    if q == |s| then [s[start..]]
    else
      match BlankLineMatch(s, q)
      case Some(e) => [s[start..q]] + SplitFrom(s, e, e)
      case None => SplitFrom(s, start, q + 1)
  }

  /**
   * A separator of `splitParagraphs` starts at `q`: a newline, then white
   * space, then another newline.
   */
  predicate SeparatorAt(s: string, q: nat)
    requires q < |s|
  {
    s[q] == '\n' && exists j :: q < j < |s| && s[j] == '\n' && forall k :: q < k < j ==> IsSpace(s[k])
  }

  /** No separator starts anywhere in `x`. */
  predicate SeparatorFree(x: string) {
    forall q :: 0 <= q < |x| ==> !SeparatorAt(x, q)
  }

  /**
   * `BlankLineMatch` finds a match exactly where a separator starts, and the
   * match is greedy: it ends just after the last newline of the white-space
   * run, so no newline of that run is left after it.
   */
  lemma BlankLineMatchSpec(s: string, q: nat)
    requires q < |s|
    ensures BlankLineMatch(s, q).Some? <==> SeparatorAt(s, q)
    ensures BlankLineMatch(s, q).Some? ==>
              forall k :: BlankLineMatch(s, q).value <= k < SpaceRunEnd(s, q + 1) ==> s[k] != '\n'
  {
    if s[q] == '\n' {
      var run := SpaceRunEnd(s, q + 1);
      match LastNewline(s, q + 1, run)
      case Some(k) =>
        assert q < k < |s| && s[k] == '\n' && forall m :: q < m < k ==> IsSpace(s[m]);
      case None =>
        forall j | q < j < |s| && s[j] == '\n' ensures exists k :: q < k < j && !IsSpace(s[k]) {
          assert run < j && !IsSpace(s[run]);
        }
    }
  }

  /** A separator inside a slice is a separator of the whole string. */
  lemma SeparatorInSlice(s: string, a: nat, b: nat, q: nat)
    requires a <= b <= |s| && q < b - a && SeparatorAt(s[a..b], q)
    ensures SeparatorAt(s, a + q)
  {
    var x := s[a..b];
    var j :| q < j < |x| && x[j] == '\n' && forall k :: q < k < j ==> IsSpace(x[k]);
    forall k | a + q < k < a + j ensures IsSpace(s[k]) {
      assert s[k] == x[k - a];
    }
    assert s[a + j] == x[j];
  }

  /** A slice of `s` in which no match of `BlankLineMatch` starts has no separator. */
  lemma SliceSeparatorFree(s: string, a: nat, b: nat)
    requires a <= b <= |s|
    requires forall p :: a <= p < b ==> BlankLineMatch(s, p).None?
    ensures SeparatorFree(s[a..b])
  {
    forall q | 0 <= q < b - a ensures !SeparatorAt(s[a..b], q) {
      if SeparatorAt(s[a..b], q) {
        SeparatorInSlice(s, a, b, q);
        BlankLineMatchSpec(s, a + q);
      }
    }
  }

  /** Trimming keeps a string free of separators. */
  lemma TrimSeparatorFree(x: string)
    requires SeparatorFree(x)
    ensures SeparatorFree(Trim(x))
  {
    var a := TrimIsSlice(x);
    forall q | 0 <= q < |Trim(x)| ensures !SeparatorAt(Trim(x), q) {
      if SeparatorAt(Trim(x), q) {
        SeparatorInSlice(x, a, a + |Trim(x)|, q);
      }
    }
  }

  /** The pieces `SplitFrom` emits hold no separator: it cuts at each one. */
  lemma {:induction false} SplitFromSeparatorFree(s: string, start: nat, q: nat)
    requires start <= q <= |s|
    requires forall p :: start <= p < q ==> BlankLineMatch(s, p).None?
    ensures forall k :: 0 <= k < |SplitFrom(s, start, q)| ==> SeparatorFree(SplitFrom(s, start, q)[k])
    decreases |s| - q
  {
    var r := SplitFrom(s, start, q);
    if q == |s| {
      SliceSeparatorFree(s, start, |s|);
      assert s[start..] == s[start..|s|];
    } else {
      match BlankLineMatch(s, q)
      case Some(e) =>
        SliceSeparatorFree(s, start, q);
        SplitFromSeparatorFree(s, e, e);
        assert r == [s[start..q]] + SplitFrom(s, e, e);
      case None =>
        SplitFromSeparatorFree(s, start, q + 1);
    }
  }

  /** The pieces `SplitFrom` emits hold every character of the text but the
      separators' white space, in order. */
  lemma {:induction false} SplitFromNonSpace(s: string, start: nat, q: nat)
    requires start <= q <= |s|
    ensures NonSpaceAll(SplitFrom(s, start, q)) == NonSpace(s[start..])
    decreases |s| - q
  {
    var r := SplitFrom(s, start, q);
    if q == |s| {
      assert r[1..] == [];
    } else {
      match BlankLineMatch(s, q)
      case Some(e) =>
        SplitFromNonSpace(s, e, e);
        assert r[0] == s[start..q] && r[1..] == SplitFrom(s, e, e);
        assert s[start..] == s[start..q] + (s[q..e] + s[e..]);
        NonSpaceAppend(s[start..q], s[q..e] + s[e..]);
        NonSpaceAppend(s[q..e], s[e..]);
        assert AllSpace(s[q..e]) by {
          forall k | 0 <= k < e - q ensures IsSpace(s[q..e][k]) {
            assert s[q..e][k] == s[q + k];
          }
        }
        NonSpaceOfSpace(s[q..e]);
      case None =>
        SplitFromNonSpace(s, start, q + 1);
    }
  }

  /** `s.split(/\n\s*\n+/g)` */
  function SplitBlankLines(s: string): seq<string> {
    SplitFrom(s, 0, 0)
  }

  /** A separator is all white space, so every other character lands in a piece. */
  lemma {:induction false} SplitFromKeepsText(s: string, start: nat, q: nat, t: nat) returns (k: nat)
    requires start <= q <= |s| && start <= t < |s| && !IsSpace(s[t])
    ensures k < |SplitFrom(s, start, q)| && !AllSpace(SplitFrom(s, start, q)[k])
    decreases |s| - q
  {
    var r := SplitFrom(s, start, q);
    if q == |s| {
      k := 0;
      assert r[0] == s[start..];
      assert s[start..][t - start] == s[t];
    } else {
      match BlankLineMatch(s, q)
      case Some(e) =>
        if t < q {
          k := 0;
          assert r[0] == s[start..q];
          assert s[start..q][t - start] == s[t];
        } else {
          assert e <= t;
          var rest := SplitFrom(s, e, e);
          assert r == [s[start..q]] + rest;
          var j := SplitFromKeepsText(s, e, e, t);
          k := j + 1;
          assert r[k] == rest[j];
        }
      case None =>
        k := SplitFromKeepsText(s, start, q + 1, t);
    }
  }

  /** The text `splitParagraphs` and `chunkComposition` work on: CRLF turned
      into LF, then trimmed (`null`/`undefined` read as the empty string). */
  function NormalizedText(text: Option<string>): string {
    Trim(NormalizeNewlines(text.GetOr("")))
  }

  /**
   * `splitParagraphs(text)`: the trimmed, non-empty paragraphs between runs
   * of blank lines. Empty exactly when the text is blank.
   */
  function SplitParagraphs(text: Option<string>): (r: seq<string>)
    ensures r == [] <==> NormalizedText(text) == ""
    ensures forall k :: 0 <= k < |r| ==> r[k] != "" && IsTrimmed(r[k])
  {
    var normalized := NormalizedText(text);
    if normalized == "" then []
    else
      var pieces := SplitBlankLines(normalized);
      var r := DropEmpty(MapTrim(pieces));
      assert r != [] by {
        var t :| 0 <= t < |normalized| && !IsSpace(normalized[t]);
        var k := SplitFromKeepsText(normalized, 0, 0, t);
        assert MapTrim(pieces)[k] != "";
      }
      r
  }

  /** No paragraph holds a blank line: each separator was a cut. */
  lemma ParagraphsSeparatorFree(text: Option<string>)
    ensures forall k :: 0 <= k < |SplitParagraphs(text)| ==> SeparatorFree(SplitParagraphs(text)[k])
  {
    var normalized := NormalizedText(text);
    if normalized != "" {
      var pieces := SplitBlankLines(normalized);
      SplitFromSeparatorFree(normalized, 0, 0);
      var r := SplitParagraphs(text);
      forall k | 0 <= k < |r| ensures SeparatorFree(r[k]) {
        assert r[k] in MapTrim(pieces);
        var i :| 0 <= i < |pieces| && MapTrim(pieces)[i] == r[k];
        TrimSeparatorFree(pieces[i]);
      }
    }
  }

  /** The paragraphs hold every character of the text that is not white
      space, in the order of the text. */
  lemma ParagraphsKeepText(text: Option<string>)
    ensures NonSpaceAll(SplitParagraphs(text)) == NonSpace(text.GetOr(""))
  {
    var raw := text.GetOr("");
    var normalized := NormalizedText(text);
    NormalizeNewlinesNonSpace(raw);
    NonSpaceTrim(NormalizeNewlines(raw));
    if normalized == "" {
      assert NonSpace(normalized) == [];
    } else {
      var pieces := SplitBlankLines(normalized);
      SplitFromNonSpace(normalized, 0, 0);
      assert normalized[0..] == normalized;
      MapTrimNonSpace(pieces);
      DropEmptyNonSpace(MapTrim(pieces));
    }
  }

  // ---------------------------------------------------------------------
  // Paragraphs interleaved with their gaps
  // ---------------------------------------------------------------------

  /** The pieces with a gap between each two: `pieces[0] + gaps[0] + pieces[1] + …`. */
  function Interleave(pieces: seq<string>, gaps: seq<string>): string
    requires |pieces| == |gaps| + 1
    decreases |gaps|
  {
    if gaps == [] then pieces[0] else pieces[0] + gaps[0] + Interleave(pieces[1..], gaps[1..])
  }

  /** A match of `\n\s*\n+`: white space that starts and ends with a newline. */
  predicate SeparatorText(x: string) {
    |x| >= 2 && x[0] == '\n' && x[|x| - 1] == '\n' && AllSpace(x)
  }

  /** What may stand between two paragraphs: white space holding a blank
      line, that is, at least two newlines. */
  predicate Gap(g: string) {
    AllSpace(g) && exists i, j :: 0 <= i < j < |g| && g[i] == '\n' && g[j] == '\n'
  }

  lemma InterleaveCons(x: string, g: string, pieces: seq<string>, gaps: seq<string>)
    requires |pieces| == |gaps| + 1
    ensures Interleave([x] + pieces, [g] + gaps) == x + g + Interleave(pieces, gaps)
  {
    assert ([x] + pieces)[1..] == pieces && ([g] + gaps)[1..] == gaps;
  }

  /** What `BlankLineMatch` matches is a separator. */
  lemma MatchSeparatorText(s: string, q: nat)
    requires q < |s| && BlankLineMatch(s, q).Some?
    ensures SeparatorText(s[q..BlankLineMatch(s, q).value])
  {
    var e := BlankLineMatch(s, q).value;
    var sep := s[q..e];
    forall k | 0 <= k < |sep| ensures IsSpace(sep[k]) {
      assert sep[k] == s[q + k];
    }
  }

  /**
   * `split` cuts only at separators: the pieces, with the separator each
   * cut removed put back between them, are the text again.
   */
  lemma {:induction false} SplitFromInterleave(s: string, start: nat, q: nat) returns (seps: seq<string>)
    requires start <= q <= |s|
    ensures |seps| + 1 == |SplitFrom(s, start, q)|
    ensures forall i :: 0 <= i < |seps| ==> SeparatorText(seps[i])
    ensures Interleave(SplitFrom(s, start, q), seps) == s[start..]
    decreases |s| - q
  {
    if q == |s| {
      seps := [];
    } else if BlankLineMatch(s, q).None? {
      seps := SplitFromInterleave(s, start, q + 1);
    } else {
      var e := BlankLineMatch(s, q).value;
      var more := SplitFromInterleave(s, e, e);
      var sep := s[q..e];
      MatchSeparatorText(s, q);
      seps := [sep] + more;
      forall i | 0 <= i < |seps| ensures SeparatorText(seps[i]) {
        if i > 0 {
          assert seps[i] == more[i - 1];
        }
      }
      InterleaveCons(s[start..q], sep, SplitFrom(s, e, e), more);
      assert s[start..] == s[start..q] + sep + s[e..];
    }
  }

  /** Widening a gap by white space on either side keeps it a gap. */
  lemma GapWiden(a: string, g: string, c: string)
    requires AllSpace(a) && Gap(g) && AllSpace(c)
    ensures Gap(a + g + c)
  {
    var i, j :| 0 <= i < j < |g| && g[i] == '\n' && g[j] == '\n';
    var w := a + g + c;
    assert w[|a| + i] == g[i] && w[|a| + j] == g[j];
  }

  /** Trimming then dropping the blank ones, one piece at a time. */
  lemma TrimDropCons(pieces: seq<string>)
    requires pieces != []
    ensures DropEmpty(MapTrim(pieces)) ==
              (if Trim(pieces[0]) == "" then [] else [Trim(pieces[0])]) + DropEmpty(MapTrim(pieces[1..]))
  {
    assert MapTrim(pieces) == [Trim(pieces[0])] + MapTrim(pieces[1..]);
    assert ([Trim(pieces[0])] + MapTrim(pieces[1..]))[1..] == MapTrim(pieces[1..]);
  }

  /** A string is its trimmed self between two runs of white space. */
  lemma TrimSplit(p: string) returns (pre: string, post: string)
    ensures p == pre + Trim(p) + post && AllSpace(pre) && AllSpace(post)
  {
    var a := TrimIsSlice(p);
    pre, post := p[..a], p[a + |Trim(p)|..];
    assert p == pre + p[a..a + |Trim(p)|] + post;
  }

  lemma Regroup(a: string, b: string, c: string, d: string, e: string, f: string, g: string)
    ensures (a + b + c) + d + (e + f + g) == a + (b + (c + d + e) + f) + g
  {
  }

  /**
   * One step of `TrimDropInterleave`: the piece `p` and the gap `sep` in
   * front of a rest `tail` whose kept pieces `more` are already placed.
   */
  lemma TrimDropStep(p: string, sep: string, tail: string, more: seq<string>,
                     lead': string, gaps': seq<string>, trail': string)
    returns (lead: string, gaps: seq<string>, trail: string)
    requires Gap(sep)
    requires more == [] ==> AllSpace(tail)
    requires more != [] ==>
               && |gaps'| + 1 == |more| && AllSpace(lead') && AllSpace(trail')
               && (forall i :: 0 <= i < |gaps'| ==> Gap(gaps'[i]))
               && tail == lead' + Interleave(more, gaps') + trail'
    ensures var kept := (if Trim(p) == "" then [] else [Trim(p)]) + more;
            kept == [] ==> AllSpace(p + sep + tail)
    ensures var kept := (if Trim(p) == "" then [] else [Trim(p)]) + more;
            kept != [] ==>
              && |gaps| + 1 == |kept| && AllSpace(lead) && AllSpace(trail)
              && (forall i :: 0 <= i < |gaps| ==> Gap(gaps[i]))
              && p + sep + tail == lead + Interleave(kept, gaps) + trail
  {
    if Trim(p) == "" {
      assert (if Trim(p) == "" then [] else [Trim(p)]) + more == more;
      lead, gaps, trail := BlankHeadStep(p, sep, tail, more, lead', gaps', trail');
    } else {
      lead, gaps, trail := KeptHeadStep(p, sep, tail, more, lead', gaps', trail');
    }
  }

  /** `TrimDropStep` when the piece in front is blank: it joins the gap. */
  lemma BlankHeadStep(p: string, sep: string, tail: string, more: seq<string>,
                      lead': string, gaps': seq<string>, trail': string)
    returns (lead: string, gaps: seq<string>, trail: string)
    requires Trim(p) == "" && Gap(sep)
    requires more == [] ==> AllSpace(tail)
    requires more != [] ==>
               && |gaps'| + 1 == |more| && AllSpace(lead') && AllSpace(trail')
               && (forall i :: 0 <= i < |gaps'| ==> Gap(gaps'[i]))
               && tail == lead' + Interleave(more, gaps') + trail'
    ensures more == [] ==> AllSpace(p + sep + tail)
    ensures more != [] ==>
              && |gaps| + 1 == |more| && AllSpace(lead) && AllSpace(trail)
              && (forall i :: 0 <= i < |gaps| ==> Gap(gaps[i]))
              && p + sep + tail == lead + Interleave(more, gaps) + trail
  {
    AllSpaceAppend(p, sep);
    if more == [] {
      lead, gaps, trail := "", [], "";
      AllSpaceAppend(p + sep, tail);
    } else {
      lead, gaps, trail := p + sep + lead', gaps', trail';
      AllSpaceAppend(p + sep, lead');
      Regroup(p, sep, "", lead', "", Interleave(more, gaps'), trail');
    }
  }

  /** `TrimDropStep` when the piece in front keeps text: it becomes the
      first paragraph, and its trailing white space joins the next gap. */
  lemma KeptHeadStep(p: string, sep: string, tail: string, more: seq<string>,
                     lead': string, gaps': seq<string>, trail': string)
    returns (lead: string, gaps: seq<string>, trail: string)
    requires Trim(p) != "" && Gap(sep)
    requires more == [] ==> AllSpace(tail)
    requires more != [] ==>
               && |gaps'| + 1 == |more| && AllSpace(lead') && AllSpace(trail')
               && (forall i :: 0 <= i < |gaps'| ==> Gap(gaps'[i]))
               && tail == lead' + Interleave(more, gaps') + trail'
    ensures && |gaps| == |more| && AllSpace(lead) && AllSpace(trail)
            && (forall i :: 0 <= i < |gaps| ==> Gap(gaps[i]))
            && p + sep + tail == lead + Interleave([Trim(p)] + more, gaps) + trail
  {
    var x := Trim(p);
    var pre, post := TrimSplit(p);
    if more == [] {
      lead, gaps, trail := pre, [], post + sep + tail;
      assert [x] + more == [x];
      AllSpaceAppend(post, sep);
      AllSpaceAppend(post + sep, tail);
      Regroup(pre, x, post, sep, tail, "", "");
    } else {
      var g := post + sep + lead';
      lead, gaps, trail := pre, [g] + gaps', trail';
      GapWiden(post, sep, lead');
      forall i | 0 <= i < |gaps| ensures Gap(gaps[i]) {
        if i > 0 {
          assert gaps[i] == gaps'[i - 1];
        }
      }
      InterleaveCons(x, g, more, gaps');
      Regroup(pre, x, post, sep, lead', Interleave(more, gaps'), trail');
    }
  }

  /**
   * Trimming the pieces and dropping the blank ones: what is left, with
   * gaps between, is the original text less some white space at either
   * end, and each gap still holds one of the original gaps.
   */
  lemma {:induction false} TrimDropInterleave(pieces: seq<string>, seps: seq<string>)
    returns (lead: string, gaps: seq<string>, trail: string)
    requires |pieces| == |seps| + 1
    requires forall i :: 0 <= i < |seps| ==> Gap(seps[i])
    ensures DropEmpty(MapTrim(pieces)) == [] ==> AllSpace(Interleave(pieces, seps))
    ensures DropEmpty(MapTrim(pieces)) != [] ==>
              && |gaps| + 1 == |DropEmpty(MapTrim(pieces))|
              && AllSpace(lead) && AllSpace(trail)
              && (forall i :: 0 <= i < |gaps| ==> Gap(gaps[i]))
              && Interleave(pieces, seps) == lead + Interleave(DropEmpty(MapTrim(pieces)), gaps) + trail
    decreases |seps|
  {
    TrimDropCons(pieces);
    if seps == [] {
      var pre, post := TrimSplit(pieces[0]);
      lead, gaps, trail := pre, [], post;
      assert pieces[1..] == [];
    } else {
      var lead', gaps', trail' := TrimDropInterleave(pieces[1..], seps[1..]);
      var tail := Interleave(pieces[1..], seps[1..]);
      assert Interleave(pieces, seps) == pieces[0] + seps[0] + tail;
      lead, gaps, trail := TrimDropStep(pieces[0], seps[0], tail, DropEmpty(MapTrim(pieces[1..])),
                                        lead', gaps', trail');
    }
  }

  /**
   * The paragraphs are the normalised text cut at blank lines and nowhere
   * else: with a gap of white space holding a blank line put back between
   * each two, they are the normalised text again.
   */
  lemma ParagraphsBetweenGaps(text: Option<string>) returns (gaps: seq<string>)
    requires NormalizedText(text) != ""
    ensures |gaps| + 1 == |SplitParagraphs(text)|
    ensures forall i :: 0 <= i < |gaps| ==> Gap(gaps[i])
    ensures Interleave(SplitParagraphs(text), gaps) == NormalizedText(text)
  {
    var n := NormalizedText(text);
    var pieces := SplitBlankLines(n);
    var seps := SplitFromInterleave(n, 0, 0);
    assert n[0..] == n;
    SeparatorsAreGaps(seps);
    var lead, trail;
    lead, gaps, trail := TrimDropInterleave(pieces, seps);
    assert SplitParagraphs(text) == DropEmpty(MapTrim(pieces));
    TrimmedUnpadded(n, lead, Interleave(SplitParagraphs(text), gaps), trail);
  }

  lemma SeparatorsAreGaps(seps: seq<string>)
    requires forall i :: 0 <= i < |seps| ==> SeparatorText(seps[i])
    ensures forall i :: 0 <= i < |seps| ==> Gap(seps[i])
  {
    forall i | 0 <= i < |seps| ensures Gap(seps[i]) {
      assert seps[i][0] == '\n' && seps[i][|seps[i]| - 1] == '\n';
    }
  }

  /** White space around a trimmed string is empty. */
  lemma TrimmedUnpadded(n: string, lead: string, mid: string, trail: string)
    requires n == lead + mid + trail && IsTrimmed(n)
    requires AllSpace(lead) && AllSpace(trail)
    ensures n == mid
  {
    assert lead == "" && trail == "";
  }

  /** A gap holds a separator of any text it stands in. */
  lemma GapInside(a: string, g: string, b: string)
    requires Gap(g)
    ensures !SeparatorFree(a + g + b)
  {
    var i, j :| 0 <= i < j < |g| && g[i] == '\n' && g[j] == '\n';
    var w := a + g + b;
    forall k | |a| <= k < |a| + |g| ensures w[k] == g[k - |a|] {
    }
    assert SeparatorAt(w, |a| + i) by {
      assert w[|a| + j] == '\n';
      assert forall k :: |a| + i < k < |a| + j ==> IsSpace(w[k]);
    }
  }

  /** A gap between two pieces holds a separator of the whole. */
  lemma GapSeparator(pieces: seq<string>, gaps: seq<string>)
    requires |pieces| == |gaps| + 1
    requires forall i :: 0 <= i < |gaps| ==> Gap(gaps[i])
    ensures gaps != [] ==> !SeparatorFree(Interleave(pieces, gaps))
  {
    if gaps != [] {
      GapInside(pieces[0], gaps[0], Interleave(pieces[1..], gaps[1..]));
    }
  }

  /** Text without a blank line in it is one paragraph: the whole
      normalised text. */
  lemma OneParagraph(text: Option<string>)
    requires NormalizedText(text) != "" && SeparatorFree(NormalizedText(text))
    ensures SplitParagraphs(text) == [NormalizedText(text)]
  {
    var gaps := ParagraphsBetweenGaps(text);
    GapSeparator(SplitParagraphs(text), gaps);
  }

  /** `p.split('\n').map((l) => l.trim()).filter(Boolean)`: the trimmed,
      non-empty lines of an over-long paragraph. */
  function Lines(p: string): (r: seq<string>)
    ensures forall k :: 0 <= k < |r| ==> r[k] != "" && IsTrimmed(r[k]) && '\n' !in r[k]
    ensures !AllSpace(p) ==> r != []
  {
    var pieces := SplitOn(p, '\n');
    MapTrimKeepsOut(pieces, '\n');
    var r := DropEmpty(MapTrim(pieces));
    if AllSpace(p) then r else LinesNonEmpty(p); r
  }

  /** The lines hold every character of the paragraph that is not white
      space, in order. */
  lemma LinesKeepText(p: string)
    ensures NonSpaceAll(Lines(p)) == NonSpace(p)
  {
    var pieces := SplitOn(p, '\n');
    SplitOnNonSpace(p, '\n');
    MapTrimNonSpace(pieces);
    DropEmptyNonSpace(MapTrim(pieces));
  }

  /** Trimming pieces that lack a character keeps it out. */
  lemma MapTrimKeepsOut(pieces: seq<string>, c: char)
    requires forall k :: 0 <= k < |pieces| ==> c !in pieces[k]
    ensures forall k :: 0 <= k < |pieces| ==> c !in MapTrim(pieces)[k] && IsTrimmed(MapTrim(pieces)[k])
  {
    forall k | 0 <= k < |pieces| ensures c !in MapTrim(pieces)[k] && IsTrimmed(MapTrim(pieces)[k]) {
      TrimKeepsOut(pieces[k], c);
    }
  }

  /** Some line of a paragraph that is not all white space survives. */
  lemma LinesNonEmpty(p: string)
    requires !AllSpace(p)
    ensures DropEmpty(MapTrim(SplitOn(p, '\n'))) != []
  {
    var pieces := SplitOn(p, '\n');
    var k := SplitOnKeepsText(p, '\n');
    assert MapTrim(pieces)[k] != "";
  }

  // ---------------------------------------------------------------------
  // What the chunks must cover
  // ---------------------------------------------------------------------

  /** The pieces one input paragraph contributes: nothing when blank, its
      lines when longer than `maxChars`, else the trimmed paragraph itself. */
  function PartsOf(para: string, maxChars: int): seq<string> {
    var p := Trim(para);
    if p == "" then [] else if |p| > maxChars then Lines(p) else [p]
  }

  /** All pieces of the input, in input order. */
  function Parts(ps: seq<string>, maxChars: int): seq<string> {
    if ps == [] then [] else Parts(ps[..|ps| - 1], maxChars) + PartsOf(ps[|ps| - 1], maxChars)
  }

  /** The pieces a chunk was joined from, and the separator used. */
  datatype Group = Group(parts: seq<string>, sep: string)

  function Flatten(gs: seq<Group>): seq<string> {
    if gs == [] then [] else Flatten(gs[..|gs| - 1]) + gs[|gs| - 1].parts
  }

  lemma {:induction false} FlattenAppend(a: seq<Group>, b: seq<Group>)
    ensures Flatten(a + b) == Flatten(a) + Flatten(b)
    decreases |b|
  {
    if b == [] {
      assert a + b == a;
    } else {
      assert (a + b)[..|a + b| - 1] == a + b[..|b| - 1];
      assert (a + b)[|a + b| - 1] == b[|b| - 1];
      FlattenAppend(a, b[..|b| - 1]);
    }
  }

  lemma FlattenPush(a: seq<Group>, g: Group)
    ensures Flatten(a + [g]) == Flatten(a) + g.parts
  {
    assert (a + [g])[..|a|] == a;
  }

  /**
   * A well-formed chunk: the join of its group's non-empty trimmed pieces
   * (paragraphs with a blank line between them, or lines with a newline),
   * and no longer than `bound` unless it is one single line.
   */
  predicate GoodChunk(c: string, g: Group, bound: int) {
    && |g.parts| >= 1
    && (g.sep == PARAGRAPH_SEP || g.sep == LINE_SEP)
    && (forall k :: 0 <= k < |g.parts| ==> g.parts[k] != "" && IsTrimmed(g.parts[k]))
    && c == Join(g.parts, g.sep)
    && (|c| <= bound || (|g.parts| == 1 && '\n' !in c))
  }

  predicate GoodChunks(chunks: seq<string>, groups: seq<Group>, bound: int) {
    |chunks| == |groups| && forall k :: 0 <= k < |chunks| ==> GoodChunk(chunks[k], groups[k], bound)
  }

  lemma GoodChunksPush(chunks: seq<string>, groups: seq<Group>, c: string, g: Group, bound: int)
    requires GoodChunks(chunks, groups, bound) && GoodChunk(c, g, bound)
    ensures GoodChunks(chunks + [c], groups + [g], bound)
  {
    forall k | 0 <= k < |chunks| + 1 ensures GoodChunk((chunks + [c])[k], (groups + [g])[k], bound) {
      if k < |chunks| {
        assert (chunks + [c])[k] == chunks[k] && (groups + [g])[k] == groups[k];
      }
    }
  }

  lemma GoodChunksAppend(c1: seq<string>, g1: seq<Group>, c2: seq<string>, g2: seq<Group>, b1: int, b2: int)
    requires GoodChunks(c1, g1, b1) && GoodChunks(c2, g2, b2) && b2 <= b1
    ensures GoodChunks(c1 + c2, g1 + g2, b1)
  {
    forall k | 0 <= k < |c1| + |c2| ensures GoodChunk((c1 + c2)[k], (g1 + g2)[k], b1) {
      if k < |c1| {
        assert (c1 + c2)[k] == c1[k] && (g1 + g2)[k] == g1[k];
      } else {
        assert (c1 + c2)[k] == c2[k - |c1|] && (g1 + g2)[k] == g2[k - |c1|];
        assert GoodChunk(c2[k - |c1|], g2[k - |c1|], b2);
      }
    }
  }

  lemma GoodChunkNonEmpty(c: string, g: Group, bound: int)
    requires GoodChunk(c, g, bound)
    ensures c != "" && IsTrimmed(c)
  {
    JoinTrimmed(g.parts, g.sep);
  }

  // ---------------------------------------------------------------------
  // Splitting an over-long paragraph on lines (the inner loop)
  // ---------------------------------------------------------------------

  datatype LineState = LineState(chunks: seq<string>, groups: seq<Group>, buf: string, bufLines: seq<string>)

  /** One iteration of the inner loop over `lines`. */
  function LineStep(st: LineState, line: string, maxChars: int): LineState {
    var next := if st.buf != "" then st.buf + LINE_SEP + line else line;
    if |next| > maxChars then
      if st.buf != "" then
        LineState(st.chunks + [st.buf], st.groups + [Group(st.bufLines, LINE_SEP)], line, [line])
      else LineState(st.chunks, st.groups, line, [line])
    else LineState(st.chunks, st.groups, next, st.bufLines + [line])
  }

  function LineFold(lines: seq<string>, maxChars: int): LineState {
    if lines == [] then LineState([], [], "", [])
    else LineStep(LineFold(lines[..|lines| - 1], maxChars), lines[|lines| - 1], maxChars)
  }

  /** The chunks the over-long paragraph `p` becomes: the inner loop, then
      `if (buf) chunks.push(buf)`. */
  function LongParagraphChunks(p: string, maxChars: int): LineState {
    var st := LineFold(Lines(p), maxChars);
    if st.buf != "" then LineState(st.chunks + [st.buf], st.groups + [Group(st.bufLines, LINE_SEP)], "", [])
    else LineState(st.chunks, st.groups, "", [])
  }

  predicate LineInv(st: LineState, lines: seq<string>, maxChars: int) {
    && GoodChunks(st.chunks, st.groups, maxChars)
    && (forall k :: 0 <= k < |st.groups| ==> st.groups[k].sep == LINE_SEP)
    && BufInv(st.buf, st.bufLines, maxChars)
    && Flatten(st.groups) + st.bufLines == lines
  }

  /** The line buffer `buf` is the newline-join of the lines in it. */
  predicate BufInv(buf: string, bufLines: seq<string>, maxChars: int) {
    && buf == Join(bufLines, LINE_SEP)
    && (buf == "" <==> bufLines == [])
    && (bufLines == [] || |buf| <= maxChars || (|bufLines| == 1 && '\n' !in buf))
    && (forall k :: 0 <= k < |bufLines| ==> bufLines[k] != "" && IsTrimmed(bufLines[k]))
  }

  predicate GoodLine(line: string) {
    line != "" && IsTrimmed(line) && '\n' !in line
  }

  predicate GoodLines(lines: seq<string>) {
    forall k :: 0 <= k < |lines| ==> GoodLine(lines[k])
  }

  /** Emitting the buffer yields a well-formed chunk. */
  lemma EmitBuf(buf: string, bufLines: seq<string>, maxChars: int)
    requires BufInv(buf, bufLines, maxChars) && buf != ""
    ensures GoodChunk(buf, Group(bufLines, LINE_SEP), maxChars)
  {
  }

  lemma LineStepInv(st: LineState, pre: seq<string>, line: string, maxChars: int)
    requires LineInv(st, pre, maxChars) && GoodLine(line)
    ensures LineInv(LineStep(st, line, maxChars), pre + [line], maxChars)
  {
    var next := if st.buf != "" then st.buf + LINE_SEP + line else line;
    assert Join([line], LINE_SEP) == line;
    if |next| > maxChars {
      if st.buf != "" {
        var g := Group(st.bufLines, LINE_SEP);
        EmitBuf(st.buf, st.bufLines, maxChars);
        GoodChunksPush(st.chunks, st.groups, st.buf, g, maxChars);
        FlattenPush(st.groups, g);
        assert BufInv(line, [line], maxChars);
      } else {
        assert BufInv(line, [line], maxChars);
      }
    } else {
      JoinPush(st.bufLines, line, LINE_SEP);
      JoinTrimmed(st.bufLines + [line], LINE_SEP);
      assert BufInv(next, st.bufLines + [line], maxChars);
    }
  }

  lemma {:induction false} LineFoldInv(lines: seq<string>, maxChars: int)
    requires GoodLines(lines)
    ensures LineInv(LineFold(lines, maxChars), lines, maxChars)
    decreases |lines|
  {
    if lines == [] {
      assert BufInv("", [], maxChars);
    } else {
      var pre := lines[..|lines| - 1];
      var line := lines[|lines| - 1];
      assert lines == pre + [line];
      LineFoldInv(pre, maxChars);
      LineStepInv(LineFold(pre, maxChars), pre, line, maxChars);
    }
  }

  lemma LongParagraphChunksGood(p: string, maxChars: int)
    ensures GoodChunks(LongParagraphChunks(p, maxChars).chunks, LongParagraphChunks(p, maxChars).groups, maxChars)
    ensures Flatten(LongParagraphChunks(p, maxChars).groups) == Lines(p)
  {
    var lines := Lines(p);
    LineFoldInv(lines, maxChars);
    var st := LineFold(lines, maxChars);
    if st.buf != "" {
      var g := Group(st.bufLines, LINE_SEP);
      EmitBuf(st.buf, st.bufLines, maxChars);
      GoodChunksPush(st.chunks, st.groups, st.buf, g, maxChars);
      FlattenPush(st.groups, g);
    }
  }

  // ---------------------------------------------------------------------
  // Packing paragraphs (the outer loop)
  // ---------------------------------------------------------------------

  datatype PackState = PackState(chunks: seq<string>, groups: seq<Group>, current: seq<string>, currentLen: int)

  /** The `flush` closure. */
  function Flush(st: PackState): PackState {
    if |st.current| == 0 then st
    else PackState(st.chunks + [Trim(Join(st.current, PARAGRAPH_SEP))],
                   st.groups + [Group(st.current, PARAGRAPH_SEP)], [], 0)
  }

  /** One iteration of the loop over `paragraphs`. */
  function PackStep(st: PackState, para: string, targetChars: int, maxChars: int): PackState {
    var p := Trim(para);
    if p == "" then st
    else if |p| > maxChars then PackLong(st, p, maxChars)
    else PackShort(st, p, targetChars, maxChars)
  }

  /** An over-long paragraph: flush, then push the chunks of its lines. */
  function PackLong(st: PackState, p: string, maxChars: int): PackState {
    var fl := Flush(st);
    var long := LongParagraphChunks(p, maxChars);
    PackState(fl.chunks + long.chunks, fl.groups + long.groups, fl.current, fl.currentLen)
  }

  /** A paragraph that fits in `maxChars`. */
  function PackShort(st: PackState, p: string, targetChars: int, maxChars: int): PackState {
    var separator := if |st.current| == 0 then 0 else 2;
    var nextLen := st.currentLen + separator + |p|;
    if nextLen <= targetChars then PackState(st.chunks, st.groups, st.current + [p], nextLen)
    else if nextLen <= maxChars then Flush(PackState(st.chunks, st.groups, st.current + [p], nextLen))
    else
      var fl := Flush(st);
      PackState(fl.chunks, fl.groups, fl.current + [p], |p|)
  }

  function PackFold(ps: seq<string>, targetChars: int, maxChars: int): PackState {
    if ps == [] then PackState([], [], [], 0)
    else PackStep(PackFold(ps[..|ps| - 1], targetChars, maxChars), ps[|ps| - 1], targetChars, maxChars)
  }

  /** `packParagraphs(paragraphs, { targetChars, maxChars })` */
  function Pack(ps: seq<string>, targetChars: int, maxChars: int): seq<string> {
    DropEmpty(Flush(PackFold(ps, targetChars, maxChars)).chunks)
  }

  /** The groups the chunks of `Pack` were joined from. */
  function PackGroups(ps: seq<string>, targetChars: int, maxChars: int): seq<Group> {
    Flush(PackFold(ps, targetChars, maxChars)).groups
  }

  predicate PackInv(st: PackState, ps: seq<string>, targetChars: int, maxChars: int) {
    CoverInv(st, Parts(ps, maxChars), targetChars, maxChars)
  }

  /** The loop invariant, with the pieces covered so far given as `covered`. */
  predicate CoverInv(st: PackState, covered: seq<string>, targetChars: int, maxChars: int) {
    var bound := MaxInt(targetChars, maxChars);
    && GoodChunks(st.chunks, st.groups, bound)
    && (forall k :: 0 <= k < |st.current| ==> st.current[k] != "" && IsTrimmed(st.current[k]))
    && st.currentLen == |Join(st.current, PARAGRAPH_SEP)|
    && (st.current == [] || st.currentLen <= bound)
    && Flatten(st.groups) + st.current == covered
  }

  lemma PartsPush(pre: seq<string>, para: string, maxChars: int)
    ensures Parts(pre + [para], maxChars) == Parts(pre, maxChars) + PartsOf(para, maxChars)
  {
    assert (pre + [para])[..|pre|] == pre;
  }

  /** Flushing keeps the invariant and empties the buffer. */
  lemma FlushCover(st: PackState, covered: seq<string>, targetChars: int, maxChars: int)
    requires CoverInv(st, covered, targetChars, maxChars)
    ensures CoverInv(Flush(st), covered, targetChars, maxChars)
    ensures Flush(st).current == [] && Flush(st).currentLen == 0
  {
    if |st.current| != 0 {
      var g := Group(st.current, PARAGRAPH_SEP);
      var joined := Join(st.current, PARAGRAPH_SEP);
      JoinTrimmed(st.current, PARAGRAPH_SEP);
      TrimTrimmed(joined);
      assert GoodChunk(joined, g, MaxInt(targetChars, maxChars));
      GoodChunksPush(st.chunks, st.groups, joined, g, MaxInt(targetChars, maxChars));
      FlattenPush(st.groups, g);
      assert Join([], PARAGRAPH_SEP) == "";
    }
  }

  /** Appending well-formed chunks after a flush keeps the invariant, with
      their pieces appended to the covered pieces. */
  lemma AppendChunksInv(fl: PackState, covered: seq<string>, c2: seq<string>, g2: seq<Group>,
                        targetChars: int, maxChars: int)
    requires CoverInv(fl, covered, targetChars, maxChars) && fl.current == []
    requires GoodChunks(c2, g2, maxChars)
    ensures CoverInv(PackState(fl.chunks + c2, fl.groups + g2, [], 0), covered + Flatten(g2),
                     targetChars, maxChars)
  {
    var st := PackState(fl.chunks + c2, fl.groups + g2, [], 0);
    assert GoodChunks(st.chunks, st.groups, MaxInt(targetChars, maxChars)) by {
      GoodChunksAppend(fl.chunks, fl.groups, c2, g2, MaxInt(targetChars, maxChars), maxChars);
    }
    assert Flatten(st.groups) + st.current == covered + Flatten(g2) by {
      FlattenAppend(fl.groups, g2);
      assert Flatten(fl.groups) + fl.current == Flatten(fl.groups);
    }
    assert Join([], PARAGRAPH_SEP) == "";
  }

  /** An over-long paragraph: flush, then the chunks of its lines. */
  lemma LongCover(st: PackState, covered: seq<string>, p: string, targetChars: int, maxChars: int)
    requires CoverInv(st, covered, targetChars, maxChars)
    requires p != "" && IsTrimmed(p)
    ensures CoverInv(PackLong(st, p, maxChars), covered + Lines(p), targetChars, maxChars)
  {
    var long := LongParagraphChunks(p, maxChars);
    LongParagraphChunksGood(p, maxChars);
    FlushCover(st, covered, targetChars, maxChars);
    AppendChunksInv(Flush(st), covered, long.chunks, long.groups, targetChars, maxChars);
  }

  /** Appending a non-empty trimmed piece to the buffer, when it still fits. */
  lemma PushCover(st: PackState, covered: seq<string>, p: string, targetChars: int, maxChars: int)
    requires CoverInv(st, covered, targetChars, maxChars)
    requires p != "" && IsTrimmed(p)
    requires st.currentLen + (if |st.current| == 0 then 0 else 2) + |p| <= MaxInt(targetChars, maxChars)
    ensures CoverInv(PackState(st.chunks, st.groups, st.current + [p],
                               st.currentLen + (if |st.current| == 0 then 0 else 2) + |p|),
                     covered + [p], targetChars, maxChars)
  {
    var cur := st.current + [p];
    assert Flatten(st.groups) + cur == (Flatten(st.groups) + st.current) + [p];
    JoinPush(st.current, p, PARAGRAPH_SEP);
    assert forall k :: 0 <= k < |cur| ==> cur[k] != "" && IsTrimmed(cur[k]) by {
      forall k | 0 <= k < |cur| ensures cur[k] != "" && IsTrimmed(cur[k]) {
        if k < |st.current| {
          assert cur[k] == st.current[k];
        }
      }
    }
  }

  /** A paragraph that fits: into the buffer, with a flush before it when
      the buffer would overflow, or after it when it passes the target. */
  lemma ShortCover(st: PackState, covered: seq<string>, p: string, targetChars: int, maxChars: int)
    requires CoverInv(st, covered, targetChars, maxChars)
    requires p != "" && IsTrimmed(p) && |p| <= maxChars
    ensures CoverInv(PackShort(st, p, targetChars, maxChars), covered + [p], targetChars, maxChars)
  {
    var separator := if |st.current| == 0 then 0 else 2;
    var nextLen := st.currentLen + separator + |p|;
    if nextLen <= targetChars {
      PushCover(st, covered, p, targetChars, maxChars);
    } else if nextLen <= maxChars {
      PushCover(st, covered, p, targetChars, maxChars);
      FlushCover(PackState(st.chunks, st.groups, st.current + [p], nextLen), covered + [p], targetChars, maxChars);
    } else {
      FlushCover(st, covered, targetChars, maxChars);
      PushCover(Flush(st), covered, p, targetChars, maxChars);
    }
  }

  /** One iteration keeps the invariant, covering the paragraph's pieces too. */
  lemma StepCover(st: PackState, covered: seq<string>, para: string, targetChars: int, maxChars: int)
    requires CoverInv(st, covered, targetChars, maxChars)
    ensures CoverInv(PackStep(st, para, targetChars, maxChars), covered + PartsOf(para, maxChars),
                     targetChars, maxChars)
  {
    var p := Trim(para);
    if p == "" {
      assert covered + PartsOf(para, maxChars) == covered;
    } else if |p| > maxChars {
      LongCover(st, covered, p, targetChars, maxChars);
    } else {
      ShortCover(st, covered, p, targetChars, maxChars);
    }
  }

  /** Flushing keeps the loop invariant. */
  lemma FlushInv(st: PackState, ps: seq<string>, targetChars: int, maxChars: int)
    requires PackInv(st, ps, targetChars, maxChars)
    ensures PackInv(Flush(st), ps, targetChars, maxChars)
    ensures Flush(st).current == [] && Flush(st).currentLen == 0
  {
    FlushCover(st, Parts(ps, maxChars), targetChars, maxChars);
  }

  lemma {:induction false} PackFoldInv(ps: seq<string>, targetChars: int, maxChars: int)
    ensures PackInv(PackFold(ps, targetChars, maxChars), ps, targetChars, maxChars)
    decreases |ps|
  {
    if ps != [] {
      var pre := ps[..|ps| - 1];
      var para := ps[|ps| - 1];
      PackFoldInv(pre, targetChars, maxChars);
      var st := PackFold(pre, targetChars, maxChars);
      StepCover(st, Parts(pre, maxChars), para, targetChars, maxChars);
      assert Parts(ps, maxChars) == Parts(pre, maxChars) + PartsOf(para, maxChars);
    } else {
      assert Join([], PARAGRAPH_SEP) == "";
    }
  }

  /**
   * What `packParagraphs` guarantees: every chunk is the join of a group of
   * non-empty trimmed pieces, at most max(targetChars, maxChars) long unless
   * it is one over-long line, and the groups, read in order, are exactly the
   * pieces of the input in input order: nothing is lost, repeated or
   * reordered.
   */
  lemma PackCorrect(ps: seq<string>, targetChars: int, maxChars: int)
    ensures GoodChunks(Pack(ps, targetChars, maxChars), PackGroups(ps, targetChars, maxChars),
                       MaxInt(targetChars, maxChars))
    ensures Flatten(PackGroups(ps, targetChars, maxChars)) == Parts(ps, maxChars)
  {
    PackFoldInv(ps, targetChars, maxChars);
    FlushInv(PackFold(ps, targetChars, maxChars), ps, targetChars, maxChars);
    var fl := Flush(PackFold(ps, targetChars, maxChars));
    forall k | 0 <= k < |fl.chunks| ensures fl.chunks[k] != "" {
      GoodChunkNonEmpty(fl.chunks[k], fl.groups[k], MaxInt(targetChars, maxChars));
    }
  }

  /** Each chunk is non-empty, trimmed, and within the budget unless it is a
      single line with no newline in it. */
  lemma PackChunksBounded(ps: seq<string>, targetChars: int, maxChars: int)
    ensures forall c :: c in Pack(ps, targetChars, maxChars) ==>
              c != "" && IsTrimmed(c) && (|c| <= MaxInt(targetChars, maxChars) || '\n' !in c)
  {
    PackCorrect(ps, targetChars, maxChars);
    var chunks := Pack(ps, targetChars, maxChars);
    var groups := PackGroups(ps, targetChars, maxChars);
    forall c | c in chunks
      ensures c != "" && IsTrimmed(c) && (|c| <= MaxInt(targetChars, maxChars) || '\n' !in c)
    {
      var k :| 0 <= k < |chunks| && chunks[k] == c;
      GoodChunkNonEmpty(c, groups[k], MaxInt(targetChars, maxChars));
    }
  }

  /** Some non-blank paragraph in the input means at least one chunk. */
  lemma PackNonEmpty(ps: seq<string>, targetChars: int, maxChars: int)
    requires Parts(ps, maxChars) != []
    ensures Pack(ps, targetChars, maxChars) != []
  {
    PackCorrect(ps, targetChars, maxChars);
  }

  /** A trimmed, non-empty paragraph always contributes at least one piece. */
  lemma PartsOfNonEmpty(p: string, maxChars: int)
    requires p != "" && IsTrimmed(p)
    ensures PartsOf(p, maxChars) != []
  {
    TrimTrimmed(p);
    assert !IsSpace(p[0]);
  }

  lemma {:induction false} PartsNonEmpty(ps: seq<string>, maxChars: int)
    requires ps != []
    requires forall k :: 0 <= k < |ps| ==> ps[k] != "" && IsTrimmed(ps[k])
    ensures Parts(ps, maxChars) != []
  {
    PartsOfNonEmpty(ps[|ps| - 1], maxChars);
  }

  // ---------------------------------------------------------------------
  // Packing merges
  // ---------------------------------------------------------------------

  /**
   * Chunks of paragraphs are as full as the target allows: wherever a chunk
   * of paragraphs is followed by another, the first paragraph of the second,
   * after a blank line, would have taken the first past `targetChars`.
   */
  predicate Merged(chunks: seq<string>, groups: seq<Group>, targetChars: int) {
    && |chunks| == |groups|
    && forall k :: 0 <= k < |groups| - 1 && groups[k].sep == PARAGRAPH_SEP && groups[k + 1].sep == PARAGRAPH_SEP
                   && groups[k + 1].parts != [] ==>
         |chunks[k]| + 2 + |groups[k + 1].parts[0]| > targetChars
  }

  /** The loop's merge invariant: merged so far, and a last chunk of
      paragraphs is already past the target or could not take the first
      paragraph of the buffer. */
  predicate MergeInv(st: PackState, targetChars: int) {
    && Merged(st.chunks, st.groups, targetChars)
    && (st.groups != [] && st.groups[|st.groups| - 1].sep == PARAGRAPH_SEP ==>
          || |st.chunks[|st.chunks| - 1]| > targetChars
          || (st.current != [] && |st.chunks[|st.chunks| - 1]| + 2 + |st.current[0]| > targetChars))
  }

  /** Flushing closes the buffer into a chunk as long as `currentLen`. */
  lemma FlushMerge(st: PackState, covered: seq<string>, targetChars: int, maxChars: int)
    requires CoverInv(st, covered, targetChars, maxChars) && MergeInv(st, targetChars)
    ensures Merged(Flush(st).chunks, Flush(st).groups, targetChars)
    ensures st.current == [] ==> Flush(st) == st
    ensures st.current != [] ==>
              && Flush(st).groups != [] && |Flush(st).chunks| == |Flush(st).groups|
              && Flush(st).groups[|Flush(st).groups| - 1].sep == PARAGRAPH_SEP
              && |Flush(st).chunks[|Flush(st).chunks| - 1]| == st.currentLen
  {
    if st.current != [] {
      var joined := Join(st.current, PARAGRAPH_SEP);
      JoinTrimmed(st.current, PARAGRAPH_SEP);
      TrimTrimmed(joined);
      var g := Group(st.current, PARAGRAPH_SEP);
      var chunks := st.chunks + [joined];
      var groups := st.groups + [g];
      forall k | 0 <= k < |groups| - 1 && groups[k].sep == PARAGRAPH_SEP && groups[k + 1].sep == PARAGRAPH_SEP
                 && groups[k + 1].parts != []
        ensures |chunks[k]| + 2 + |groups[k + 1].parts[0]| > targetChars
      {
        assert chunks[k] == st.chunks[k] && groups[k] == st.groups[k];
        if k + 1 < |st.groups| {
          assert groups[k + 1] == st.groups[k + 1];
        } else {
          assert groups[k + 1] == g;
        }
      }
    }
  }

  /** What the inner loop's invariant says about its groups. */
  lemma LineFoldGroups(lines: seq<string>, maxChars: int)
    requires GoodLines(lines)
    ensures var st := LineFold(lines, maxChars);
            && |st.chunks| == |st.groups|
            && (forall k :: 0 <= k < |st.groups| ==> st.groups[k].sep == LINE_SEP)
            && (st.buf == "" <==> st.bufLines == [])
            && Flatten(st.groups) + st.bufLines == lines
  {
    LineFoldInv(lines, maxChars);
  }

  /** Emitting the last buffer of a non-empty inner loop leaves at least
      one group, all of them line groups. */
  lemma EmitLastGroups(st: LineState, lines: seq<string>, long: LineState)
    requires lines != [] && |st.chunks| == |st.groups|
    requires forall k :: 0 <= k < |st.groups| ==> st.groups[k].sep == LINE_SEP
    requires (st.buf == "" <==> st.bufLines == []) && Flatten(st.groups) + st.bufLines == lines
    requires long == if st.buf != "" then LineState(st.chunks + [st.buf], st.groups + [Group(st.bufLines, LINE_SEP)], "", [])
                     else LineState(st.chunks, st.groups, "", [])
    ensures long.groups != [] && |long.chunks| == |long.groups|
    ensures forall k :: 0 <= k < |long.groups| ==> long.groups[k].sep == LINE_SEP
  {
    if st.buf != "" {
      forall k | 0 <= k < |long.groups| ensures long.groups[k].sep == LINE_SEP {
        if k < |st.groups| {
          assert long.groups[k] == st.groups[k];
        }
      }
    } else {
      assert Flatten(st.groups) == lines;
    }
  }

  /** The chunks of an over-long paragraph are line chunks, at least one. */
  lemma LongParagraphLineGroups(p: string, maxChars: int)
    requires p != "" && IsTrimmed(p)
    ensures var long := LongParagraphChunks(p, maxChars);
            && long.groups != [] && |long.chunks| == |long.groups|
            && forall k :: 0 <= k < |long.groups| ==> long.groups[k].sep == LINE_SEP
  {
    assert !AllSpace(p) by {
      assert !IsSpace(p[0]);
    }
    LineFoldGroups(Lines(p), maxChars);
    EmitLastGroups(LineFold(Lines(p), maxChars), Lines(p), LongParagraphChunks(p, maxChars));
  }

  /** Line chunks after merged chunks keep them merged, and end the state
      with a line chunk. */
  lemma AppendLineChunks(c1: seq<string>, g1: seq<Group>, c2: seq<string>, g2: seq<Group>,
                         current: seq<string>, currentLen: int, targetChars: int)
    requires Merged(c1, g1, targetChars)
    requires g2 != [] && |c2| == |g2| && forall k :: 0 <= k < |g2| ==> g2[k].sep == LINE_SEP
    ensures MergeInv(PackState(c1 + c2, g1 + g2, current, currentLen), targetChars)
  {
    var chunks := c1 + c2;
    var groups := g1 + g2;
    forall k | 0 <= k < |groups| - 1 && groups[k].sep == PARAGRAPH_SEP && groups[k + 1].sep == PARAGRAPH_SEP
               && groups[k + 1].parts != []
      ensures |chunks[k]| + 2 + |groups[k + 1].parts[0]| > targetChars
    {
      assert forall i :: |g1| <= i < |groups| ==> groups[i] == g2[i - |g1|];
      assert chunks[k] == c1[k] && groups[k] == g1[k] && groups[k + 1] == g1[k + 1];
    }
    assert groups[|groups| - 1] == g2[|g2| - 1];
  }

  /** An over-long paragraph closes the buffer and leaves line chunks last. */
  lemma LongMerge(st: PackState, covered: seq<string>, p: string, targetChars: int, maxChars: int)
    requires CoverInv(st, covered, targetChars, maxChars) && MergeInv(st, targetChars)
    requires p != "" && IsTrimmed(p)
    ensures MergeInv(PackLong(st, p, maxChars), targetChars)
  {
    FlushMerge(st, covered, targetChars, maxChars);
    LongParagraphLineGroups(p, maxChars);
    var fl := Flush(st);
    var long := LongParagraphChunks(p, maxChars);
    AppendLineChunks(fl.chunks, fl.groups, long.chunks, long.groups, fl.current, fl.currentLen, targetChars);
  }

  /** A paragraph that fits: pushed, pushed and flushed past the target, or
      put in a fresh buffer after a flush when it would pass `maxChars`. */
  lemma ShortMerge(st: PackState, covered: seq<string>, p: string, targetChars: int, maxChars: int)
    requires CoverInv(st, covered, targetChars, maxChars) && MergeInv(st, targetChars)
    requires p != "" && IsTrimmed(p) && |p| <= maxChars
    ensures MergeInv(PackShort(st, p, targetChars, maxChars), targetChars)
  {
    var separator := if |st.current| == 0 then 0 else 2;
    var nextLen := st.currentLen + separator + |p|;
    var pushed := PackState(st.chunks, st.groups, st.current + [p], nextLen);
    if st.current != [] {
      assert pushed.current[0] == st.current[0];
    }
    if nextLen <= targetChars {
    } else if nextLen <= maxChars {
      PushCover(st, covered, p, targetChars, maxChars);
      FlushMerge(pushed, covered + [p], targetChars, maxChars);
    } else {
      FlushMerge(st, covered, targetChars, maxChars);
      assert Flush(st).current + [p] == [p];
    }
  }

  lemma StepMerge(st: PackState, covered: seq<string>, para: string, targetChars: int, maxChars: int)
    requires CoverInv(st, covered, targetChars, maxChars) && MergeInv(st, targetChars)
    ensures MergeInv(PackStep(st, para, targetChars, maxChars), targetChars)
  {
    var p := Trim(para);
    if p != "" && |p| > maxChars {
      LongMerge(st, covered, p, targetChars, maxChars);
    } else if p != "" {
      ShortMerge(st, covered, p, targetChars, maxChars);
    }
  }

  lemma {:induction false} PackFoldMerge(ps: seq<string>, targetChars: int, maxChars: int)
    ensures MergeInv(PackFold(ps, targetChars, maxChars), targetChars)
    decreases |ps|
  {
    if ps != [] {
      var pre := ps[..|ps| - 1];
      PackFoldMerge(pre, targetChars, maxChars);
      PackFoldInv(pre, targetChars, maxChars);
      StepMerge(PackFold(pre, targetChars, maxChars), Parts(pre, maxChars), ps[|ps| - 1], targetChars, maxChars);
    }
  }

  /**
   * Packing merges short paragraphs rather than leaving tiny chunks: a
   * chunk of paragraphs is closed before the next chunk of paragraphs only
   * when that chunk's first paragraph would not have fitted after it within
   * `targetChars`.
   */
  lemma PackMerges(ps: seq<string>, targetChars: int, maxChars: int)
    ensures Merged(Pack(ps, targetChars, maxChars), PackGroups(ps, targetChars, maxChars), targetChars)
  {
    var st := PackFold(ps, targetChars, maxChars);
    PackFoldInv(ps, targetChars, maxChars);
    PackFoldMerge(ps, targetChars, maxChars);
    FlushMerge(st, Parts(ps, maxChars), targetChars, maxChars);
    FlushInv(st, ps, targetChars, maxChars);
    var fl := Flush(st);
    forall k | 0 <= k < |fl.chunks| ensures fl.chunks[k] != "" {
      GoodChunkNonEmpty(fl.chunks[k], fl.groups[k], MaxInt(targetChars, maxChars));
    }
    assert Pack(ps, targetChars, maxChars) == fl.chunks;
  }

  // ---------------------------------------------------------------------
  // The loop itself
  // ---------------------------------------------------------------------

  /** The `opts` argument; an absent field takes its default. */
  datatype PackOptions = PackOptions(targetChars: Option<int>, maxChars: Option<int>)

  /** `packParagraphs(paragraphs, opts)` as the source writes it. */
  method PackParagraphs(paragraphs: seq<string>, opts: PackOptions) returns (result: seq<string>)
    ensures result == Pack(paragraphs, opts.targetChars.GetOr(DEFAULT_TARGET_CHARS),
                           opts.maxChars.GetOr(DEFAULT_MAX_CHARS))
    ensures forall c :: c in result ==>
              c != "" && (|c| <= MaxInt(opts.targetChars.GetOr(DEFAULT_TARGET_CHARS),
                                        opts.maxChars.GetOr(DEFAULT_MAX_CHARS)) || '\n' !in c)
  {
    var targetChars := opts.targetChars.GetOr(DEFAULT_TARGET_CHARS);
    var maxChars := opts.maxChars.GetOr(DEFAULT_MAX_CHARS);
    var chunks: seq<string> := [];
    var current: seq<string> := [];
    var currentLen := 0;

    for i := 0 to |paragraphs|
      invariant var st := PackFold(paragraphs[..i], targetChars, maxChars);
        chunks == st.chunks && current == st.current && currentLen == st.currentLen
    {
      assert paragraphs[..i + 1][..i] == paragraphs[..i];
      ghost var st := PackFold(paragraphs[..i], targetChars, maxChars);
      assert PackFold(paragraphs[..i + 1], targetChars, maxChars) == PackStep(st, paragraphs[i], targetChars, maxChars);
      var p := Trim(paragraphs[i]);
      if p == "" {
        continue;
      }

      if |p| > maxChars {
        assert PackStep(st, paragraphs[i], targetChars, maxChars) == PackLong(st, p, maxChars);
        chunks, current, currentLen := FlushBuffer(chunks, current, currentLen);
        var lineChunks := SplitLongParagraph(p, maxChars);
        chunks := chunks + lineChunks;
        continue;
      }

      assert PackStep(st, paragraphs[i], targetChars, maxChars) == PackShort(st, p, targetChars, maxChars);
      var separator := if |current| == 0 then 0 else 2;
      var nextLen := currentLen + separator + |p|;
      if nextLen <= targetChars {
        current := current + [p];
        currentLen := nextLen;
        continue;
      }

      if nextLen <= maxChars {
        current := current + [p];
        currentLen := nextLen;
        chunks, current, currentLen := FlushBuffer(chunks, current, currentLen);
        continue;
      }

      chunks, current, currentLen := FlushBuffer(chunks, current, currentLen);
      current := current + [p];
      currentLen := |p|;
    }

    assert paragraphs[..|paragraphs|] == paragraphs;
    chunks, current, currentLen := FlushBuffer(chunks, current, currentLen);
    result := DropEmpty(chunks);
    PackChunksBounded(paragraphs, targetChars, maxChars);
  }

  /** The chunks of an over-long paragraph: its lines packed by `PackLines`,
      then `if (buf) chunks.push(buf)`. */
  method SplitLongParagraph(p: string, maxChars: int) returns (lineChunks: seq<string>)
    ensures lineChunks == LongParagraphChunks(p, maxChars).chunks
    ensures forall c :: c in lineChunks ==> c != "" && (|c| <= maxChars || '\n' !in c)
  {
    var lines := Lines(p);
    var buf;
    lineChunks, buf := PackLines(lines, maxChars);
    if buf != "" {
      lineChunks := lineChunks + [buf];
    }
    LongParagraphChunksGood(p, maxChars);
    var long := LongParagraphChunks(p, maxChars);
    forall c | c in lineChunks ensures c != "" && (|c| <= maxChars || '\n' !in c) {
      var k :| 0 <= k < |lineChunks| && lineChunks[k] == c;
      GoodChunkNonEmpty(c, long.groups[k], maxChars);
    }
  }

  /** The inner loop of `packParagraphs` over `lines`, returning the chunks
      it pushed and what is left in `buf`. */
  method PackLines(lines: seq<string>, maxChars: int) returns (lineChunks: seq<string>, buf: string)
    ensures lineChunks == LineFold(lines, maxChars).chunks && buf == LineFold(lines, maxChars).buf
  {
    buf := "";
    lineChunks := [];
    for j := 0 to |lines|
      invariant lineChunks == LineFold(lines[..j], maxChars).chunks
      invariant buf == LineFold(lines[..j], maxChars).buf
    {
      var line := lines[j];
      assert lines[..j + 1] == lines[..j] + [line];
      var next := if buf != "" then buf + "\n" + line else line;
      if |next| > maxChars {
        if buf != "" {
          lineChunks := lineChunks + [buf];
        }
        buf := line;
      } else {
        buf := next;
      }
    }
    assert lines[..|lines|] == lines;
  }

  /** The `flush` closure on the loop's variables. */
  method FlushBuffer(chunks: seq<string>, current: seq<string>, currentLen: int)
    returns (chunks': seq<string>, current': seq<string>, currentLen': int)
    ensures chunks' == (if |current| == 0 then chunks else chunks + [Trim(Join(current, PARAGRAPH_SEP))])
    ensures current' == [] && currentLen' == (if |current| == 0 then currentLen else 0)
  {
    if |current| == 0 {
      return chunks, current, currentLen;
    }
    chunks' := chunks + [Trim(Join(current, "\n\n"))];
    current' := [];
    currentLen' := 0;
  }

  // ---------------------------------------------------------------------
  // chunkComposition
  // ---------------------------------------------------------------------

  /** The fields of a composition the chunker reads (`null` read as ""). */
  datatype Composition = Composition(title: string, content: string, genre: string)

  predicate IsPoetry(genre: string) {
    Trim(AsciiLower(genre)) == "poetry"
  }

  /**
   * `chunkComposition(composition)`: nothing for blank content; the whole
   * normalised content for poetry and for single-paragraph text; otherwise
   * the paragraphs packed against 3200/4800. Never an empty or untrimmed chunk.
   */
  function ChunkComposition(comp: Composition): (r: seq<string>)
    ensures r == [] <==> NormalizedText(Some(comp.content)) == ""
    ensures forall k :: 0 <= k < |r| ==> r[k] != "" && IsTrimmed(r[k])
    ensures var content := NormalizedText(Some(comp.content));
            content != "" && IsPoetry(comp.genre) ==> r == [content]
    ensures var content := NormalizedText(Some(comp.content));
            content != "" && !IsPoetry(comp.genre) && |SplitParagraphs(Some(content))| <= 1 ==> r == [content]
    ensures var content := NormalizedText(Some(comp.content));
            content != "" && !IsPoetry(comp.genre) && |SplitParagraphs(Some(content))| > 1 ==>
              r == Pack(SplitParagraphs(Some(content)), COMPOSITION_TARGET_CHARS, COMPOSITION_MAX_CHARS)
  {
    var content := NormalizedText(Some(comp.content));
    if content == "" then []
    else if IsPoetry(comp.genre) then [content]
    else
      var paragraphs := SplitParagraphs(Some(content));
      if |paragraphs| <= 1 then [content]
      else
        PackedParagraphs(paragraphs, COMPOSITION_TARGET_CHARS, COMPOSITION_MAX_CHARS);
        Pack(paragraphs, COMPOSITION_TARGET_CHARS, COMPOSITION_MAX_CHARS)
  }

  /** Packing non-empty trimmed paragraphs yields at least one chunk, and
      only non-empty trimmed ones. */
  lemma PackedParagraphs(ps: seq<string>, targetChars: int, maxChars: int)
    requires ps != []
    requires forall k :: 0 <= k < |ps| ==> ps[k] != "" && IsTrimmed(ps[k])
    ensures Pack(ps, targetChars, maxChars) != []
    ensures forall k :: 0 <= k < |Pack(ps, targetChars, maxChars)| ==>
              Pack(ps, targetChars, maxChars)[k] != "" && IsTrimmed(Pack(ps, targetChars, maxChars)[k])
  {
    PackChunksBounded(ps, targetChars, maxChars);
    PartsNonEmpty(ps, maxChars);
    PackNonEmpty(ps, targetChars, maxChars);
    var r := Pack(ps, targetChars, maxChars);
    assert forall k :: 0 <= k < |r| ==> r[k] in r;
  }
}
