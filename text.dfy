/** The Python string operations the core relies on. */
module Text {

  import opened Wrappers

  /** `pat` occurs in `s` starting at index `i`. */
  predicate OccursAt(s: string, pat: string, i: int) {
    0 <= i && i + |pat| <= |s| && s[i..i + |pat|] == pat
  }

  /** `pat in s` */
  predicate Contains(s: string, pat: string) {
    exists i | 0 <= i <= |s| :: OccursAt(s, pat, i)
  }

  /** `s.replace(pat, rep)`: every non-overlapping occurrence, scanning left to right. */
  function Replace(s: string, pat: string, rep: string): string
    requires |pat| > 0
    decreases |s|
  {
    if |s| < |pat| then s
    else if s[..|pat|] == pat then rep + Replace(s[|pat|..], pat, rep)
    else [s[0]] + Replace(s[1..], pat, rep)
  }

  /**
   * A string that ends with the pattern, whose first character does not occur
   * before it, is rewritten at that one occurrence.
   */
  lemma {:induction false} ReplaceAtEnd(pre: string, pat: string, rep: string)
    requires |pat| > 0 && pat[0] !in pre
    ensures Replace(pre + pat, pat, rep) == pre + rep
    decreases |pre|
  {
    if pre == [] {
      assert pre + pat == pat && pat[..|pat|] == pat && pat[|pat|..] == [];
    } else {
      var s := pre + pat;
      assert s[..|pat|][0] == pre[0];
      assert s[1..] == pre[1..] + pat;
      ReplaceAtEnd(pre[1..], pat, rep);
      assert pre + rep == [pre[0]] + (pre[1..] + rep);
    }
  }

  /** `s.split(pat)`: the pieces between the occurrences that `Replace` rewrites. */
  function Split(s: string, pat: string): (pieces: seq<string>)
    requires |pat| > 0
    ensures |pieces| > 0
    decreases |s|
  {
    if |s| < |pat| then [s]
    else if s[..|pat|] == pat then [""] + Split(s[|pat|..], pat)
    else
      var rest := Split(s[1..], pat);
      [[s[0]] + rest[0]] + rest[1..]
  }

  /** `sep.join(parts)` */
  function Join(sep: string, parts: seq<string>): string
    decreases |parts|
  {
    if |parts| == 0 then ""
    else if |parts| == 1 then parts[0]
    else parts[0] + sep + Join(sep, parts[1..])
  }

  /** The first piece of a split is a prefix of the string. */
  lemma {:induction false} SplitHeadIsPrefix(s: string, pat: string)
    requires |pat| > 0
    ensures Split(s, pat)[0] <= s
    decreases |s|
  {
    if |s| >= |pat| && s[..|pat|] != pat {
      SplitHeadIsPrefix(s[1..], pat);
      assert s == [s[0]] + s[1..];
    }
  }

  /** No piece of a split contains the separator. */
  lemma {:induction false} SplitPiecesAvoidSeparator(s: string, pat: string)
    requires |pat| > 0
    ensures forall k :: 0 <= k < |Split(s, pat)| ==> !Contains(Split(s, pat)[k], pat)
    decreases |s|
  {
    var pieces := Split(s, pat);
    if |s| < |pat| {
      assert pieces == [s];
    } else if s[..|pat|] == pat {
      SplitPiecesAvoidSeparator(s[|pat|..], pat);
      assert pieces[1..] == Split(s[|pat|..], pat);
    } else {
      var rest := Split(s[1..], pat);
      SplitPiecesAvoidSeparator(s[1..], pat);
      SplitHeadIsPrefix(s[1..], pat);
      var head := [s[0]] + rest[0];
      assert head <= s;
      forall i | OccursAt(head, pat, i)
        ensures false
      {
        if i != 0 {
          assert head[i..i + |pat|] == rest[0][i - 1..i - 1 + |pat|];
          assert OccursAt(rest[0], pat, i - 1);
        }
      }
      forall k | 0 <= k < |pieces|
        ensures !Contains(pieces[k], pat)
      {
        if k > 0 {
          assert pieces[k] == rest[k];
        }
      }
    }
  }

  /** Replacing is joining the pieces of the split with the replacement. */
  lemma {:induction false} ReplaceIsJoinOfSplit(s: string, pat: string, rep: string)
    requires |pat| > 0
    ensures Replace(s, pat, rep) == Join(rep, Split(s, pat))
    decreases |s|
  {
    if |s| < |pat| {
    } else if s[..|pat|] == pat {
      var rest := Split(s[|pat|..], pat);
      ReplaceIsJoinOfSplit(s[|pat|..], pat, rep);
      assert ([""] + rest)[1..] == rest;
    } else {
      var rest := Split(s[1..], pat);
      ReplaceIsJoinOfSplit(s[1..], pat, rep);
      var pieces := [[s[0]] + rest[0]] + rest[1..];
      if |rest| == 1 {
        assert Join(rep, pieces) == [s[0]] + rest[0];
      } else {
        assert pieces[1..] == rest[1..];
        assert Join(rep, rest) == rest[0] + rep + Join(rep, rest[1..]);
      }
    }
  }

  /** Replacing a separator by itself changes nothing. */
  lemma {:induction false} ReplaceBySelf(s: string, pat: string)
    requires |pat| > 0
    ensures Replace(s, pat, pat) == s
    decreases |s|
  {
    if |s| < |pat| {
    } else if s[..|pat|] == pat {
      ReplaceBySelf(s[|pat|..], pat);
      assert s == s[..|pat|] + s[|pat|..];
    } else {
      ReplaceBySelf(s[1..], pat);
      assert s == [s[0]] + s[1..];
    }
  }

  /**
   * `s.replace(pat, rep)` cuts `s` into pieces free of `pat` that, joined with
   * `pat`, give `s` back, and joins the same pieces with `rep` instead.
   * For a pattern that overlaps itself these three facts do not single out
   * the leftmost non-overlapping choice of `Replace`; a placeholder `{name}`
   * whose name holds no "{" cannot overlap itself.
   */
  lemma ReplaceRewritesEveryOccurrence(s: string, pat: string, rep: string)
    requires |pat| > 0
    ensures Join(pat, Split(s, pat)) == s
    ensures Replace(s, pat, rep) == Join(rep, Split(s, pat))
    ensures forall k :: 0 <= k < |Split(s, pat)| ==> !Contains(Split(s, pat)[k], pat)
  {
    ReplaceIsJoinOfSplit(s, pat, rep);
    ReplaceIsJoinOfSplit(s, pat, pat);
    ReplaceBySelf(s, pat);
    SplitPiecesAvoidSeparator(s, pat);
  }

  /** A string with no occurrence of the pattern is left alone. */
  lemma {:induction false} ReplaceAbsent(s: string, pat: string, rep: string)
    requires |pat| > 0 && !Contains(s, pat)
    ensures Replace(s, pat, rep) == s
    decreases |s|
  {
    if |s| >= |pat| {
      assert !OccursAt(s, pat, 0);
      assert s[..|pat|] != pat;
      forall i | OccursAt(s[1..], pat, i)
        ensures false
      {
        assert s[1..][i..i + |pat|] == s[i + 1..i + 1 + |pat|];
        assert OccursAt(s, pat, i + 1);
      }
      ReplaceAbsent(s[1..], pat, rep);
      assert s == [s[0]] + s[1..];
    }
  }

  /** `s.rstrip(c)` for a single character `c`. */
  function RStrip(s: string, c: char): (r: string)
    ensures r <= s
    ensures |r| == 0 || r[|r| - 1] != c
    ensures forall i :: |r| <= i < |s| ==> s[i] == c
    decreases |s|
  {
    if |s| > 0 && s[|s| - 1] == c then RStrip(s[..|s| - 1], c) else s
  }

  /** The characters of a `filter(None, ...)`: the present, non-empty strings, in order. */
  function NonEmpty(items: seq<Option<string>>): seq<string>
    decreases |items|
  {
    if items == [] then []
    else if items[0].Some? && items[0].value != "" then [items[0].value] + NonEmpty(items[1..])
    else NonEmpty(items[1..])
  }

  predicate Present(x: Option<string>) {
    x.Some? && x.value != ""
  }

  /** `sep.join(filter(None, [a, b]))` */
  lemma JoinNonEmptyPair(sep: string, a: Option<string>, b: Option<string>)
    ensures Join(sep, NonEmpty([a, b])) ==
      if Present(a) && Present(b) then a.value + sep + b.value
      else if Present(a) then a.value
      else if Present(b) then b.value
      else ""
  {
    var items := [a, b];
    assert items[1..] == [b] && items[1..][1..] == [];
    assert NonEmpty([b]) == if Present(b) then [b.value] else [];
  }

  function DigitChar(d: nat): (c: char)
    requires d < 10
    ensures '0' <= c <= '9' && DigitValue(c) == d
  {
    "0123456789"[d]
  }

  /** The value of a decimal digit character. */
  function DigitValue(c: char): nat
    requires '0' <= c <= '9'
  {
    c as int - '0' as int
  }

  /** The number a string of decimal digits spells, most significant digit first. */
  function DecimalValue(s: string): nat
    requires forall i :: 0 <= i < |s| ==> '0' <= s[i] <= '9'
  {
    if s == [] then 0 else DecimalValue(s[..|s| - 1]) * 10 + DigitValue(s[|s| - 1])
  }

  /** `str(n)` for a non-negative integer: decimal digits, no leading zero, spelling `n`. */
  function NatToString(n: nat): (r: string)
    ensures |r| > 0
    ensures forall i :: 0 <= i < |r| ==> '0' <= r[i] <= '9'
    ensures |r| > 1 ==> r[0] != '0'
    ensures DecimalValue(r) == n
    decreases n
  {
    if n < 10 then
      var r := [DigitChar(n)];
      assert r[..0] == [];
      r
    else
      var prefix := NatToString(n / 10);
      var r := prefix + [DigitChar(n % 10)];
      assert r[..|r| - 1] == prefix;
      r
  }

  /** `str(i)` for an integer: a "-" for a negative one, then the digits of its magnitude. */
  function IntToString(i: int): (r: string)
    ensures i < 0 ==> |r| > 1 && r[0] == '-'
    ensures i >= 0 ==> |r| > 0 && r[0] != '-'
    ensures var digits := if i < 0 then r[1..] else r;
      && (forall k :: 0 <= k < |digits| ==> '0' <= digits[k] <= '9')
      && (|digits| > 1 ==> digits[0] != '0')
      && DecimalValue(digits) == if i < 0 then -i else i
  {
    if i < 0 then
      var digits := NatToString(-i);
      assert ("-" + digits)[1..] == digits;
      "-" + digits
    else NatToString(i)
  }
}
