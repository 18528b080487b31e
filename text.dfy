/**
 * String helpers the library relies on: Rust's `str::trim_matches` with a
 * single character pattern, and splitting / joining on a separator, which is
 * how a receiver reads the query string the library formats.
 */
module Text {

  /** The length of the run of `c` that starts `s`. */
  function LeadingRun(s: string, c: char): (n: nat)
    ensures n <= |s|
    ensures forall k :: 0 <= k < n ==> s[k] == c
    ensures n < |s| ==> s[n] != c
    decreases |s|
  {
    if s == [] || s[0] != c then 0 else 1 + LeadingRun(s[1..], c)
  }

  /** The length of the run of `c` that ends `s`. */
  function TrailingRun(s: string, c: char): (n: nat)
    ensures n <= |s|
    ensures forall k :: |s| - n <= k < |s| ==> s[k] == c
    ensures n < |s| ==> s[|s| - 1 - n] != c
    decreases |s|
  {
    if s == [] || s[|s| - 1] != c then 0 else 1 + TrailingRun(s[..|s| - 1], c)
  }

  /**
   * `s.trim_matches(c)`: the slice from the first character that is not `c`
   * to just after the last one; empty when every character is `c`.
   */
  function TrimMatches(s: string, c: char): (r: string)
    ensures r == [] || (r[0] != c && r[|r| - 1] != c)
  {
    var i := LeadingRun(s, c);
    if i == |s| then "" else s[i..|s| - TrailingRun(s, c)]
  }

  /**
   * Reference description of trimming: whenever `s` is a run of `c`, then a
   * core that neither starts nor ends with `c`, then a run of `c`, the
   * trimmed string is exactly that core.
   */
  lemma TrimMatchesCore(s: string, c: char, i: nat, j: nat)
    requires i <= j <= |s|
    requires forall k :: 0 <= k < i ==> s[k] == c
    requires forall k :: j <= k < |s| ==> s[k] == c
    requires i < j ==> s[i] != c && s[j - 1] != c
    ensures TrimMatches(s, c) == s[i..j]
  {
    if i == j {
      assert forall k :: 0 <= k < |s| ==> s[k] == c;
      assert LeadingRun(s, c) == |s|;
    } else {
      assert LeadingRun(s, c) == i;
      assert TrailingRun(s, c) == |s| - j;
    }
  }

  /** A string that neither starts nor ends with `c` is left as it is. */
  lemma TrimMatchesUnchanged(s: string, c: char)
    requires s == [] || (s[0] != c && s[|s| - 1] != c)
    ensures TrimMatches(s, c) == s
  {
    TrimMatchesCore(s, c, 0, |s|);
  }

  /** Trimming twice is trimming once. */
  lemma TrimMatchesIdempotent(s: string, c: char)
    ensures TrimMatches(TrimMatches(s, c), c) == TrimMatches(s, c)
  {
    TrimMatchesUnchanged(TrimMatches(s, c), c);
  }

  /** Wrapping a string that has no edge `c` in one `c` on each side, then trimming, gives it back. */
  lemma TrimMatchesUnwraps(t: string, c: char)
    requires t == [] || (t[0] != c && t[|t| - 1] != c)
    ensures TrimMatches([c] + t + [c], c) == t
  {
    var s := [c] + t + [c];
    TrimMatchesCore(s, c, 1, |t| + 1);
    assert s[1..|t| + 1] == t;
  }

  /** Glues `parts` together with `sep` between neighbours. */
  function Join(parts: seq<string>, sep: char): string
    decreases |parts|
  {
    if |parts| == 0 then ""
    else if |parts| == 1 then parts[0]
    else parts[0] + [sep] + Join(parts[1..], sep)
  }

  /** Joining four pieces puts one separator between each pair of neighbours. */
  lemma JoinFour(a: string, b: string, c: string, d: string, sep: char)
    ensures Join([a, b, c, d], sep) == a + [sep] + b + [sep] + c + [sep] + d
  {
    assert [a, b, c, d][1..] == [b, c, d];
    assert [b, c, d][1..] == [c, d];
    assert [c, d][1..] == [d];
    assert Join([c, d], sep) == c + [sep] + d;
    assert Join([b, c, d], sep) == b + [sep] + (c + [sep] + d);
    assert a + [sep] + (b + [sep] + (c + [sep] + d)) == a + [sep] + b + [sep] + c + [sep] + d;
  }

  /** Cuts `s` at every `sep`; there is always at least one piece. */
  function Split(s: string, sep: char): (parts: seq<string>)
    ensures |parts| >= 1
    decreases |s|
  {
    if s == [] then [""]
    else
      var rest := Split(s[1..], sep);
      if s[0] == sep then [""] + rest else [[s[0]] + rest[0]] + rest[1..]
  }

  lemma {:induction false} SplitNoSeparator(p: string, sep: char)
    requires sep !in p
    ensures Split(p, sep) == [p]
    decreases |p|
  {
    if p != [] {
      SplitNoSeparator(p[1..], sep);
      assert [p[0]] + p[1..] == p;
    }
  }

  lemma {:induction false} SplitAfterPiece(p: string, q: string, sep: char)
    requires sep !in p
    ensures Split(p + [sep] + q, sep) == [p] + Split(q, sep)
    decreases |p|
  {
    var s := p + [sep] + q;
    if p == [] {
      assert s[1..] == q;
    } else {
      assert s[1..] == p[1..] + [sep] + q;
      SplitAfterPiece(p[1..], q, sep);
      assert [p[0]] + p[1..] == p;
    }
  }

  /** Splitting undoes joining when no piece contains the separator. */
  lemma {:induction false} SplitJoin(parts: seq<string>, sep: char)
    requires |parts| >= 1
    requires forall i :: 0 <= i < |parts| ==> sep !in parts[i]
    ensures Split(Join(parts, sep), sep) == parts
    decreases |parts|
  {
    if |parts| == 1 {
      SplitNoSeparator(parts[0], sep);
    } else {
      SplitJoin(parts[1..], sep);
      SplitAfterPiece(parts[0], Join(parts[1..], sep), sep);
      assert [parts[0]] + parts[1..] == parts;
    }
  }
}
