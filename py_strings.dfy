/**
  The Python `str` operations the chatbot relies on, over sequences of
  Unicode scalar values: `lower()`, `in`, `replace(p, "")`, `strip()`,
  `rstrip(c)`, `split()`, `sep.join(...)`, `split(c)` and slicing `[::-1]`.
*/
module PyStrings {

  /** Python's `str.isspace` for one character: the set `split()` and `strip()` cut on. */
  predicate IsSpace(c: char) {
    || ('\t' <= c <= '\r')
    || ('\U{1C}' <= c <= '\U{1F}')
    || c == ' ' || c == '\U{85}' || c == '\U{A0}' || c == '\U{1680}'
    || ('\U{2000}' <= c <= '\U{200A}')
    || c == '\U{2028}' || c == '\U{2029}' || c == '\U{202F}' || c == '\U{205F}' || c == '\U{3000}'
  }

  // ---------------------------------------------------------------- lower()

  /** `c.lower()` restricted to ASCII letters. */
  function LowerChar(c: char): char {
    if 'A' <= c <= 'Z' then (c as int + 32) as char else c
  }

  function Lower(s: string): (r: string)
    ensures |r| == |s|
    ensures forall i :: 0 <= i < |s| ==> r[i] == LowerChar(s[i])
  {
    seq(|s|, i requires 0 <= i < |s| => LowerChar(s[i]))
  }

  // ---------------------------------------------------------------- p in s

  /** Python's `p in s`: `p` occurs somewhere in `s` as a contiguous substring. */
  predicate Contains(s: string, p: string)
    decreases |s|
  {
    p <= s || (|s| > 0 && Contains(s[1..], p))
  }

  /** `p` sits in `s` at position `i`. */
  predicate OccursAt(s: string, p: string, i: int) {
    0 <= i <= |s| - |p| && s[i..i + |p|] == p
  }

  /** `Contains` agrees with the positional reading of `p in s`. */
  lemma {:induction false} ContainsIff(s: string, p: string)
    ensures Contains(s, p) <==> exists i :: OccursAt(s, p, i)
    decreases |s|
  {
    if p <= s {
      assert OccursAt(s, p, 0);
    } else if |s| > 0 {
      ContainsIff(s[1..], p);
      forall i | OccursAt(s[1..], p, i) ensures OccursAt(s, p, i + 1) {
        assert s[1..][i..i + |p|] == s[i + 1..i + 1 + |p|];
      }
      forall i | 0 < i && OccursAt(s, p, i) ensures OccursAt(s[1..], p, i - 1) {
        assert s[1..][i - 1..i - 1 + |p|] == s[i..i + |p|];
      }
      assert !OccursAt(s, p, 0);
    }
  }

  /** A text can only contain a pattern whose characters it has. */
  lemma {:induction false} ContainsHasFirst(s: string, p: string)
    requires p != [] && Contains(s, p)
    ensures p[0] in s
    decreases |s|
  {
    if !(p <= s) {
      ContainsHasFirst(s[1..], p);
    }
  }

  /** An exact-case occurrence is also an occurrence after lowering, for a lower-case pattern. */
  lemma {:induction false} ContainsLower(s: string, p: string)
    requires Lower(p) == p
    requires Contains(s, p)
    ensures Contains(Lower(s), p)
    decreases |s|
  {
    if p <= s {
      assert Lower(s)[..|p|] == Lower(p);
    } else {
      ContainsLower(s[1..], p);
      assert Lower(s)[1..] == Lower(s[1..]);
    }
  }

  // ---------------------------------------------------------------- s.replace(p, "")

  /** `s.replace(p, "")`: one left-to-right pass deleting non-overlapping occurrences of `p`. */
  function Remove(s: string, p: string): (r: string)
    requires p != ""
    ensures |r| <= |s|
    decreases |s|
  {
    if s == [] then []
    else if p <= s then Remove(s[|p|..], p)
    else [s[0]] + Remove(s[1..], p)
  }

  /** Removal changes the text exactly when the pattern occurs in it. */
  lemma {:induction false} RemoveUnchangedIff(s: string, p: string)
    requires p != ""
    ensures Remove(s, p) == s <==> !Contains(s, p)
    decreases |s|
  {
    if s == [] {
    } else if p <= s {
      assert |Remove(s, p)| < |s|;
    } else {
      RemoveUnchangedIff(s[1..], p);
      if Contains(s, p) {
        RemoveShrinks(s[1..], p);
      }
    }
  }

  lemma {:induction false} RemoveShrinks(s: string, p: string)
    requires p != "" && Contains(s, p)
    ensures |Remove(s, p)| < |s|
    decreases |s|
  {
    if !(p <= s) {
      RemoveShrinks(s[1..], p);
    }
  }

  // ---------------------------------------------------------------- strip(), rstrip(c)

  /** Number of leading whitespace characters of `s`. */
  function LeadingSpace(s: string): (n: nat)
    ensures n <= |s|
    ensures forall k :: 0 <= k < n ==> IsSpace(s[k])
    ensures n < |s| ==> !IsSpace(s[n])
    decreases |s|
  {
    if s == [] || !IsSpace(s[0]) then 0 else 1 + LeadingSpace(s[1..])
  }

  /** Number of trailing whitespace characters of `s`. */
  function TrailingSpace(s: string): (n: nat)
    ensures n <= |s|
    ensures forall k :: |s| - n <= k < |s| ==> IsSpace(s[k])
    ensures n < |s| ==> !IsSpace(s[|s| - 1 - n])
    decreases |s|
  {
    if s == [] || !IsSpace(s[|s| - 1]) then 0 else 1 + TrailingSpace(s[..|s| - 1])
  }

  /** `s.strip()`: `s` without its leading and trailing whitespace. */
  function Strip(s: string): (r: string)
    ensures r == "" <==> forall k :: 0 <= k < |s| ==> IsSpace(s[k])
    ensures r != "" ==> !IsSpace(r[0]) && !IsSpace(r[|r| - 1])
    ensures |r| <= |s|
    ensures LeadingSpace(s) + |r| <= |s| && r == s[LeadingSpace(s)..LeadingSpace(s) + |r|]
    ensures forall k :: LeadingSpace(s) + |r| <= k < |s| ==> IsSpace(s[k])
  {
    var t := s[LeadingSpace(s)..];
    var r := t[..|t| - TrailingSpace(t)];
    r
  }

  /** `s.rstrip(c)`: `s` without its trailing run of `c`. */
  function RStrip(s: string, c: char): (r: string)
    ensures r <= s
    ensures r == [] || r[|r| - 1] != c
    ensures forall k :: |r| <= k < |s| ==> s[k] == c
    decreases |s|
  {
    if s != [] && s[|s| - 1] == c then RStrip(s[..|s| - 1], c) else s
  }

  // ---------------------------------------------------------------- split()

  /** A token of `split()`: non-empty, no whitespace inside. */
  predicate IsWord(w: string) {
    w != [] && forall k :: 0 <= k < |w| ==> !IsSpace(w[k])
  }

  /** The longest whitespace-free prefix of `s`. */
  function TakeWord(s: string): (w: string)
    ensures w <= s
    ensures forall k :: 0 <= k < |w| ==> !IsSpace(w[k])
    ensures |w| < |s| ==> IsSpace(s[|w|])
    decreases |s|
  {
    if s == [] || IsSpace(s[0]) then [] else [s[0]] + TakeWord(s[1..])
  }

  /** `s.split()`: the maximal whitespace-free runs of `s`, in order. */
  function Words(s: string): (ws: seq<string>)
    ensures forall i :: 0 <= i < |ws| ==> IsWord(ws[i])
    decreases |s|
  {
    var t := s[LeadingSpace(s)..];
    if t == [] then [] else
      var w := TakeWord(t);
      [w] + Words(t[|w|..])
  }

  /** A word followed by nothing or by whitespace is taken whole. */
  lemma {:induction false} TakeWordOfWord(w: string, rest: string)
    requires forall k :: 0 <= k < |w| ==> !IsSpace(w[k])
    requires rest == [] || IsSpace(rest[0])
    ensures TakeWord(w + rest) == w
    decreases |w|
  {
    if w != [] {
      assert (w + rest)[1..] == w[1..] + rest;
      TakeWordOfWord(w[1..], rest);
    } else {
      assert w + rest == rest;
    }
  }

  /** Whitespace in front of `s` adds to the leading whitespace of `s`. */
  lemma {:induction false} LeadingSpaceAppend(lead: string, s: string)
    requires forall k :: 0 <= k < |lead| ==> IsSpace(lead[k])
    ensures LeadingSpace(lead + s) == |lead| + LeadingSpace(s)
    decreases |lead|
  {
    if lead == [] {
      assert lead + s == s;
    } else {
      assert (lead + s)[1..] == lead[1..] + s;
      LeadingSpaceAppend(lead[1..], s);
    }
  }

  /** `split()` ignores any run of leading whitespace, whatever its characters. */
  lemma WordsSkipLead(lead: string, s: string)
    requires forall k :: 0 <= k < |lead| ==> IsSpace(lead[k])
    ensures Words(lead + s) == Words(s)
  {
    LeadingSpaceAppend(lead, s);
    assert (lead + s)[|lead| + LeadingSpace(s)..] == s[LeadingSpace(s)..];
  }

  /** `split()` of whitespace alone, the empty text included, has no tokens. */
  lemma WordsAllSpace(s: string)
    requires forall k :: 0 <= k < |s| ==> IsSpace(s[k])
    ensures Words(s) == []
  {
    assert LeadingSpace(s) == |s|;
  }

  /**
    A word followed by the end or by whitespace is the first token, taken
    whole. With `WordsSkipLead` and `WordsAllSpace` this determines `split()`
    on every text: skip the leading whitespace, stop if nothing is left,
    otherwise take the maximal run of non-whitespace and go on after it.
  */
  lemma WordsOfWordThen(w: string, rest: string)
    requires IsWord(w)
    requires rest == [] || IsSpace(rest[0])
    ensures Words(w + rest) == [w] + Words(rest)
  {
    var s := w + rest;
    assert LeadingSpace(s) == 0;
    assert s[0..] == s;
    TakeWordOfWord(w, rest);
    assert s[|w|..] == rest;
  }

  /**
    Joining whitespace-free tokens with single spaces and splitting again gives
    the tokens back.
  */
  lemma {:induction false} WordsOfJoin(ws: seq<string>)
    requires forall i :: 0 <= i < |ws| ==> IsWord(ws[i])
    ensures Words(Join(" ", ws)) == ws
    decreases |ws|
  {
    if |ws| == 1 {
      WordsOfWordThen(ws[0], []);
      assert ws[0] + [] == ws[0];
    } else if |ws| > 1 {
      var j := Join(" ", ws[1..]);
      assert IsWord(ws[1]) && j[0] == ws[1][0];
      WordsOfJoin(ws[1..]);
      WordsOfSeparatedWord(ws[0], j);
      assert ws == [ws[0]] + ws[1..];
    }
  }

  lemma WordsOfSeparatedWord(w: string, j: string)
    requires IsWord(w)
    ensures Words(w + " " + j) == [w] + Words(j)
  {
    var r := [' '] + j;
    assert w + " " + j == w + r;
    WordsOfWordThen(w, r);
    WordsSkipLead([' '], j);
  }

  /** The characters of `s` that are not whitespace, in order. */
  function NonSpace(s: string): string {
    if s == [] then [] else Keep(s[0]) + NonSpace(s[1..])
  }

  function Keep(c: char): string {
    if IsSpace(c) then [] else [c]
  }

  function Concat(ws: seq<string>): string {
    if ws == [] then [] else ws[0] + Concat(ws[1..])
  }

  lemma {:induction false} NonSpaceAppend(a: string, b: string)
    ensures NonSpace(a + b) == NonSpace(a) + NonSpace(b)
    decreases |a|
  {
    if a == [] {
      assert a + b == b;
    } else {
      var ab := a + b;
      assert ab[0] == a[0] && ab[1..] == a[1..] + b;
      NonSpaceAppend(a[1..], b);
      calc {
        NonSpace(ab);
        Keep(a[0]) + NonSpace(a[1..] + b);
        Keep(a[0]) + (NonSpace(a[1..]) + NonSpace(b));
      }
    }
  }

  lemma {:induction false} NonSpaceOfSpaces(s: string)
    requires forall k :: 0 <= k < |s| ==> IsSpace(s[k])
    ensures NonSpace(s) == []
    decreases |s|
  {
    if s != [] {
      NonSpaceOfSpaces(s[1..]);
    }
  }

  lemma {:induction false} NonSpaceOfWord(w: string)
    requires forall k :: 0 <= k < |w| ==> !IsSpace(w[k])
    ensures NonSpace(w) == w
    decreases |w|
  {
    if w != [] {
      NonSpaceOfWord(w[1..]);
    }
  }

  lemma NonSpaceSkipsLeading(s: string)
    ensures NonSpace(s) == NonSpace(s[LeadingSpace(s)..])
  {
  }

  /** `split()` loses only whitespace: its tokens put together are the non-space characters of `s`. */
  lemma {:induction false} WordsKeepNonSpace(s: string)
    ensures Concat(Words(s)) == NonSpace(s)
    decreases |s|
  {
    var t := s[LeadingSpace(s)..];
    NonSpaceSkipsLeading(s);
    if t != [] {
      var w := TakeWord(t);
      assert |w| > 0;
      var u := t[|w|..];
      assert t == w + u;
      NonSpaceAppend(w, u);
      NonSpaceOfWord(w);
      WordsKeepNonSpace(u);
      assert Words(s) == [w] + Words(u);
      assert Concat([w] + Words(u)) == w + Concat(Words(u));
    }
  }

  // ---------------------------------------------------------------- sep.join(xs), s.split(c)

  /** `sep.join(xs)`. */
  function Join(sep: string, xs: seq<string>): string {
    if xs == [] then "" else if |xs| == 1 then xs[0] else xs[0] + sep + Join(sep, xs[1..])
  }

  /** `s.split(c)` for a one-character separator: always at least one piece. */
  function SplitOn(s: string, c: char): (parts: seq<string>)
    ensures |parts| >= 1
    decreases |s|
  {
    if s == [] then [[]]
    else
      var rest := SplitOn(s[1..], c);
      if s[0] == c then [[]] + rest else [[s[0]] + rest[0]] + rest[1..]
  }

  lemma {:induction false} SplitOnNoSeparator(x: string, c: char, rest: string)
    requires c !in x
    ensures SplitOn(x + [c] + rest, c) == [x] + SplitOn(rest, c)
    ensures SplitOn(x, c) == [x]
    decreases |x|
  {
    if x == [] {
      assert x + [c] + rest == [c] + rest;
    } else {
      SplitOnNoSeparator(x[1..], c, rest);
      assert x[0] != c;
      assert [x[0]] + x[1..] == x;
      assert (x + [c] + rest)[0] == x[0];
      assert (x + [c] + rest)[1..] == x[1..] + [c] + rest;
    }
  }

  /** Splitting undoes joining when no piece contains the separator. */
  lemma {:induction false} SplitJoin(xs: seq<string>, c: char)
    requires xs != []
    requires forall i :: 0 <= i < |xs| ==> c !in xs[i]
    ensures SplitOn(Join([c], xs), c) == xs
    decreases |xs|
  {
    if |xs| == 1 {
      SplitOnNoSeparator(xs[0], c, []);
    } else {
      SplitJoin(xs[1..], c);
      assert Join([c], xs) == xs[0] + [c] + Join([c], xs[1..]);
      SplitOnNoSeparator(xs[0], c, Join([c], xs[1..]));
    }
  }

  // ---------------------------------------------------------------- s[::-1]

  /** `s[::-1]`. */
  function Reverse(s: string): (r: string)
    ensures |r| == |s|
    ensures forall i :: 0 <= i < |s| ==> r[i] == s[|s| - 1 - i]
    decreases |s|
  {
    if s == [] then [] else Reverse(s[1..]) + [s[0]]
  }

  /** Reversal is its own inverse. */
  lemma ReverseInvolution(s: string)
    ensures Reverse(Reverse(s)) == s
  {
  }
}
