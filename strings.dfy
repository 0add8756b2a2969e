/**
 * The Python `str` operations the resources rely on, over `seq<char>`:
 * `upper`/`lower` (ASCII letters only), `in` (substring), `startswith`,
 * `index`, `split(sep)`, `split(sep, 2)`, `strip`, `replace`, and the
 * `int(s, base)` conversion with its decimal rendering `str(n)`.
 */
module Strings {
  import opened Values

  // ---------------------------------------------------------------- case

  function UpperChar(c: char): char
  {
    if 'a' <= c <= 'z' then (c as int - 32) as char else c
  }

  function LowerChar(c: char): char
  {
    if 'A' <= c <= 'Z' then (c as int + 32) as char else c
  }

  /** `s.upper()`, ASCII letters only. */
  function Upper(s: string): (r: string)
    ensures |r| == |s|
    ensures forall i :: 0 <= i < |s| ==> r[i] == UpperChar(s[i])
  {
    seq(|s|, i requires 0 <= i < |s| => UpperChar(s[i]))
  }

  /** `s.lower()`, ASCII letters only. */
  function Lower(s: string): (r: string)
    ensures |r| == |s|
    ensures forall i :: 0 <= i < |s| ==> r[i] == LowerChar(s[i])
  {
    seq(|s|, i requires 0 <= i < |s| => LowerChar(s[i]))
  }

  /** No lower-case ASCII letter occurs in `s`. */
  predicate IsUpper(s: string)
  {
    forall i :: 0 <= i < |s| ==> !('a' <= s[i] <= 'z')
  }

  /** No upper-case ASCII letter occurs in `s`. */
  predicate IsLower(s: string)
  {
    forall i :: 0 <= i < |s| ==> !('A' <= s[i] <= 'Z')
  }

  /** Upper-casing yields an upper-case string, and doing it twice changes nothing. */
  lemma UpperIsCanonical(s: string)
    ensures IsUpper(Upper(s))
    ensures Upper(Upper(s)) == Upper(s)
    ensures IsUpper(s) ==> Upper(s) == s
  {
  }

  /** Lower-casing yields a lower-case string, and doing it twice changes nothing. */
  lemma LowerIsCanonical(s: string)
    ensures IsLower(Lower(s))
    ensures Lower(Lower(s)) == Lower(s)
    ensures IsLower(s) ==> Lower(s) == s
  {
  }

  // ---------------------------------------------------------------- substrings

  /** `s.startswith(p)`. */
  predicate StartsWith(s: string, p: string)
  {
    |p| <= |s| && s[..|p|] == p
  }

  /** `p` occurs in `s` at offset `i`. */
  predicate OccursAt(s: string, p: string, i: nat)
  {
    i + |p| <= |s| && s[i..i + |p|] == p
  }

  /** `p in s`: `p` occurs in `s` at some offset. */
  predicate Contains(s: string, p: string)
  {
    exists i: nat | i <= |s| :: OccursAt(s, p, i)
  }

  /** A string contains whatever is written inside it. */
  lemma ContainsInfix(a: string, p: string, b: string)
    ensures Contains(a + p + b, p)
  {
    var s := a + p + b;
    assert OccursAt(s, p, |a|);
  }

  /** Containment is transitive: what occurs in an occurrence occurs in the whole. */
  lemma ContainsTransitive(s: string, q: string, p: string)
    requires Contains(s, q) && Contains(q, p)
    ensures Contains(s, p)
  {
    var i: nat :| i <= |s| && OccursAt(s, q, i);
    var j: nat :| j <= |q| && OccursAt(q, p, j);
    SliceOfSlice(s, i, i + |q|, j, j + |p|);
    assert OccursAt(s, p, i + j);
  }

  lemma SliceOfSlice(s: string, a: nat, b: nat, c: nat, d: nat)
    requires a <= b <= |s| && c <= d <= b - a
    ensures s[a..b][c..d] == s[a + c..a + d]
  {
    assert forall k | 0 <= k < d - c :: s[a..b][c..d][k] == s[a + c..a + d][k];
  }

  /** A prefix is an occurrence. */
  lemma StartsWithContains(s: string, p: string)
    requires StartsWith(s, p)
    ensures Contains(s, p)
  {
    assert OccursAt(s, p, 0);
  }

  /** `s.index(p)` as an option: the first offset at which `p` occurs. */
  function IndexOf(s: string, p: string): (r: Option<nat>)
    ensures r.Some? <==> Contains(s, p)
    ensures r.Some? ==> OccursAt(s, p, r.value)
    ensures r.Some? ==> forall j: nat :: j < r.value ==> !OccursAt(s, p, j)
  {
    IndexFrom(s, p, 0)
  }

  function IndexFrom(s: string, p: string, k: nat): (r: Option<nat>)
    requires forall j: nat :: j < k ==> !OccursAt(s, p, j)
    ensures r.Some? <==> Contains(s, p)
    ensures r.Some? ==> k <= r.value && OccursAt(s, p, r.value)
    ensures r.Some? ==> forall j: nat :: j < r.value ==> !OccursAt(s, p, j)
    decreases |s| - k
  {
    if k + |p| > |s| then
      assert forall j: nat | j <= |s| :: !OccursAt(s, p, j);
      None
    else if OccursAt(s, p, k) then Some(k)
    else IndexFrom(s, p, k + 1)
  }

  // ---------------------------------------------------------------- split / join

  /** Number of occurrences of `c` in `s`. */
  function Count(s: string, c: char): nat
  {
    if s == [] then 0 else (if s[0] == c then 1 else 0) + Count(s[1..], c)
  }

  /** `s.split(sep)` for a one-character separator: never empty, and the
      pieces are the maximal separator-free runs, empty ones included. */
  function Split(s: string, sep: char): (r: seq<string>)
    ensures |r| == Count(s, sep) + 1
    ensures forall i :: 0 <= i < |r| ==> sep !in r[i]
    decreases |s|
  {
    if s == [] then [""]
    else
      var rest := Split(s[1..], sep);
      if s[0] == sep then [""] + rest
      else [[s[0]] + rest[0]] + rest[1..]
  }

  /** `sep.join(parts)`. */
  function Join(parts: seq<string>, sep: char): string
  {
    if parts == [] then ""
    else if |parts| == 1 then parts[0]
    else parts[0] + [sep] + Join(parts[1..], sep)
  }

  /** Splitting and joining again gives back the original string. */
  lemma {:induction false} JoinSplit(s: string, sep: char)
    ensures Join(Split(s, sep), sep) == s
    decreases |s|
  {
    if s != [] {
      JoinSplit(s[1..], sep);
      var rest := Split(s[1..], sep);
      if s[0] == sep {
        assert Split(s, sep) == [""] + rest;
        assert s == [sep] + s[1..];
      } else {
        var r := Split(s, sep);
        assert r == [[s[0]] + rest[0]] + rest[1..];
        if |rest| == 1 {
          assert s == [s[0]] + rest[0];
        } else {
          assert Join(rest, sep) == rest[0] + [sep] + Join(rest[1..], sep);
          assert r[1..] == rest[1..];
          assert s == [s[0]] + s[1..];
        }
      }
    }
  }

  /** A separator-free word followed by the separator splits off as one piece. */
  lemma {:induction false} SplitWordThenSep(w: string, sep: char, u: string)
    requires sep !in w
    ensures Split(w + [sep] + u, sep) == [w] + Split(u, sep)
    decreases |w|
  {
    if w == [] {
      assert [] + [sep] + u == [sep] + u;
      assert ([sep] + u)[1..] == u;
    } else {
      SplitWordThenSep(w[1..], sep, u);
      assert (w + [sep] + u)[1..] == w[1..] + [sep] + u;
      assert [w[0]] + w[1..] == w;
    }
  }

  /** A separator-free word splits into itself. */
  lemma {:induction false} SplitWord(w: string, sep: char)
    requires sep !in w
    ensures Split(w, sep) == [w]
    decreases |w|
  {
    if w != [] {
      SplitWord(w[1..], sep);
      assert [w[0]] + w[1..] == w;
    }
  }

  /** Joining separator-free pieces and splitting again gives back the pieces. */
  lemma {:induction false} SplitJoin(parts: seq<string>, sep: char)
    requires |parts| >= 1
    requires forall i :: 0 <= i < |parts| ==> sep !in parts[i]
    ensures Split(Join(parts, sep), sep) == parts
    decreases |parts|
  {
    if |parts| == 1 {
      SplitWord(parts[0], sep);
    } else {
      SplitJoin(parts[1..], sep);
      SplitWordThenSep(parts[0], sep, Join(parts[1..], sep));
      assert [parts[0]] + parts[1..] == parts;
    }
  }

  /** A string splits into exactly two pieces iff it holds the separator exactly once. */
  lemma SplitInTwo(s: string, sep: char)
    ensures |Split(s, sep)| == 2 <==> Count(s, sep) == 1
  {
  }

  /** The pieces of a split that are not empty (`[x for x in s.split(sep) if x]`). */
  function NonEmpty(parts: seq<string>): (r: seq<string>)
    ensures |r| <= |parts|
    ensures forall i :: 0 <= i < |r| ==> r[i] != "" && r[i] in parts
    ensures forall x :: x in parts && x != "" ==> x in r
  {
    if parts == [] then []
    else if parts[0] == "" then NonEmpty(parts[1..])
    else [parts[0]] + NonEmpty(parts[1..])
  }

  /** `s.split(sep, 2)` when at least two separators occur: the text before
      the first, the text between the first and the second, and the rest;
      `None` when the split yields fewer than three pieces. */
  function SplitThree(s: string, sep: char): (r: Option<(string, string, string)>)
    ensures r.None? <==> Count(s, sep) < 2
    ensures r.Some? ==> r.value.0 + [sep] + r.value.1 + [sep] + r.value.2 == s
    ensures r.Some? ==> sep !in r.value.0 && sep !in r.value.1
  {
    var parts := Split(s, sep);
    if |parts| < 3 then None
    else
      JoinSplit(s, sep);
      assert Join(parts, sep) == parts[0] + [sep] + Join(parts[1..], sep);
      assert Join(parts[1..], sep) == parts[1] + [sep] + Join(parts[2..], sep);
      Some((parts[0], parts[1], Join(parts[2..], sep)))
  }

  // ---------------------------------------------------------------- strip

  /** The characters Python's `str.isspace()` accepts, which `strip()`
      removes: the ASCII controls `\t` to `\r` and the separators
      U+001C to U+001F, the space, U+0085, the no-break space, and the
      Unicode space separators, line and paragraph separators. */
  predicate IsSpace(c: char)
  {
    ('\t' <= c <= '\r') || ('\U{001C}' <= c <= ' ') || c == '\U{0085}' || c == '\U{00A0}'
    || c == '\U{1680}' || ('\U{2000}' <= c <= '\U{200A}') || c == '\U{2028}' || c == '\U{2029}'
    || c == '\U{202F}' || c == '\U{205F}' || c == '\U{3000}'
  }

  /** Whitespace only. */
  predicate Blank(t: string)
  {
    forall k :: 0 <= k < |t| ==> IsSpace(t[k])
  }

  /** `r` is what remains of `s` after dropping whitespace characters, one
      at a time, from either end. */
  predicate Trimmed(s: string, r: string)
    decreases |s|
  {
    s == r
    || (s != [] && IsSpace(s[0]) && Trimmed(s[1..], r))
    || (s != [] && IsSpace(s[|s| - 1]) && Trimmed(s[..|s| - 1], r))
  }

  function StripLeft(s: string): (r: string)
    ensures |r| <= |s| && r == s[|s| - |r|..]
    ensures r == [] || !IsSpace(r[0])
    ensures forall i :: 0 <= i < |s| - |r| ==> IsSpace(s[i])
  {
    if s != [] && IsSpace(s[0]) then StripLeft(s[1..]) else s
  }

  function StripRight(s: string): (r: string)
    ensures |r| <= |s| && r == s[..|r|]
    ensures r == [] || !IsSpace(r[|r| - 1])
    ensures forall i :: |r| <= i < |s| ==> IsSpace(s[i])
  {
    if s != [] && IsSpace(s[|s| - 1]) then StripRight(s[..|s| - 1]) else s
  }

  /** `s.strip()`: the longest infix of `s` that neither starts nor ends with
      whitespace, obtained by removing only whitespace. */
  function Strip(s: string): (r: string)
    ensures r == [] || (!IsSpace(r[0]) && !IsSpace(r[|r| - 1]))
    ensures |r| <= |s|
    ensures (s == [] || (!IsSpace(s[0]) && !IsSpace(s[|s| - 1]))) ==> r == s
    ensures Trimmed(s, r)
  {
    TrimmedBoth(s);
    StripRight(StripLeft(s))
  }

  /** Stripping both ends keeps a slice of `s` and drops only whitespace. */
  lemma StripSlice(s: string)
    ensures exists i, j :: 0 <= i <= j <= |s| && Strip(s) == s[i..j] && Blank(s[..i]) && Blank(s[j..])
  {
    DroppedLeft(s);
    DroppedRight(StripLeft(s));
    Infix(s, StripLeft(s), StripRight(StripLeft(s)));
  }

  /** `StripRight` only drops whitespace from the end. */
  lemma {:induction false} TrimmedRight(s: string)
    ensures Trimmed(s, StripRight(s))
    decreases |s|
  {
    if s != [] && IsSpace(s[|s| - 1]) {
      TrimmedRight(s[..|s| - 1]);
    }
  }

  /** `StripLeft` then `StripRight` only drop whitespace from the ends. */
  lemma {:induction false} TrimmedBoth(s: string)
    ensures Trimmed(s, StripRight(StripLeft(s)))
    decreases |s|
  {
    if s != [] && IsSpace(s[0]) {
      TrimmedBoth(s[1..]);
    } else {
      TrimmedRight(s);
    }
  }

  /** A prefix `r` of a suffix `l` of `s` is a slice of `s`; when what
      each step dropped is whitespace, so is what surrounds the slice. */
  lemma Infix(s: string, l: string, r: string)
    requires |l| <= |s| && l == s[|s| - |l|..] && Blank(s[..|s| - |l|])
    requires |r| <= |l| && r == l[..|r|] && Blank(l[|r|..])
    ensures exists i, j :: 0 <= i <= j <= |s| && r == s[i..j] && Blank(s[..i]) && Blank(s[j..])
  {
    var i, j := |s| - |l|, |s| - |l| + |r|;
    SuffixSlice(s, i, |r|);
    assert r == s[i..j] && s[j..] == l[|r|..];
  }

  /** What `StripLeft` drops is whitespace. */
  lemma DroppedLeft(s: string)
    ensures Blank(s[..|s| - |StripLeft(s)|])
  {
  }

  /** What `StripRight` drops is whitespace. */
  lemma DroppedRight(s: string)
    ensures Blank(s[|StripRight(s)|..])
  {
  }

  /** Slicing a suffix again is slicing the whole. */
  lemma SuffixSlice<T>(s: seq<T>, i: nat, n: nat)
    requires i + n <= |s|
    ensures s[i..][..n] == s[i..i + n] && s[i..][n..] == s[i + n..]
  {
  }

  /** Stripping twice is stripping once. */
  lemma StripIdempotent(s: string)
    ensures Strip(Strip(s)) == Strip(s)
  {
  }

  // ---------------------------------------------------------------- replace

  /** `s.replace(pat, rep)`: every non-overlapping occurrence of `pat`,
      scanning from the left, is replaced by `rep`. */
  function Replace(s: string, pat: string, rep: string): (r: string)
    requires pat != ""
    ensures |pat| == |rep| ==> |r| == |s|
    ensures !Contains(s, pat) ==> r == s
    decreases |s|
  {
    if |s| < |pat| then s
    else if OccursAt(s, pat, 0) then
      rep + Replace(s[|pat|..], pat, rep)
    else
      ReplaceShift(s, pat);
      [s[0]] + Replace(s[1..], pat, rep)
  }

  lemma ReplaceShift(s: string, pat: string)
    requires pat != "" && |pat| <= |s|
    ensures !Contains(s, pat) ==> !Contains(s[1..], pat)
    ensures s == [s[0]] + s[1..]
  {
    if Contains(s[1..], pat) {
      var k: nat :| k <= |s[1..]| && OccursAt(s[1..], pat, k);
      assert s[1 + k..1 + k + |pat|] == s[1..][k..k + |pat|];
      assert OccursAt(s, pat, 1 + k);
    }
  }

  /** When `s` starts with `pat`, the replacement starts with `rep`. */
  lemma ReplacePrefix(s: string, pat: string, rep: string)
    requires pat != "" && StartsWith(s, pat)
    ensures StartsWith(Replace(s, pat, rep), rep)
  {
  }

  /** Every character of `s` except `c`, in order (`s.replace(c, '')`). */
  function Remove(s: string, c: char): (r: string)
    ensures c !in r
    ensures |r| == |s| - Count(s, c)
  {
    if s == [] then "" else (if s[0] == c then "" else [s[0]]) + Remove(s[1..], c)
  }

  // ---------------------------------------------------------------- integers

  predicate IsDigit(c: char)
  {
    '0' <= c <= '9'
  }

  /** The value of `c` as a digit in `base` (10 or 16), if it is one. */
  function DigitValue(c: char, base: nat): (r: Option<nat>)
    ensures r.Some? ==> r.value < base
  {
    if '0' <= c <= '9' && (c as int - '0' as int) < base then Some(c as int - '0' as int)
    else if base == 16 && 'a' <= c <= 'f' then Some(c as int - 'a' as int + 10)
    else if base == 16 && 'A' <= c <= 'F' then Some(c as int - 'A' as int + 10)
    else None
  }

  /** The value of a non-empty digit string, most significant digit first. */
  function DigitsValue(ds: string, base: nat): (r: Option<nat>)
    ensures r.Some? ==> ds != []
    decreases |ds|
  {
    if ds == [] then None
    else
      var d := DigitValue(ds[|ds| - 1], base);
      if d.None? then None
      else if |ds| == 1 then d
      else
        match DigitsValue(ds[..|ds| - 1], base)
        case None => None
        case Some(v) => Some(v * base + d.value)
  }

  /** A leading sign: whether it is `-`, and the text after it. */
  function Unsigned(t: string): (bool, string)
  {
    if t != [] && t[0] == '-' then (true, t[1..])
    else if t != [] && t[0] == '+' then (false, t[1..])
    else (false, t)
  }

  /** For base 16, the text after an optional `0x`/`0X` prefix. */
  function DropHexPrefix(u: string, base: nat): string
  {
    if base == 16 && (StartsWith(u, "0x") || StartsWith(u, "0X")) then u[2..] else u
  }

  /** `int(s, base)` for base 10 or 16: surrounding whitespace, an optional
      sign, for base 16 an optional `0x`/`0X` prefix, then at least one
      digit; anything else is a `ValueError`. */
  function ParseInt(s: string, base: nat): (r: Result<int, PyError>)
    requires base == 10 || base == 16
    ensures r.Err? ==> r.error == ValueError
  {
    var (neg, u) := Unsigned(Strip(s));
    match DigitsValue(DropHexPrefix(u, base), base)
    case None => Err(ValueError)
    case Some(v) =>
      var n: int := v;
      Ok(if neg then -n else n)
  }

  /** Decimal digits of a natural number, without leading zeros. */
  function NatToString(n: nat): (r: string)
    ensures r != [] && forall i :: 0 <= i < |r| ==> IsDigit(r[i])
    ensures |r| > 1 ==> r[0] != '0'
    decreases n
  {
    if n < 10 then [('0' as int + n) as char]
    else NatToString(n / 10) + [('0' as int + n % 10) as char]
  }

  /** `str(n)` for an integer. */
  function IntToString(n: int): (r: string)
    ensures r != []
  {
    if n < 0 then "-" + NatToString(-n) else NatToString(n)
  }

  /** Decimal rendering is read back by digit parsing. */
  lemma {:induction false} NatToStringValue(n: nat)
    ensures DigitsValue(NatToString(n), 10) == Some(n)
    decreases n
  {
    if n >= 10 {
      NatToStringValue(n / 10);
      var s := NatToString(n);
      assert s[..|s| - 1] == NatToString(n / 10);
    }
  }

  /** `int(str(n), 10) == n` for every integer `n`. */
  lemma ParseIntToString(n: int)
    ensures ParseInt(IntToString(n), 10) == Ok(n)
  {
    var s := IntToString(n);
    var m: nat := if n < 0 then -n else n;
    NatToStringValue(m);
    assert !IsSpace(s[0]) && !IsSpace(s[|s| - 1]);
    assert Strip(s) == s;
    if n < 0 {
      assert s[1..] == NatToString(m);
      assert Unsigned(s) == (true, NatToString(m));
    } else {
      assert Unsigned(s) == (false, NatToString(m));
    }
  }
}
