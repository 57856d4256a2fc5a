/** Shared vocabulary: an Option type, the pieces of Python's string semantics that the
    planner relies on (ASCII lower-casing, substring search, `strip`, `split`, `join`,
    `int()` on decimal text, rendering of integers), first-match keyword tables, and the
    way random draws are passed in as parameters. */
module Common {

  datatype Option<T> = None | Some(value: T) {
    /** `d.get(key, default)` for a key that may be absent. */
    function GetOr(default: T): T {
      match this
      case Some(v) => v
      case None => default
    }
  }

  // ---------------------------------------------------------------------------------
  // Slicing with Python's clamping semantics
  // ---------------------------------------------------------------------------------

  /** `xs[:n]` */
  function Take<T>(xs: seq<T>, n: nat): (r: seq<T>)
    ensures |r| == if n < |xs| then n else |xs|
    ensures r <= xs
  {
    if n < |xs| then xs[..n] else xs
  }

  /** `xs[n:]` */
  function Drop<T>(xs: seq<T>, n: nat): (r: seq<T>)
    ensures |r| == if n < |xs| then |xs| - n else 0
    ensures xs == Take(xs, n) + r
  {
    if n < |xs| then xs[n..] else []
  }

  // ---------------------------------------------------------------------------------
  // Case
  // ---------------------------------------------------------------------------------

  function LowerChar(c: char): char {
    if 'A' <= c <= 'Z' then (c as int + 32) as char else c
  }

  /** `s.lower()` restricted to ASCII letters; other characters are kept as they are. */
  function Lower(s: string): (r: string)
    ensures |r| == |s|
  {
    seq(|s|, i requires 0 <= i < |s| => LowerChar(s[i]))
  }

  lemma LowerIdempotent(s: string)
    ensures Lower(Lower(s)) == s ==> Lower(s) == s
    ensures Lower(Lower(s)) == Lower(s)
  {
  }

  function UpperChar(c: char): char {
    if 'a' <= c <= 'z' then (c as int - 32) as char else c
  }

  /** `s.upper()` restricted to ASCII letters; other characters are kept as they are. */
  function Upper(s: string): (r: string)
    ensures |r| == |s|
    ensures forall i :: 0 <= i < |r| ==> !('a' <= r[i] <= 'z')
  {
    seq(|s|, i requires 0 <= i < |s| => UpperChar(s[i]))
  }

  /** A string without upper-case ASCII letters is its own lower-case form. */
  lemma LowerOfLowerCase(s: string)
    requires forall i :: 0 <= i < |s| ==> !('A' <= s[i] <= 'Z')
    ensures Lower(s) == s
  {
  }

  // ---------------------------------------------------------------------------------
  // Substrings (`sub in s`, `s.startswith(p)`)
  // ---------------------------------------------------------------------------------

  predicate OccursAt(s: string, sub: string, i: int) {
    0 <= i && i + |sub| <= |s| && s[i..i + |sub|] == sub
  }

  predicate StartsWith(s: string, p: string) {
    |p| <= |s| && s[..|p|] == p
  }

  /** Position of the first occurrence of `sub` in `s` (`s.find(sub)`). */
  function IndexOf(s: string, sub: string): (r: Option<nat>)
    ensures r.Some? ==> OccursAt(s, sub, r.value)
    ensures r.Some? ==> forall j :: 0 <= j < r.value ==> !OccursAt(s, sub, j)
    ensures r.None? ==> forall j :: !OccursAt(s, sub, j)
    decreases |s|
  {
    if StartsWith(s, sub) then
      assert OccursAt(s, sub, 0);
      Some(0)
    else if |s| == 0 then
      None
    else
      assert |sub| <= |s| ==> s[0..|sub|] == s[..|sub|];
      var rest := IndexOf(s[1..], sub);
      ShiftOccurrence(s, sub);
      match rest
      case None => None
      case Some(k) => Some(k + 1)
  }

  lemma ShiftOccurrence(s: string, sub: string)
    requires |s| > 0
    ensures forall j :: 1 <= j ==> (OccursAt(s, sub, j) <==> OccursAt(s[1..], sub, j - 1))
  {
    forall j | 1 <= j
      ensures OccursAt(s, sub, j) <==> OccursAt(s[1..], sub, j - 1)
    {
      if j + |sub| <= |s| {
        assert s[1..][j - 1..j - 1 + |sub|] == s[j..j + |sub|];
      }
    }
  }

  /** Python's `sub in s`. */
  predicate Contains(s: string, sub: string) {
    exists i | 0 <= i <= |s| :: OccursAt(s, sub, i)
  }

  /** `s.find(sub) != -1` exactly when `sub in s`. */
  lemma IndexOfFindsContains(s: string, sub: string)
    ensures IndexOf(s, sub).Some? <==> Contains(s, sub)
  {
    if IndexOf(s, sub).Some? {
      assert OccursAt(s, sub, IndexOf(s, sub).value);
    }
  }

  /** The first occurrence is no later than any occurrence. */
  lemma FirstOccurrenceBound(s: string, sub: string, i: int)
    requires OccursAt(s, sub, i)
    ensures IndexOf(s, sub).Some? && IndexOf(s, sub).value <= i
  {
    IndexOfFindsContains(s, sub);
  }

  lemma ContainsAt(s: string, sub: string, i: int)
    requires OccursAt(s, sub, i)
    ensures Contains(s, sub)
  {
  }

  lemma NotContains(s: string, sub: string, i: int)
    requires !Contains(s, sub)
    ensures !OccursAt(s, sub, i)
  {
  }

  /** A string lacking one of the characters of `sub` cannot contain `sub`. */
  lemma MissingCharExcludes(s: string, sub: string, i: nat)
    requires i < |sub| && sub[i] !in s
    ensures !Contains(s, sub)
  {
  }

  /** `in` is transitive: a piece of a piece of `s` is a piece of `s`. */
  lemma ContainsTrans(s: string, mid: string, sub: string)
    requires Contains(s, mid) && Contains(mid, sub)
    ensures Contains(s, sub)
  {
    var i :| 0 <= i <= |s| && OccursAt(s, mid, i);
    var j :| 0 <= j <= |mid| && OccursAt(mid, sub, j);
    SubSlice(s, i, i + |mid|, j, j + |sub|);
    ContainsAt(s, sub, i + j);
  }

  lemma SubSlice(s: string, lo: int, hi: int, a: int, b: int)
    requires 0 <= lo <= hi <= |s| && 0 <= a <= b <= hi - lo
    ensures s[lo..hi][a..b] == s[lo + a..lo + b]
  {
    assert forall k | 0 <= k < b - a :: s[lo..hi][a..b][k] == s[lo + a + k];
  }

  lemma ConcatAssoc(a: string, b: string, c: string)
    ensures (a + b) + c == a + (b + c)
  {
  }

  /** `''.join(parts)` */
  function Concat(parts: seq<string>): string {
    if |parts| == 0 then "" else Concat(parts[..|parts| - 1]) + parts[|parts| - 1]
  }

  lemma ConcatStep(parts: seq<string>, x: string)
    ensures Concat(parts + [x]) == Concat(parts) + x
  {
    assert (parts + [x])[..|parts|] == parts;
  }

  /** Every part occurs in the concatenation. */
  lemma {:induction false} ConcatContains(parts: seq<string>, k: nat)
    requires k < |parts|
    ensures Contains(Concat(parts), parts[k])
    decreases |parts|
  {
    var front := parts[..|parts| - 1];
    ContainsHalves(Concat(front), parts[|parts| - 1]);
    if k < |parts| - 1 {
      ConcatContains(front, k);
      assert front[k] == parts[k];
      ContainsTrans(Concat(parts), Concat(front), parts[k]);
    }
  }

  /** Both halves of a concatenation occur in it. */
  lemma ContainsHalves(a: string, b: string)
    ensures Contains(a + b, a) && Contains(a + b, b)
  {
    assert (a + b)[..|a|] == a;
    assert (a + b)[|a|..|a| + |b|] == b;
    ContainsAt(a + b, a, 0);
    ContainsAt(a + b, b, |a|);
  }

  /** An occurrence inside `b` is still an occurrence inside `a + b + c`. */
  lemma ContainsInContext(a: string, b: string, c: string, sub: string)
    requires Contains(b, sub)
    ensures Contains(a + b + c, sub)
  {
    var i := IndexOf(b, sub).value;
    assert (a + b + c)[|a| + i..|a| + i + |sub|] == b[i..i + |sub|];
    ContainsAt(a + b + c, sub, |a| + i);
  }

  /** An occurrence in `a` survives appending anything. */
  lemma ContainsLeft(a: string, b: string, sub: string)
    requires Contains(a, sub)
    ensures Contains(a + b, sub)
  {
    ContainsHalves(a, b);
    ContainsTrans(a + b, a, sub);
  }

  /** An occurrence in `b` survives prepending anything. */
  lemma ContainsRight(a: string, b: string, sub: string)
    requires Contains(b, sub)
    ensures Contains(a + b, sub)
  {
    ContainsHalves(a, b);
    ContainsTrans(a + b, b, sub);
  }

  /** A string that does not contain `sub` has no slice that contains it. */
  lemma NotContainsSlice(s: string, sub: string, i: int, j: int)
    requires 0 <= i <= j <= |s|
    requires !Contains(s, sub)
    ensures !Contains(s[i..j], sub)
  {
    if Contains(s[i..j], sub) {
      var k :| 0 <= k <= j - i && OccursAt(s[i..j], sub, k);
      SubSlice(s, i, j, k, k + |sub|);
      ContainsAt(s, sub, i + k);
    }
  }

  /** `any(w in text for w in words)` */
  predicate AnyIn(words: seq<string>, text: string) {
    exists k {:trigger Contains(text, words[k])} :: 0 <= k < |words| && Contains(text, words[k])
  }

  /** Index of the first row of a keyword table that has a keyword occurring in `text`,
      or `|rows|` when no row matches: the meaning of an `if any(..) elif any(..) ...`
      chain. */
  function FirstMatch(rows: seq<seq<string>>, text: string): (k: nat)
    ensures k <= |rows|
  {
    if |rows| == 0 then 0
    else if AnyIn(rows[0], text) then 0
    else 1 + FirstMatch(rows[1..], text)
  }

  /** The row `FirstMatch` picks matches, and no row before it does. */
  lemma {:induction false} FirstMatchIsFirst(rows: seq<seq<string>>, text: string)
    ensures var k := FirstMatch(rows, text);
      && (k < |rows| ==> AnyIn(rows[k], text))
      && (forall j {:trigger AnyIn(rows[j], text)} :: 0 <= j < k ==> !AnyIn(rows[j], text))
  {
    if |rows| > 0 && !AnyIn(rows[0], text) {
      FirstMatchIsFirst(rows[1..], text);
      var k := FirstMatch(rows, text);
      forall j | 0 <= j < k
        ensures !AnyIn(rows[j], text)
      {
        if j > 0 {
          assert rows[j] == rows[1..][j - 1];
        }
      }
    }
  }

  // ---------------------------------------------------------------------------------
  // Whitespace and `strip`
  // ---------------------------------------------------------------------------------

  /** Python's `str.isspace` for one character. */
  predicate IsSpace(c: char) {
    c == ' ' || ('\t' <= c <= '\r') || ('\U{1C}' <= c <= '\U{1F}') || c == '\U{85}' ||
    c == '\U{A0}' || c == '\U{1680}' || ('\U{2000}' <= c <= '\U{200A}') ||
    c == '\U{2028}' || c == '\U{2029}' || c == '\U{202F}' || c == '\U{205F}' || c == '\U{3000}'
  }

  function LeadingSpaces(s: string): (n: nat)
    ensures n <= |s|
    ensures forall i :: 0 <= i < n ==> IsSpace(s[i])
    ensures n < |s| ==> !IsSpace(s[n])
  {
    if |s| == 0 || !IsSpace(s[0]) then 0 else 1 + LeadingSpaces(s[1..])
  }

  function TrailingSpaces(s: string): (n: nat)
    ensures n <= |s|
    ensures forall i :: |s| - n <= i < |s| ==> IsSpace(s[i])
    ensures n < |s| ==> !IsSpace(s[|s| - 1 - n])
  {
    if |s| == 0 || !IsSpace(s[|s| - 1]) then 0 else 1 + TrailingSpaces(s[..|s| - 1])
  }

  /** `s.strip()` */
  function Strip(s: string): (r: string)
    ensures |r| <= |s|
    ensures r != [] ==> !IsSpace(r[0]) && !IsSpace(r[|r| - 1])
  {
    var a := LeadingSpaces(s);
    var t := s[a..];
    t[..|t| - TrailingSpaces(t)]
  }

  /** What `strip` keeps is a contiguous slice of its input, and everything it drops is
      whitespace. */
  lemma StripIsSlice(s: string)
    ensures exists i, j ::
              && 0 <= i <= j <= |s| && Strip(s) == s[i..j]
              && (forall k :: 0 <= k < i ==> IsSpace(s[k]))
              && (forall k :: j <= k < |s| ==> IsSpace(s[k]))
  {
    var a := LeadingSpaces(s);
    var t := s[a..];
    var b := TrailingSpaces(t);
    assert Strip(s) == s[a..|s| - b];
    forall k | |s| - b <= k < |s| ensures IsSpace(s[k]) {
      assert s[k] == t[k - a];
    }
  }

  /** Stripping cannot bring in a substring that was not there. */
  lemma StripKeepsOut(s: string, sub: string)
    requires !Contains(s, sub)
    ensures !Contains(Strip(s), sub)
  {
    StripIsSlice(s);
    var i, j :| 0 <= i <= j <= |s| && Strip(s) == s[i..j];
    NotContainsSlice(s, sub, i, j);
  }

  /** A string with no whitespace at either end is its own `strip`. */
  lemma StripNoSpace(s: string)
    requires s != [] ==> !IsSpace(s[0]) && !IsSpace(s[|s| - 1])
    ensures Strip(s) == s
  {
    assert LeadingSpaces(s) == 0;
    assert s[0..] == s;
  }

  // ---------------------------------------------------------------------------------
  // `split` and `join`
  // ---------------------------------------------------------------------------------

  /** `s.split(sep)` for a non-empty separator (Python raises on an empty one). */
  function Split(s: string, sep: string): (r: seq<string>)
    requires |sep| > 0
    ensures |r| >= 1
    decreases |s|
  {
    match IndexOf(s, sep)
    case None => [s]
    case Some(i) => [s[..i]] + Split(s[i + |sep|..], sep)
  }

  /** `sep.join(parts)` */
  function Join(sep: string, parts: seq<string>): string {
    if |parts| == 0 then ""
    else if |parts| == 1 then parts[0]
    else parts[0] + sep + Join(sep, parts[1..])
  }

  /** Joining the pieces of a split with the same separator gives back the string. */
  lemma {:induction false} JoinSplit(s: string, sep: string)
    requires |sep| > 0
    ensures Join(sep, Split(s, sep)) == s
    decreases |s|
  {
    var found := IndexOf(s, sep);
    if found.Some? {
      var i := found.value;
      var rest := s[i + |sep|..];
      var tail := Split(rest, sep);
      JoinSplit(rest, sep);
      var parts := [s[..i]] + tail;
      assert Split(s, sep) == parts;
      assert |parts| >= 2 && parts[0] == s[..i] && parts[1..] == tail;
      assert Join(sep, parts) == s[..i] + sep + Join(sep, tail);
      assert s[i..i + |sep|] == sep;
      assert s == s[..i] + s[i..i + |sep|] + rest;
    }
  }

  /** No piece of a split contains the separator. */
  lemma {:induction false} SplitPiecesFree(s: string, sep: string)
    requires |sep| > 0
    ensures forall k :: 0 <= k < |Split(s, sep)| ==> !Contains(Split(s, sep)[k], sep)
    decreases |s|
  {
    match IndexOf(s, sep)
    case None =>
    case Some(i) =>
      var rest := s[i + |sep|..];
      SplitPiecesFree(rest, sep);
      if Contains(s[..i], sep) {
        var j := IndexOf(s[..i], sep).value;
        assert s[..i][j..j + |sep|] == s[j..j + |sep|];
        assert OccursAt(s, sep, j);
      }
  }

  /** The first piece of `s.split(sep)` is everything before the first separator. */
  lemma SplitFirst(s: string, sep: string)
    requires |sep| > 0
    ensures IndexOf(s, sep).None? ==> Split(s, sep)[0] == s
    ensures IndexOf(s, sep).Some? ==> Split(s, sep)[0] == s[..IndexOf(s, sep).value]
  {
  }

  /** The first piece of a split is a prefix of the string and free of the separator. */
  lemma SplitFirstPrefix(s: string, sep: string)
    requires |sep| > 0
    ensures |Split(s, sep)[0]| <= |s| && Split(s, sep)[0] == s[..|Split(s, sep)[0]|]
    ensures !Contains(Split(s, sep)[0], sep)
  {
    SplitFirst(s, sep);
    SplitPiecesFree(s, sep);
  }

  /** Splitting on a one-character separator that a string lacks leaves it whole. */
  lemma SplitWithoutSeparator(x: string, sep: string)
    requires |sep| == 1 && sep[0] !in x
    ensures Split(x, sep) == [x]
  {
    MissingCharExcludes(x, sep, 0);
    IndexOfFindsContains(x, sep);
  }

  /** Splitting `x + sep + rest`, where `x` lacks the one-character separator, yields `x`
      followed by the pieces of `rest`. */
  lemma SplitAfterPiece(x: string, sep: string, rest: string)
    requires |sep| == 1 && sep[0] !in x
    ensures Split(x + sep + rest, sep) == [x] + Split(rest, sep)
  {
    var s := x + sep + rest;
    forall j | 0 <= j < |x|
      ensures !OccursAt(s, sep, j)
    {
      assert s[j] == x[j];
    }
    assert s[|x|..|x| + 1] == sep;
    ContainsAt(s, sep, |x|);
    IndexOfFindsContains(s, sep);
    var k := IndexOf(s, sep).value;
    assert !(k < |x|);
    assert !(|x| < k) by {
      assert OccursAt(s, sep, |x|);
    }
    assert s[..|x|] == x;
    assert s[|x| + 1..] == rest;
  }

  /** The first character of a join is the first character of its first part. */
  lemma JoinHead(sep: string, parts: seq<string>)
    requires |parts| > 0 && |parts[0]| > 0
    ensures |Join(sep, parts)| > 0 && Join(sep, parts)[0] == parts[0][0]
  {
  }

  /** Every part occurs in the joined string. */
  lemma {:induction false} JoinContains(sep: string, parts: seq<string>, j: nat)
    requires j < |parts|
    ensures Contains(Join(sep, parts), parts[j])
    decreases |parts|
  {
    if |parts| == 1 {
      assert parts[0][0..|parts[0]|] == parts[0];
      ContainsAt(parts[0], parts[0], 0);
    } else {
      var rest := Join(sep, parts[1..]);
      ContainsHalves(parts[0] + sep, rest);
      if j == 0 {
        ContainsHalves(parts[0], sep);
        ContainsTrans(parts[0] + sep + rest, parts[0] + sep, parts[0]);
      } else {
        JoinContains(sep, parts[1..], j - 1);
        ContainsTrans(parts[0] + sep + rest, rest, parts[j]);
      }
    }
  }

  /** `s.split()`: the maximal runs of non-whitespace characters. */
  function Words(s: string): (r: seq<string>)
    decreases |s|
  {
    var a := LeadingSpaces(s);
    if a == |s| then []
    else
      var t := s[a..];
      var w := WordLength(t);
      [t[..w]] + Words(t[w..])
  }

  function WordLength(s: string): (n: nat)
    ensures n <= |s|
    ensures forall i :: 0 <= i < n ==> !IsSpace(s[i])
    ensures n < |s| ==> IsSpace(s[n])
    ensures |s| > 0 && !IsSpace(s[0]) ==> n > 0
  {
    if |s| == 0 || IsSpace(s[0]) then 0 else 1 + WordLength(s[1..])
  }

  predicate NoSpace(s: string) {
    forall i :: 0 <= i < |s| ==> !IsSpace(s[i])
  }

  /** `(a + " " + b).split() == [a, b]` for two non-empty space-free words. */
  lemma WordsOfTwo(a: string, b: string)
    requires a != [] && b != [] && NoSpace(a) && NoSpace(b)
    ensures Words(a + " " + b) == [a, b]
  {
    assert a + " " + b == a + (" " + b);
    WordsCons(a, " " + b);
    WordsSpace(b);
    WordsOfOne(b);
  }

  /** `a.split() == [a]` for a non-empty space-free word. */
  lemma WordsOfOne(a: string)
    requires a != [] && NoSpace(a)
    ensures Words(a) == [a]
  {
    WordsCons(a, "");
    assert a + "" == a;
  }

  /** A leading word followed by whitespace (or nothing) is the first item of `split()`. */
  lemma WordsCons(w: string, rest: string)
    requires w != [] && NoSpace(w)
    requires rest == [] || IsSpace(rest[0])
    ensures Words(w + rest) == [w] + Words(rest)
  {
    var s := w + rest;
    assert LeadingSpaces(s) == 0;
    assert s[0..] == s;
    WordLengthOf(w, rest);
    assert s[..|w|] == w;
    assert s[|w|..] == rest;
  }

  /** Leading whitespace does not change `split()`. */
  lemma WordsSpace(b: string)
    ensures Words(" " + b) == Words(b)
  {
    var u := " " + b;
    assert u[1..] == b;
    assert LeadingSpaces(u) == 1 + LeadingSpaces(b);
    var a := LeadingSpaces(b);
    if a < |b| {
      assert u[1 + a..] == b[a..];
    }
  }

  lemma {:induction false} WordLengthOf(a: string, rest: string)
    requires NoSpace(a)
    requires rest == [] || IsSpace(rest[0])
    ensures WordLength(a + rest) == |a|
  {
    if a != [] {
      assert (a + rest)[1..] == a[1..] + rest;
      WordLengthOf(a[1..], rest);
    }
  }

  // ---------------------------------------------------------------------------------
  // Decimal integers: `str(n)` and `int(s)`
  // ---------------------------------------------------------------------------------

  predicate IsDigit(c: char) {
    '0' <= c <= '9'
  }

  function DigitChar(d: nat): (c: char)
    requires d < 10
    ensures IsDigit(c)
  {
    ('0' as int + d) as char
  }

  /** `str(n)` for a natural number. */
  function NatToString(n: nat): (r: string)
    ensures |r| >= 1
    ensures forall i :: 0 <= i < |r| ==> IsDigit(r[i])
  {
    if n < 10 then [DigitChar(n)] else NatToString(n / 10) + [DigitChar(n % 10)]
  }

  /** `str(i)` for an integer. */
  function IntToString(i: int): (r: string)
    ensures |r| >= 1
  {
    if i < 0 then "-" + NatToString(-i) else NatToString(i)
  }

  predicate AllDigits(s: string) {
    forall i :: 0 <= i < |s| ==> IsDigit(s[i])
  }

  function DigitsValue(s: string): nat
    requires AllDigits(s)
  {
    if |s| == 0 then 0 else DigitsValue(s[..|s| - 1]) * 10 + (s[|s| - 1] as int - '0' as int)
  }

  /** Reading back the decimal rendering of `n` gives `n`. */
  lemma {:induction false} DigitsValueOfNatToString(n: nat)
    ensures DigitsValue(NatToString(n)) == n
  {
    var r := NatToString(n);
    if n >= 10 {
      DigitsValueOfNatToString(n / 10);
      assert r[..|r| - 1] == NatToString(n / 10);
    }
  }

  /** `int(s)` for base-10 text: surrounding whitespace, an optional sign and at least one
      ASCII digit; `None` where Python raises `ValueError`. Unlike Python's `int`, `_` digit
      separators and non-ASCII digits are not accepted; the durations parsed here contain neither. */
  function ParseInt(s: string): (r: Option<int>)
    ensures r.Some? ==> Strip(s) != []
  {
    var t := Strip(s);
    if |t| > 0 && (t[0] == '+' || t[0] == '-') then
      var d := t[1..];
      if |d| > 0 && AllDigits(d) then
        Some(if t[0] == '-' then -(DigitsValue(d) as int) else DigitsValue(d))
      else None
    else if |t| > 0 && AllDigits(t) then Some(DigitsValue(t))
    else None
  }

  /** `int(str(n)) == n` */
  lemma ParseIntOfNatToString(n: nat)
    ensures ParseInt(NatToString(n)) == Some(n)
  {
    var s := NatToString(n);
    StripNoSpace(s);
    DigitsValueOfNatToString(n);
  }

  /** `s.replace(c, '')` for a one-character pattern. */
  function RemoveChar(s: string, c: char): (r: string)
    ensures |r| <= |s|
    ensures forall i :: 0 <= i < |r| ==> r[i] != c
  {
    if |s| == 0 then ""
    else (if s[0] == c then "" else [s[0]]) + RemoveChar(s[1..], c)
  }

  lemma {:induction false} RemoveCharAbsent(s: string, c: char)
    requires forall i :: 0 <= i < |s| ==> s[i] != c
    ensures RemoveChar(s, c) == s
  {
    if |s| > 0 {
      RemoveCharAbsent(s[1..], c);
    }
  }

  lemma RemoveCharSuffix(s: string, c: char)
    requires forall i :: 0 <= i < |s| ==> s[i] != c
    ensures RemoveChar(s + [c], c) == s
  {
    RemoveCharAppend(s, [c], c);
    RemoveCharAbsent(s, c);
    assert RemoveChar([c], c) == "" by {
      assert [c][1..] == "";
    }
  }

  lemma {:induction false} RemoveCharAppend(a: string, b: string, c: char)
    ensures RemoveChar(a + b, c) == RemoveChar(a, c) + RemoveChar(b, c)
  {
    if |a| > 0 {
      assert (a + b)[1..] == a[1..] + b;
      RemoveCharAppend(a[1..], b, c);
    } else {
      assert a + b == b;
    }
  }

  // ---------------------------------------------------------------------------------
  // Numbers
  // ---------------------------------------------------------------------------------

  /** `int(x)` on a float: truncation toward zero. */
  function TruncateReal(x: real): (r: int)
    ensures x >= 0.0 ==> r as real <= x < r as real + 1.0
    ensures x < 0.0 ==> r as real - 1.0 < x <= r as real
  {
    if x >= 0.0 then x.Floor else -((-x).Floor)
  }

  function Clamp(lo: int, hi: int, x: int): (r: int)
    requires lo <= hi
    ensures lo <= r <= hi
    ensures lo <= x <= hi ==> r == x
  {
    if x < lo then lo else if x > hi then hi else x
  }

  // ---------------------------------------------------------------------------------
  // Random draws, passed in as parameters
  // ---------------------------------------------------------------------------------

  lemma ModOfSmall(j: int, m: int)
    requires 0 <= j < m
    ensures j % m == j
  {
  }

  lemma ModOfSelf(m: int)
    requires m > 0
    ensures m % m == 0
  {
  }

  /** `random.randint(lo, hi)` with the draw supplied as `seed`; every value in the range
      is the outcome of some seed. */
  function RandInt(lo: int, hi: int, seed: nat): (r: int)
    requires lo <= hi
    ensures lo <= r <= hi
  {
    lo + seed % (hi - lo + 1)
  }

  lemma RandIntCovers(lo: int, hi: int, v: int)
    requires lo <= v <= hi
    ensures RandInt(lo, hi, (v - lo) as nat) == v
  {
  }

  /** `random.choice(xs)` with the draw supplied as `seed`. */
  function Choice<T>(xs: seq<T>, seed: nat): (r: T)
    requires |xs| > 0
    ensures r in xs
  {
    xs[seed % |xs|]
  }
}
