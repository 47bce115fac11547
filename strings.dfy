/** The part of Go's `strings` and `strconv` packages that the core relies on,
    over strings as sequences of characters. */
module Strings {
  import opened Wrappers

  // ---------------------------------------------------------------------------
  // Whitespace and trimming (strings.TrimSpace uses unicode.IsSpace)
  // ---------------------------------------------------------------------------

  /** The White_Space characters outside the U+2000..U+200A block. */
  const SpaceChars: set<char> := {
    ' ', '\t', '\n', '\r', '\U{B}', '\U{C}', '\U{85}', '\U{A0}', '\U{1680}',
    '\U{2028}', '\U{2029}', '\U{202F}', '\U{205F}', '\U{3000}'}

  /** unicode.IsSpace: the Latin-1 spaces plus the Unicode White_Space set. */
  predicate IsSpace(c: char) {
    c in SpaceChars || ('\U{2000}' <= c <= '\U{200A}')
  }

  /** The first index at or after `i` that is not whitespace, or |s|. */
  function SkipSpaces(s: string, i: nat): (k: nat)
    requires i <= |s|
    ensures i <= k <= |s|
    decreases |s| - i
  {
    if i == |s| || !IsSpace(s[i]) then i else SkipSpaces(s, i + 1)
  }

  lemma {:induction false} SkipSpacesSkipsSpaces(s: string, i: nat)
    requires i <= |s|
    ensures var k := SkipSpaces(s, i);
      && (forall m :: i <= m < k ==> IsSpace(s[m]))
      && (k < |s| ==> !IsSpace(s[k]))
    decreases |s| - i
  {
    if i < |s| && IsSpace(s[i]) {
      SkipSpacesSkipsSpaces(s, i + 1);
    }
  }

  /** The index just after the last non-space character of s[lo..j], or lo. */
  function SkipSpacesBack(s: string, lo: nat, j: nat): (k: nat)
    requires lo <= j <= |s|
    ensures lo <= k <= j
    decreases j - lo
  {
    if j == lo || !IsSpace(s[j - 1]) then j else SkipSpacesBack(s, lo, j - 1)
  }

  lemma {:induction false} SkipSpacesBackSkipsSpaces(s: string, lo: nat, j: nat)
    requires lo <= j <= |s|
    ensures var k := SkipSpacesBack(s, lo, j);
      && (forall m :: k <= m < j ==> IsSpace(s[m]))
      && (k > lo ==> !IsSpace(s[k - 1]))
    decreases j - lo
  {
    if j > lo && IsSpace(s[j - 1]) {
      SkipSpacesBackSkipsSpaces(s, lo, j - 1);
    }
  }

  /** strings.TrimSpace: the input without its leading and trailing whitespace. */
  function TrimSpace(s: string): (r: string)
    ensures |r| <= |s|
  {
    var a := SkipSpaces(s, 0);
    s[a..SkipSpacesBack(s, a, |s|)]
  }

  /** A string with no whitespace at either end, as TrimSpace leaves it. */
  predicate IsTrimmed(s: string) {
    s == [] || (!IsSpace(s[0]) && !IsSpace(s[|s| - 1]))
  }

  /** TrimSpace leaves no whitespace at either end. */
  lemma TrimSpaceIsTrimmed(s: string)
    ensures IsTrimmed(TrimSpace(s))
  {
    var a := SkipSpaces(s, 0);
    SkipSpacesSkipsSpaces(s, 0);
    SkipSpacesBackSkipsSpaces(s, a, |s|);
  }

  /** TrimSpace keeps a slice of `s` and removes only whitespace around it. */
  lemma TrimSpaceIsInfix(s: string)
    ensures var r := TrimSpace(s);
      exists i :: && InfixAt(s, r, i)
                  && (forall k :: 0 <= k < i ==> IsSpace(s[k]))
                  && (forall k :: i + |r| <= k < |s| ==> IsSpace(s[k]))
  {
    var a := SkipSpaces(s, 0);
    SkipSpacesSkipsSpaces(s, 0);
    SkipSpacesBackSkipsSpaces(s, a, |s|);
    assert InfixAt(s, TrimSpace(s), a);
  }

  /** `r` occurs in `s` starting at position `i`. */
  ghost predicate InfixAt(s: string, r: string, i: int) {
    0 <= i <= |s| - |r| && r == s[i..i + |r|]
  }

  /** A trimmed string is its own TrimSpace. */
  lemma TrimOfTrimmed(s: string)
    requires IsTrimmed(s)
    ensures TrimSpace(s) == s
  {
    if s != [] {
      assert SkipSpaces(s, 0) == 0;
      assert SkipSpacesBack(s, 0, |s|) == |s|;
    }
  }

  lemma TrimmedIsFixpoint(s: string)
    ensures TrimSpace(TrimSpace(s)) == TrimSpace(s)
  {
    TrimSpaceIsTrimmed(s);
    TrimOfTrimmed(TrimSpace(s));
  }

  predicate HasPrefix(s: string, p: string) {
    |p| <= |s| && s[..|p|] == p
  }

  /** strings.TrimPrefix: drop `p` once from the front when it is there. */
  function TrimPrefix(s: string, p: string): (r: string)
    ensures HasPrefix(s, p) ==> s == p + r
    ensures !HasPrefix(s, p) ==> r == s
  {
    if HasPrefix(s, p) then s[|p|..] else s
  }

  // ---------------------------------------------------------------------------
  // Searching
  // ---------------------------------------------------------------------------

  /** The first index of `c` in `s`, or -1. */
  function IndexOf(s: string, c: char): (i: int)
    ensures -1 <= i < |s|
    ensures i >= 0 ==> s[i] == c && c !in s[..i]
    ensures i < 0 ==> c !in s
  {
    if |s| == 0 then -1
    else if s[0] == c then 0
    else
      var j := IndexOf(s[1..], c);
      if j < 0 then -1 else j + 1
  }

  lemma ContainsItself(s: string)
    ensures Contains(s, s)
  {
    assert InfixAt(s, s, 0);
  }

  /** strings.Contains, by scanning the start positions left to right. */
  predicate Contains(s: string, sub: string)
    ensures Contains(s, sub) <==> exists i :: InfixAt(s, sub, i)
  {
    if |sub| > |s| then false
    else if s[..|sub|] == sub then (assert InfixAt(s, sub, 0); true)
    else
      var c := Contains(s[1..], sub);
      assert c ==> exists i :: InfixAt(s, sub, i) by {
        if c {
          var i :| InfixAt(s[1..], sub, i);
          assert s[1..][i..i + |sub|] == s[i + 1..i + 1 + |sub|];
          assert InfixAt(s, sub, i + 1);
        }
      }
      assert (exists i :: InfixAt(s, sub, i)) ==> c by {
        if exists i :: InfixAt(s, sub, i) {
          var i :| InfixAt(s, sub, i);
          assert i != 0 by { assert s[0..|sub|] == s[..|sub|]; }
          assert s[1..][i - 1..i - 1 + |sub|] == s[i..i + |sub|];
          assert InfixAt(s[1..], sub, i - 1);
        }
      }
      c
  }

  // ---------------------------------------------------------------------------
  // Case
  // ---------------------------------------------------------------------------

  function LowerChar(c: char): char {
    if 'A' <= c <= 'Z' then (c as int + 32) as char else c
  }

  /** strings.ToLower, restricted to ASCII letters. */
  function ToLower(s: string): (r: string)
    ensures |r| == |s|
    ensures forall k :: 0 <= k < |s| ==> r[k] == LowerChar(s[k])
  {
    seq(|s|, k requires 0 <= k < |s| => LowerChar(s[k]))
  }

  // ---------------------------------------------------------------------------
  // Splitting and joining
  // ---------------------------------------------------------------------------

  /** strings.Join. */
  function Join(parts: seq<string>, sep: string): string {
    if |parts| == 0 then ""
    else if |parts| == 1 then parts[0]
    else parts[0] + sep + Join(parts[1..], sep)
  }

  lemma JoinAppend(parts: seq<string>, last: string, sep: string)
    requires |parts| > 0
    ensures Join(parts + [last], sep) == Join(parts, sep) + sep + last
  {
    if |parts| == 1 {
      assert parts + [last] == [parts[0], last];
    } else {
      assert (parts + [last])[1..] == parts[1..] + [last];
      JoinAppend(parts[1..], last, sep);
    }
  }

  /** strings.Split with a one-character separator: always at least one part. */
  function Split(s: string, sep: char): (parts: seq<string>)
    ensures |parts| >= 1
    ensures forall k :: 0 <= k < |parts| ==> sep !in parts[k]
    ensures Join(parts, [sep]) == s
    decreases |s|
  {
    var i := IndexOf(s, sep);
    if i < 0 then [s]
    else
      var rest := Split(s[i + 1..], sep);
      CutAt(s, i, sep);
      PrependPart(s[..i], sep, s[i + 1..], rest);
      [s[..i]] + rest
  }

  /** The text around the first separator. */
  lemma CutAt(s: string, i: int, sep: char)
    requires 0 <= i < |s| && s[i] == sep
    ensures s[..i] + [sep] + s[i + 1..] == s
  {
  }

  /** One more part in front of a split. */
  lemma PrependPart(p: string, sep: char, t: string, rest: seq<string>)
    requires sep !in p && |rest| >= 1 && Join(rest, [sep]) == t
    requires forall k :: 0 <= k < |rest| ==> sep !in rest[k]
    ensures forall k :: 0 <= k < |[p] + rest| ==> sep !in ([p] + rest)[k]
    ensures Join([p] + rest, [sep]) == p + [sep] + t
  {
    assert ([p] + rest)[1..] == rest;
  }

  lemma {:induction false} SplitJoin(parts: seq<string>, sep: char)
    requires |parts| >= 1
    requires forall k :: 0 <= k < |parts| ==> sep !in parts[k]
    ensures Split(Join(parts, [sep]), sep) == parts
  {
    if |parts| == 1 {
      assert IndexOf(parts[0], sep) < 0;
    } else {
      var p0, t := parts[0], Join(parts[1..], [sep]);
      var s := p0 + [sep] + t;
      assert Join(parts, [sep]) == s;
      IndexOfAfterPrefix(p0, sep, t);
      var i := |p0|;
      assert s[..i] == p0;
      assert s[i + 1..] == t;
      SplitJoin(parts[1..], sep);
      assert Split(s, sep) == [p0] + Split(t, sep);
      assert parts == [p0] + parts[1..];
    }
  }

  lemma {:induction false} IndexOfAfterPrefix(a: string, c: char, b: string)
    requires c !in a
    ensures IndexOf(a + [c] + b, c) == |a|
  {
    if a != [] {
      assert (a + [c] + b)[1..] == a[1..] + [c] + b;
      IndexOfAfterPrefix(a[1..], c, b);
    }
  }

  /** strings.SplitN(s, sep, 3): at most three parts, the last one unsplit. */
  function SplitN3(s: string, sep: char): (parts: seq<string>)
    ensures 1 <= |parts| <= 3
    ensures |parts| < 3 ==> parts == Split(s, sep)
    ensures |parts| == 3 ==> sep !in parts[0] && sep !in parts[1] && s == parts[0] + [sep] + parts[1] + [sep] + parts[2]
  {
    var i := IndexOf(s, sep);
    if i < 0 then SplitWhole(s, sep); [s]
    else
      var rest := s[i + 1..];
      var j := IndexOf(rest, sep);
      if j < 0 then
        SplitFirst(s, sep);
        SplitWhole(rest, sep);
        [s[..i], rest]
      else
        SplitThree(s, sep);
        [s[..i], rest[..j], rest[j + 1..]]
  }

  lemma SplitWhole(s: string, sep: char)
    requires IndexOf(s, sep) < 0
    ensures Split(s, sep) == [s]
  {
  }

  lemma SplitFirst(s: string, sep: char)
    requires IndexOf(s, sep) >= 0
    ensures var i := IndexOf(s, sep); Split(s, sep) == [s[..i]] + Split(s[i + 1..], sep)
  {
  }

  lemma SplitThree(s: string, sep: char)
    requires IndexOf(s, sep) >= 0 && IndexOf(s[IndexOf(s, sep) + 1..], sep) >= 0
    ensures var i := IndexOf(s, sep); var rest := s[i + 1..]; var j := IndexOf(rest, sep);
      sep !in s[..i] && sep !in rest[..j] && s == s[..i] + [sep] + rest[..j] + [sep] + rest[j + 1..]
  {
    var i := IndexOf(s, sep);
    var rest := s[i + 1..];
    var j := IndexOf(rest, sep);
    SplitAround(s, i);
    SplitAround(rest, j);
    Regroup(s[..i], sep, rest[..j], sep, rest[j + 1..]);
  }

  lemma SplitAround<T>(s: seq<T>, i: nat)
    requires i < |s|
    ensures s == s[..i] + [s[i]] + s[i + 1..]
  {
  }

  /** A sequence is its two halves at any cut, and an element it lacks is in
      neither half. */
  lemma TakeDrop<T>(s: seq<T>, i: nat, x: T)
    requires i <= |s|
    ensures s[..i] + s[i..] == s
    ensures x !in s ==> x !in s[..i] && x !in s[i..]
  {
  }

  lemma Regroup<T>(a: seq<T>, x: T, b: seq<T>, y: T, c: seq<T>)
    ensures a + [x] + (b + [y] + c) == a + [x] + b + [y] + c
  {
  }

  // ---------------------------------------------------------------------------
  // strings.Fields: the maximal runs of non-space characters
  // ---------------------------------------------------------------------------

  function WordPrefix(s: string): (w: string)
    ensures |w| <= |s| && w == s[..|w|]
    ensures forall k :: 0 <= k < |w| ==> !IsSpace(w[k])
    ensures |w| < |s| ==> IsSpace(s[|w|])
  {
    if |s| == 0 || IsSpace(s[0]) then [] else [s[0]] + WordPrefix(s[1..])
  }

  predicate IsWord(w: string) {
    w != [] && forall k :: 0 <= k < |w| ==> !IsSpace(w[k])
  }

  function Fields(s: string): (ws: seq<string>)
    ensures forall k :: 0 <= k < |ws| ==> IsWord(ws[k])
    decreases |s|
  {
    if |s| == 0 then []
    else if IsSpace(s[0]) then Fields(s[1..])
    else
      var w := WordPrefix(s);
      [w] + Fields(s[|w|..])
  }

  lemma {:induction false} WordPrefixBeforeSpace(a: string, c: char, b: string)
    requires IsSpace(c)
    ensures WordPrefix(a + [c] + b) == WordPrefix(a)
  {
    if a == [] {
    } else if !IsSpace(a[0]) {
      assert (a + [c] + b)[1..] == a[1..] + [c] + b;
      WordPrefixBeforeSpace(a[1..], c, b);
    }
  }

  lemma {:induction false} WordPrefixOfWord(w: string)
    requires forall k :: 0 <= k < |w| ==> !IsSpace(w[k])
    ensures WordPrefix(w) == w
  {
    if w != [] {
      WordPrefixOfWord(w[1..]);
    }
  }

  /** A space separates the fields on its two sides. */
  lemma {:induction false} FieldsAroundSpace(a: string, c: char, b: string)
    requires IsSpace(c)
    ensures Fields(a + [c] + b) == Fields(a) + Fields(b)
    decreases |a|
  {
    var s := a + [c] + b;
    if a == [] {
      assert s[1..] == b;
    } else if IsSpace(a[0]) {
      assert s[1..] == a[1..] + [c] + b;
      FieldsAroundSpace(a[1..], c, b);
    } else {
      WordPrefixBeforeSpace(a, c, b);
      var w := WordPrefix(a);
      assert s[|w|..] == a[|w|..] + [c] + b;
      FieldsAroundSpace(a[|w|..], c, b);
    }
  }

  lemma FieldsOfWord(w: string)
    requires IsWord(w)
    ensures Fields(w) == [w]
  {
    WordPrefixOfWord(w);
    assert w[|w|..] == [];
  }

  // ---------------------------------------------------------------------------
  // Numbers
  // ---------------------------------------------------------------------------

  predicate IsDigit(c: char) { '0' <= c <= '9' }

  function DigitsValue(s: string): (v: nat)
    requires forall k :: 0 <= k < |s| ==> IsDigit(s[k])
  {
    if |s| == 0 then 0 else assert IsDigit(s[|s| - 1]); 10 * DigitsValue(s[..|s| - 1]) + (s[|s| - 1] as int - '0' as int)
  }

  const MinInt64: int := -0x8000_0000_0000_0000
  const MaxInt64: int := 0x7FFF_FFFF_FFFF_FFFF

  /** strconv.Atoi on a 64-bit platform: an optional sign and at least one decimal
      digit, nothing else, and the value must fit in int64. */
  function Atoi(s: string): (r: Option<int>)
    ensures r.Some? ==> MinInt64 <= r.value <= MaxInt64
    ensures s == [] ==> r.None?
  {
    var neg := |s| > 0 && s[0] == '-';
    var body := if |s| > 0 && (s[0] == '-' || s[0] == '+') then s[1..] else s;
    if |body| == 0 || exists k :: 0 <= k < |body| && !IsDigit(body[k]) then None
    else
      var d: int := DigitsValue(body);
      var v := if neg then -d else d;
      if v < MinInt64 || v > MaxInt64 then None else Some(v)
  }

  function DigitChar(d: nat): char
    requires d < 10
  {
    ('0' as int + d) as char
  }

  /** The decimal rendering of a natural number, as fmt's %d writes it. */
  function NatToString(n: nat): (r: string)
    ensures |r| >= 1
    ensures forall k :: 0 <= k < |r| ==> IsDigit(r[k])
  {
    if n < 10 then [DigitChar(n)] else NatToString(n / 10) + [DigitChar(n % 10)]
  }

  lemma {:induction false} NatToStringRoundTrip(n: nat)
    ensures DigitsValue(NatToString(n)) == n
  {
    var r := NatToString(n);
    if n >= 10 {
      NatToStringRoundTrip(n / 10);
      assert r[..|r| - 1] == NatToString(n / 10);
    }
  }

  /** fmt's %d for any integer. */
  function IntToString(i: int): (r: string)
    ensures i >= 0 ==> r == NatToString(i)
    ensures i < 0 ==> r == "-" + NatToString(-i)
  {
    if i < 0 then "-" + NatToString(-i) else NatToString(i)
  }

  /** A join of non-empty parts starts where the first part starts and ends
      where the last part ends. */
  lemma {:induction false} JoinEnds(parts: seq<string>, sep: string)
    requires |parts| > 0
    requires forall k :: 0 <= k < |parts| ==> parts[k] != []
    ensures var j := Join(parts, sep);
      j != [] && j[0] == parts[0][0] && j[|j| - 1] == parts[|parts| - 1][|parts[|parts| - 1]| - 1]
  {
    if |parts| > 1 {
      JoinEnds(parts[1..], sep);
    }
  }
}
