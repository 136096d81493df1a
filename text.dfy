/** JavaScript string primitives used throughout the extension, written out
    over `string` (a sequence of Unicode scalar values). */
module Text {

  /** `\s` of a JavaScript regular expression and the set `String.prototype.trim` strips. */
  predicate IsSpace(c: char) {
    var n := c as int;
    (0x09 <= n <= 0x0D) || n == 0x20 || n == 0xA0 || n == 0x1680
    || (0x2000 <= n <= 0x200A) || n == 0x2028 || n == 0x2029 || n == 0x202F
    || n == 0x205F || n == 0x3000 || n == 0xFEFF
  }

  /** `\d` without the `u` flag: ASCII digits only. */
  predicate IsDigit(c: char) { '0' <= c <= '9' }

  predicate IsUpperLatin(c: char) { 'A' <= c <= 'Z' }

  /** `\w` without the `u` flag. */
  predicate IsWordChar(c: char) {
    'a' <= c <= 'z' || 'A' <= c <= 'Z' || IsDigit(c) || c == '_'
  }

  predicate AllDigits(s: string) { forall i :: 0 <= i < |s| ==> IsDigit(s[i]) }

  /** `toLowerCase` on one character, for Latin and the basic Cyrillic block
      (U+0400-U+042F map to U+0450-U+044F and U+0430-U+044F). */
  function LowerChar(c: char): (r: char)
    ensures 'A' <= c <= 'Z' ==> r as int == c as int + 32
    ensures 0x410 <= c as int <= 0x42F ==> r as int == c as int + 32
    ensures 0x400 <= c as int <= 0x40F ==> r as int == c as int + 80
    ensures !('A' <= c <= 'Z') && !(0x400 <= c as int <= 0x42F) ==> r == c
  {
    var n := c as int;
    if 'A' <= c <= 'Z' then (n + 32) as char
    else if 0x410 <= n <= 0x42F then (n + 32) as char
    else if 0x400 <= n <= 0x40F then (n + 80) as char
    else c
  }

  /** `toUpperCase` on one character, inverse of LowerChar on its range. */
  function UpperChar(c: char): (r: char)
    ensures 'a' <= c <= 'z' ==> r as int == c as int - 32
    ensures 0x430 <= c as int <= 0x44F ==> r as int == c as int - 32
    ensures 0x450 <= c as int <= 0x45F ==> r as int == c as int - 80
    ensures !('a' <= c <= 'z') && !(0x430 <= c as int <= 0x45F) ==> r == c
  {
    var n := c as int;
    if 'a' <= c <= 'z' then (n - 32) as char
    else if 0x430 <= n <= 0x44F then (n - 32) as char
    else if 0x450 <= n <= 0x45F then (n - 80) as char
    else c
  }

  function Lower(s: string): (r: string)
    ensures |r| == |s|
    ensures forall i {:trigger r[i]} :: 0 <= i < |s| ==> r[i] == LowerChar(s[i])
  {
    if s == [] then [] else [LowerChar(s[0])] + Lower(s[1..])
  }

  function Upper(s: string): (r: string)
    ensures |r| == |s|
    ensures forall i {:trigger r[i]} :: 0 <= i < |s| ==> r[i] == UpperChar(s[i])
  {
    if s == [] then [] else [UpperChar(s[0])] + Upper(s[1..])
  }

  /** Case-insensitive equality of two characters, as the `i` flag compares them. */
  predicate SameFold(a: char, b: char) { UpperChar(a) == UpperChar(b) }

  predicate StartsWith(s: string, p: string) { |p| <= |s| && s[..|p|] == p }

  /** Concatenation regroups freely; stated once so that proofs over
      large contexts need not rediscover it element by element. */
  lemma ConcatAssoc<T>(a: seq<T>, b: seq<T>, c: seq<T>)
    ensures a + (b + c) == (a + b) + c
  {
  }

  /** p occurs in s starting at position k. */
  predicate OccursAt(s: string, p: string, k: nat) {
    k + |p| <= |s| && s[k..k + |p|] == p
  }

  /** `s.includes(p)`: some position of s starts a copy of p. */
  predicate Contains(s: string, p: string) {
    exists k :: 0 <= k <= |s| && OccursAt(s, p, k)
  }

  /** A decidable form of Contains, scanning from position k. */
  function ContainsFrom(s: string, p: string, k: nat): (b: bool)
    requires k <= |s|
    ensures b <==> exists j :: k <= j <= |s| && OccursAt(s, p, j)
    decreases |s| - k
  {
    if |s| - k < |p| then false
    else if OccursAt(s, p, k) then true
    else ContainsFrom(s, p, k + 1)
  }

  function Includes(s: string, p: string): (b: bool)
    ensures b <==> Contains(s, p)
  {
    ContainsFrom(s, p, 0)
  }

  /** The string without its leading white space. */
  function TrimStart(s: string): (r: string)
    ensures |r| <= |s|
    ensures r == [] || !IsSpace(r[0])
  {
    if s != [] && IsSpace(s[0]) then TrimStart(s[1..]) else s
  }

  /** TrimStart keeps a suffix of s and drops only white space. */
  lemma {:induction false} TrimStartDropsSpaces(s: string)
    ensures TrimStart(s) == s[|s| - |TrimStart(s)|..]
    ensures forall j :: 0 <= j < |s| - |TrimStart(s)| ==> IsSpace(s[j])
    decreases |s|
  {
    if s != [] && IsSpace(s[0]) {
      TrimStartDropsSpaces(s[1..]);
      assert s[1..][|s| - 1 - |TrimStart(s)|..] == s[|s| - |TrimStart(s)|..];
      forall j | 0 < j < |s| - |TrimStart(s)| ensures IsSpace(s[j]) {
        assert s[1..][j - 1] == s[j];
      }
    }
  }

  /** The string without its trailing white space. */
  function TrimEnd(s: string): (r: string)
    ensures |r| <= |s|
    ensures r == [] || !IsSpace(r[|r| - 1])
  {
    if s != [] && IsSpace(s[|s| - 1]) then TrimEnd(s[..|s| - 1]) else s
  }

  /** TrimEnd keeps a prefix of s and drops only white space. */
  lemma {:induction false} TrimEndDropsSpaces(s: string)
    ensures TrimEnd(s) == s[..|TrimEnd(s)|]
    ensures forall j :: |TrimEnd(s)| <= j < |s| ==> IsSpace(s[j])
    decreases |s|
  {
    if s != [] && IsSpace(s[|s| - 1]) {
      TrimEndDropsSpaces(s[..|s| - 1]);
      assert s[..|s| - 1][..|TrimEnd(s)|] == s[..|TrimEnd(s)|];
    }
  }

  /** `String.prototype.trim`: the slice of s between its leading and its
      trailing white space. */
  function Trim(s: string): (r: string)
    ensures |r| <= |s|
  {
    TrimEnd(TrimStart(s))
  }

  /** What `trim` keeps: a slice of s with white space on either side and none
      at its ends. */
  lemma TrimSlice(s: string)
    ensures var r := Trim(s);
      r == [] || (!IsSpace(r[0]) && !IsSpace(r[|r| - 1]))
    ensures var r := Trim(s);
      exists a: nat :: OccursAt(s, r, a)
        && (forall j :: 0 <= j < a ==> IsSpace(s[j]))
        && (forall j :: a + |r| <= j < |s| ==> IsSpace(s[j]))
  {
    var t := TrimStart(s);
    var a := |s| - |t|;
    var r := TrimEnd(t);
    TrimStartDropsSpaces(s);
    TrimEndDropsSpaces(t);
    assert r == s[a..a + |r|];
    assert OccursAt(s, r, a);
    assert forall j :: a + |r| <= j < |s| ==> s[j] == t[j - a];
  }

  /** `s.split(/\s+/).filter(Boolean)`: the maximal runs of non-space characters. */
  function Words(s: string): (ws: seq<string>)
    ensures forall i :: 0 <= i < |ws| ==> ws[i] != [] && forall j :: 0 <= j < |ws[i]| ==> !IsSpace(ws[i][j])
    decreases |s|
  {
    var t := TrimStart(s);
    if t == [] then []
    else
      var w := WordPrefix(t);
      [w] + Words(t[|w|..])
  }

  /** Leading white space does not change the words. */
  lemma {:induction false} TrimStartSpaces(sp: string, t: string)
    requires forall j :: 0 <= j < |sp| ==> IsSpace(sp[j])
    requires t == [] || !IsSpace(t[0])
    ensures TrimStart(sp + t) == t
    decreases |sp|
  {
    if sp != [] {
      assert (sp + t)[1..] == sp[1..] + t;
      TrimStartSpaces(sp[1..], t);
    }
  }

  lemma {:induction false} WordPrefixOf(w: string, rest: string)
    requires forall j :: 0 <= j < |w| ==> !IsSpace(w[j])
    requires rest == [] || IsSpace(rest[0])
    ensures WordPrefix(w + rest) == w
    decreases |w|
  {
    if w != [] {
      assert (w + rest)[1..] == w[1..] + rest;
      WordPrefixOf(w[1..], rest);
    }
  }

  /** A string of white space has no words. */
  lemma WordsOfSpaces(sp: string)
    requires forall j :: 0 <= j < |sp| ==> IsSpace(sp[j])
    ensures Words(sp) == []
  {
    TrimStartSpaces(sp, []);
    assert sp + [] == sp;
  }

  /** White space, a run of non-space characters, then white space or the
      end: the run is the first word and the words of the rest follow it. */
  lemma WordsOfRun(sp: string, w: string, rest: string)
    requires forall j :: 0 <= j < |sp| ==> IsSpace(sp[j])
    requires w != [] && forall j :: 0 <= j < |w| ==> !IsSpace(w[j])
    requires rest == [] || IsSpace(rest[0])
    ensures Words(sp + w + rest) == [w] + Words(rest)
  {
    assert sp + w + rest == sp + (w + rest);
    TrimStartSpaces(sp, w + rest);
    WordPrefixOf(w, rest);
    assert (w + rest)[|w|..] == rest;
  }

  /** The longest prefix of s without a space. */
  function WordPrefix(s: string): (w: string)
    ensures |w| <= |s| && w == s[..|w|]
    ensures forall j :: 0 <= j < |w| ==> !IsSpace(w[j])
    ensures |w| < |s| ==> IsSpace(s[|w|])
    ensures s != [] && !IsSpace(s[0]) ==> w != []
  {
    if s == [] || IsSpace(s[0]) then [] else [s[0]] + WordPrefix(s[1..])
  }

  /** `parts.join(sep)`. */
  function Join(parts: seq<string>, sep: string): string {
    if parts == [] then ""
    else if |parts| == 1 then parts[0]
    else parts[0] + sep + Join(parts[1..], sep)
  }

  /** `String(n)` for a natural number: its decimal digits, without leading zeros. */
  function NatToString(n: nat): (s: string)
    ensures s != [] && AllDigits(s)
    ensures DigitsValue(s) == n
    ensures s[0] == '0' ==> n == 0
  {
    if n < 10 then [DigitChar(n)]
    else
      var p := NatToString(n / 10);
      var s := p + [DigitChar(n % 10)];
      assert s[..|s| - 1] == p;
      s
  }

  function DigitChar(d: nat): (c: char)
    requires d < 10
    ensures IsDigit(c) && DigitValue(c) == d
  {
    ('0' as int + d) as char
  }

  function DigitValue(c: char): nat
    requires IsDigit(c)
  {
    c as int - '0' as int
  }

  /** The longest prefix of s made of ASCII digits. */
  function DigitPrefix(s: string): (w: string)
    ensures |w| <= |s| && w == s[..|w|] && AllDigits(w)
    ensures |w| < |s| ==> !IsDigit(s[|w|])
  {
    if s == [] || !IsDigit(s[0]) then [] else [s[0]] + DigitPrefix(s[1..])
  }

  /** A digit run followed by a non-digit (or nothing) is the digit prefix. */
  lemma {:induction false} DigitPrefixOf(w: string, t: string)
    requires AllDigits(w)
    requires t == [] || !IsDigit(t[0])
    ensures DigitPrefix(w + t) == w
    decreases |w|
  {
    if w == [] {
    } else {
      assert (w + t)[1..] == w[1..] + t;
      DigitPrefixOf(w[1..], t);
    }
  }

  function DigitsValue(s: string): nat
    requires AllDigits(s)
  {
    if s == [] then 0 else DigitsValue(s[..|s| - 1]) * 10 + DigitValue(s[|s| - 1])
  }

  /** `parseInt(s, 10)` of a string without leading spaces; None stands for NaN. */
  function ParseInt(s: string): (r: Option<int>)
    ensures r.None? <==> DigitPrefix(if s != [] && (s[0] == '+' || s[0] == '-') then s[1..] else s) == []
    ensures r.Some? && s != [] && s[0] == '-' ==> r.value == 0 - DigitsValue(DigitPrefix(s[1..]))
    ensures r.Some? && s != [] && s[0] == '+' ==> r.value == DigitsValue(DigitPrefix(s[1..]))
    ensures r.Some? && s != [] && s[0] != '+' && s[0] != '-' ==> r.value == DigitsValue(DigitPrefix(s))
  {
    var neg := s != [] && s[0] == '-';
    var body := if s != [] && (s[0] == '+' || s[0] == '-') then s[1..] else s;
    var ds := DigitPrefix(body);
    var v: int := if ds == [] then 0 else DigitsValue(ds);
    if ds == [] then None else Some(if neg then -v else v)
  }

  datatype Option<+T> = None | Some(value: T)

  /** Sequence helpers shared by the scanners: first-seen de-duplication. */
  predicate NoDup<T(==)>(s: seq<T>) {
    forall i, j :: 0 <= i < j < |s| ==> s[i] != s[j]
  }

  /** The first index at which x occurs in s. */
  function FirstIndex<T(==)>(s: seq<T>, x: T): (k: nat)
    requires x in s
    ensures k < |s| && s[k] == x && x !in s[..k]
  {
    if s[0] == x then 0 else 1 + FirstIndex(s[1..], x)
  }

  /** The first index whose element satisfies p, as `Array.prototype.findIndex`
      (with None for -1). */
  function FirstWhere<T>(s: seq<T>, p: T -> bool): (k: Option<nat>)
    ensures k.Some? ==> (k.value < |s| && p(s[k.value]) && forall j :: 0 <= j < k.value ==> !p(s[j]))
    ensures k.None? ==> forall j :: 0 <= j < |s| ==> !p(s[j])
  {
    if s == [] then None
    else if p(s[0]) then Some(0)
    else match FirstWhere(s[1..], p)
      case Some(k) => assert s[1..][k] == s[k + 1]; Some(k + 1)
      case None => None
  }

  /** The first index is determined by the element there and the ones before it. */
  lemma FirstWhereAt<T>(s: seq<T>, p: T -> bool, i: nat)
    requires i < |s| && p(s[i]) && forall j :: 0 <= j < i ==> !p(s[j])
    ensures FirstWhere(s, p) == Some(i)
  {
  }

  /** `[...new Set(s)]`, equivalently pushing each element not yet included. */
  function Dedup<T(==)>(s: seq<T>): (d: seq<T>)
    ensures |d| <= |s|
    ensures forall i :: 0 <= i < |d| ==> d[i] in s
    ensures forall i :: 0 <= i < |s| ==> s[i] in d
  {
    if s == [] then []
    else
      var d0 := Dedup(s[..|s| - 1]);
      assert s == s[..|s| - 1] + [s[|s| - 1]];
      if s[|s| - 1] in d0 then d0 else d0 + [s[|s| - 1]]
  }

  /** Dedup unfolded once at the end: pushing x when it is not yet included. */
  lemma DedupPush<T>(s: seq<T>, x: T)
    ensures Dedup(s + [x]) == if x in Dedup(s) then Dedup(s) else Dedup(s) + [x]
  {
    assert (s + [x])[..|s + [x]| - 1] == s;
  }

  lemma {:induction false} DedupNoDup<T>(s: seq<T>)
    ensures NoDup(Dedup(s))
  {
    if s != [] {
      DedupNoDup(s[..|s| - 1]);
    }
  }

  /** Already-distinct sequences are left as they are. */
  lemma {:induction false} DedupOfNoDup<T>(s: seq<T>)
    requires NoDup(s)
    ensures Dedup(s) == s
  {
    if s != [] {
      var p := s[..|s| - 1];
      assert NoDup(p);
      DedupOfNoDup(p);
      assert s[|s| - 1] !in p;
      assert s == p + [s[|s| - 1]];
    }
  }

  /** The kept elements appear in the order of their first occurrences. */
  lemma {:induction false} DedupFirstSeenOrder<T>(s: seq<T>)
    ensures forall i, j :: 0 <= i < j < |Dedup(s)| ==>
      FirstIndex(s, Dedup(s)[i]) < FirstIndex(s, Dedup(s)[j])
  {
    if s != [] {
      var p := s[..|s| - 1];
      var x := s[|s| - 1];
      DedupFirstSeenOrder(p);
      assert s == p + [x];
      forall y | y in p ensures FirstIndex(s, y) == FirstIndex(p, y) {
        FirstIndexPrefix(p, [x], y);
      }
      if x !in Dedup(p) {
        assert x !in p;
        FirstIndexLast(s);
        forall i | 0 <= i < |Dedup(p)| ensures FirstIndex(s, Dedup(p)[i]) < |s| - 1 {
          assert Dedup(p)[i] in p;
        }
      }
    }
  }

  lemma {:induction false} FirstIndexPrefix<T>(p: seq<T>, q: seq<T>, y: T)
    requires y in p
    ensures y in p + q && FirstIndex(p + q, y) == FirstIndex(p, y)
  {
    if p[0] != y {
      assert (p + q)[1..] == p[1..] + q;
      FirstIndexPrefix(p[1..], q, y);
    }
  }

  lemma {:induction false} FirstIndexLast<T>(s: seq<T>)
    requires s != [] && s[|s| - 1] !in s[..|s| - 1]
    ensures FirstIndex(s, s[|s| - 1]) == |s| - 1
  {
  }
}
