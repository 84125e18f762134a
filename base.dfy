/** Values and string operations of the JavaScript runtime that the engine relies on:
    `trim`, `toLowerCase`, `split(/\s+/)`, `join`, `includes`, `startsWith`,
    `replace(/\s+/g, '_')` and number-to-text conversion. */
module Base {

  datatype Option<+T> = None | Some(value: T)

  /** JavaScript's `a || d` on a possibly missing string: the empty string is falsy. */
  function OrElse(o: Option<string>, d: string): (r: string)
    ensures r == d || (o.Some? && r == o.value && o.value != "")
    ensures o.Some? && o.value != "" ==> r == o.value
  {
    if o.Some? && o.value != "" then o.value else d
  }

  /** JavaScript truthiness of an optional string: present and non-empty. */
  predicate Truthy(o: Option<string>) {
    o.Some? && o.value != ""
  }

  /** A line terminator in the sense of ECMAScript: the characters `.` does not match. */
  predicate IsLineBreak(c: char) {
    c == '\n' || c == '\r' || c == '\U{2028}' || c == '\U{2029}'
  }

  /** The ECMAScript white-space set used by `trim` and by `\s` in regular expressions:
      WhiteSpace (TAB, VT, FF, SP, NBSP, ZWNBSP and the Zs category) plus LineTerminator. */
  /** The code-point ranges of that set, looked up one range at a time. */
  const SpaceRanges: seq<(int, int)> := [
    (0x09, 0x0D), (0x20, 0x20), (0xA0, 0xA0), (0x1680, 0x1680), (0x2000, 0x200A),
    (0x2028, 0x2029), (0x202F, 0x202F), (0x205F, 0x205F), (0x3000, 0x3000), (0xFEFF, 0xFEFF)
  ]

  predicate InRanges(x: int, rs: seq<(int, int)>, i: nat)
    decreases |rs| - i, x
  {
    i < |rs| && (rs[i].0 <= x <= rs[i].1 || InRanges(x, rs, i + 1))
  }

  predicate IsSpace(c: char) {
    InRanges(c as int, SpaceRanges, 0)
  }

  /** The white-space set, character by character. */
  lemma SpaceChars(c: char)
    ensures IsSpace(c) <==>
      c == ' ' || '\t' <= c <= '\r' || c == '\U{A0}' || c == '\U{1680}' || '\U{2000}' <= c <= '\U{200A}'
      || c == '\U{2028}' || c == '\U{2029}' || c == '\U{202F}' || c == '\U{205F}' || c == '\U{3000}' || c == '\U{FEFF}'
  {
    var rs := SpaceRanges;
    assert IsSpace(c) == InRanges(c as int, rs, 0);
    assert InRanges(c as int, rs, 0) == (9 <= c as int <= 13 || InRanges(c as int, rs, 1));
    assert InRanges(c as int, rs, 1) == (c as int == 32 || InRanges(c as int, rs, 2));
    assert InRanges(c as int, rs, 2) == (c as int == 0xA0 || InRanges(c as int, rs, 3));
    assert InRanges(c as int, rs, 3) == (c as int == 0x1680 || InRanges(c as int, rs, 4));
    assert InRanges(c as int, rs, 4) == (0x2000 <= c as int <= 0x200A || InRanges(c as int, rs, 5));
    assert InRanges(c as int, rs, 5) == (0x2028 <= c as int <= 0x2029 || InRanges(c as int, rs, 6));
    assert InRanges(c as int, rs, 6) == (c as int == 0x202F || InRanges(c as int, rs, 7));
    assert InRanges(c as int, rs, 7) == (c as int == 0x205F || InRanges(c as int, rs, 8));
    assert InRanges(c as int, rs, 8) == (c as int == 0x3000 || InRanges(c as int, rs, 9));
    assert InRanges(c as int, rs, 9) == (c as int == 0xFEFF || InRanges(c as int, rs, 10));
    assert !InRanges(c as int, rs, 10);
  }

  /** Letters, digits and the underscore are not white space. */
  lemma WordCharsAreNotSpace()
    ensures forall c :: 'a' <= c <= 'z' || 'A' <= c <= 'Z' || '0' <= c <= '9' || c == '_' ==> !IsSpace(c)
  {
    forall c | 'a' <= c <= 'z' || 'A' <= c <= 'Z' || '0' <= c <= '9' || c == '_'
      ensures !IsSpace(c)
    {
      SpaceChars(c);
    }
  }

  predicate AllSpace(s: string) {
    forall i :: 0 <= i < |s| ==> IsSpace(s[i])
  }

  predicate NoSpace(s: string) {
    forall i :: 0 <= i < |s| ==> !IsSpace(s[i])
  }

  /** No white space at either end: what `trim` leaves. */
  predicate Trimmed(s: string) {
    |s| == 0 || (!IsSpace(s[0]) && !IsSpace(s[|s| - 1]))
  }

  /** Where `trim` cuts the end of `s[..j]`, given the non-space character at `lo`:
      one past the last character before `j` that is not white space. */
  function TrimEnd(s: string, lo: nat, j: nat): (e: nat)
    requires lo < j <= |s| && !IsSpace(s[lo])
    ensures lo < e <= j && !IsSpace(s[e - 1])
    decreases j
  {
    if IsSpace(s[j - 1]) then TrimEnd(s, lo, j - 1) else j
  }

  lemma {:induction false} TrimEndIsRun(s: string, lo: nat, j: nat)
    requires lo < j <= |s| && !IsSpace(s[lo])
    ensures forall k :: TrimEnd(s, lo, j) <= k < j ==> IsSpace(s[k])
    decreases j
  {
    if IsSpace(s[j - 1]) {
      TrimEndIsRun(s, lo, j - 1);
    }
  }

  /** `String.prototype.trim`: drop the white space at both ends. */
  function Trim(s: string): (r: string)
    ensures Trimmed(r)
    ensures |r| <= |s|
  {
    var a := SpaceRun(s, 0);
    if a == |s| then "" else s[a..TrimEnd(s, a, |s|)]
  }

  /** Lower-case mapping of `toLowerCase` for the Latin letters the adventure uses:
      A-Z and the Latin-1 capitals (U+00C0-U+00DE except the multiplication sign). */
  function Lower(c: char): char {
    if 'A' <= c <= 'Z' || ('\U{C0}' <= c <= '\U{DE}' && c != '\U{D7}') then
      (c as int + 32) as char
    else c
  }

  function ToLower(s: string): (r: string)
    ensures |r| == |s|
    ensures forall i :: 0 <= i < |s| ==> r[i] == Lower(s[i])
  {
    seq(|s|, i requires 0 <= i < |s| => Lower(s[i]))
  }

  lemma LowerKeepsSpace(c: char)
    ensures IsSpace(Lower(c)) <==> IsSpace(c)
  {
    SpaceChars(c);
    SpaceChars(Lower(c));
  }

  /** Number of consecutive white-space characters starting at `i`. */
  function SpaceRun(s: string, i: nat): (n: nat)
    requires i <= |s|
    ensures i + n <= |s|
    ensures i + n == |s| || !IsSpace(s[i + n])
    decreases |s| - i
  {
    if i < |s| && IsSpace(s[i]) then 1 + SpaceRun(s, i + 1) else 0
  }

  lemma {:induction false} SpaceRunIsRun(s: string, i: nat)
    requires i <= |s|
    ensures forall k :: i <= k < i + SpaceRun(s, i) ==> IsSpace(s[k])
    decreases |s| - i
  {
    if i < |s| && IsSpace(s[i]) {
      SpaceRunIsRun(s, i + 1);
    }
  }

  lemma {:induction false} SpaceRunPrefixed(c: char, s: string, i: nat)
    requires i <= |s|
    ensures SpaceRun([c] + s, i + 1) == SpaceRun(s, i)
    decreases |s| - i
  {
    if i < |s| && IsSpace(s[i]) {
      SpaceRunPrefixed(c, s, i + 1);
    }
  }

  lemma {:induction false} SpaceRunAppended(s: string, c: char, i: nat)
    requires i <= |s|
    ensures SpaceRun(s + [c], i) ==
              if SpaceRun(s, i) == |s| - i && IsSpace(c) then |s| - i + 1 else SpaceRun(s, i)
    decreases |s| - i
  {
    if i < |s| {
      SpaceRunAppended(s, c, i + 1);
    }
  }

  lemma {:induction false} SpaceRunExact(s: string, i: nat, a: nat)
    requires i <= a < |s| && !IsSpace(s[a])
    requires forall k :: i <= k < a ==> IsSpace(s[k])
    ensures SpaceRun(s, i) == a - i
    decreases a - i
  {
    if i < a {
      SpaceRunExact(s, i + 1, a);
    }
  }

  lemma {:induction false} TrimEndExact(s: string, lo: nat, j: nat, b: nat)
    requires lo < b <= j <= |s| && !IsSpace(s[lo]) && !IsSpace(s[b - 1])
    requires forall k :: b <= k < j ==> IsSpace(s[k])
    ensures TrimEnd(s, lo, j) == b
    decreases j
  {
    if b < j {
      TrimEndExact(s, lo, j - 1, b);
    }
  }

  /** `trim` of a string that is all white space. */
  lemma TrimBlank(s: string)
    requires SpaceRun(s, 0) == |s|
    ensures Trim(s) == ""
  {
  }

  /** What `trim` keeps of a string that is not all white space: the part between a
      white-space prefix and a white-space suffix that begins and ends with other characters. */
  lemma TrimShape(s: string)
    requires SpaceRun(s, 0) < |s|
    ensures var a := SpaceRun(s, 0); var b := TrimEnd(s, a, |s|);
      a < b && !IsSpace(s[a]) && !IsSpace(s[b - 1])
      && (forall k :: 0 <= k < a ==> IsSpace(s[k]))
      && (forall k :: b <= k < |s| ==> IsSpace(s[k]))
      && Trim(s) == s[a..b]
  {
    SpaceRunIsRun(s, 0);
    TrimEndIsRun(s, SpaceRun(s, 0), |s|);
  }

  /** Conversely, such a part is what `trim` keeps. */
  lemma TrimKeeps(s: string, a: nat, b: nat)
    requires a < b <= |s| && !IsSpace(s[a]) && !IsSpace(s[b - 1])
    requires forall k :: 0 <= k < a ==> IsSpace(s[k])
    requires forall k :: b <= k < |s| ==> IsSpace(s[k])
    ensures Trim(s) == s[a..b]
  {
    SpaceRunExact(s, 0, a);
    TrimEndExact(s, a, |s|, b);
  }

  lemma TrimKeepsPrefixed(c: char, s: string, a: nat, b: nat)
    requires IsSpace(c) && a < b <= |s| && !IsSpace(s[a]) && !IsSpace(s[b - 1])
    requires forall k :: 0 <= k < a ==> IsSpace(s[k])
    requires forall k :: b <= k < |s| ==> IsSpace(s[k])
    ensures Trim([c] + s) == s[a..b]
  {
    var cs := [c] + s;
    TrimKeeps(cs, a + 1, b + 1);
    assert cs[a + 1..b + 1] == s[a..b];
  }

  lemma TrimKeepsAppended(s: string, c: char, a: nat, b: nat)
    requires IsSpace(c) && a < b <= |s| && !IsSpace(s[a]) && !IsSpace(s[b - 1])
    requires forall k :: 0 <= k < a ==> IsSpace(s[k])
    requires forall k :: b <= k < |s| ==> IsSpace(s[k])
    ensures Trim(s + [c]) == s[a..b]
  {
    var sc := s + [c];
    TrimKeeps(sc, a, b);
    assert sc[a..b] == s[a..b];
  }

  /** `trim` ignores one more white-space character in front. */
  lemma TrimIgnoresLeadingSpace(c: char, s: string)
    requires IsSpace(c)
    ensures Trim([c] + s) == Trim(s)
  {
    if SpaceRun(s, 0) < |s| {
      TrimShape(s);
      TrimKeepsPrefixed(c, s, SpaceRun(s, 0), TrimEnd(s, SpaceRun(s, 0), |s|));
    } else {
      SpaceRunPrefixed(c, s, 0);
      TrimBlank(s);
      TrimBlank([c] + s);
    }
  }

  /** `trim` ignores one more white-space character at the end. */
  lemma TrimIgnoresTrailingSpace(s: string, c: char)
    requires IsSpace(c)
    ensures Trim(s + [c]) == Trim(s)
  {
    if SpaceRun(s, 0) < |s| {
      TrimShape(s);
      TrimKeepsAppended(s, c, SpaceRun(s, 0), TrimEnd(s, SpaceRun(s, 0), |s|));
    } else {
      SpaceRunAppended(s, c, 0);
      TrimBlank(s);
      TrimBlank(s + [c]);
    }
  }

  lemma {:induction false} SpaceRunLower(s: string, i: nat)
    requires i <= |s|
    ensures SpaceRun(ToLower(s), i) == SpaceRun(s, i)
    decreases |s| - i
  {
    if i < |s| {
      LowerKeepsSpace(s[i]);
      SpaceRunLower(s, i + 1);
    }
  }

  lemma LowerKeepsSpaces(s: string)
    ensures forall k :: 0 <= k < |s| ==> (IsSpace(ToLower(s)[k]) <==> IsSpace(s[k]))
  {
    forall k | 0 <= k < |s|
      ensures IsSpace(ToLower(s)[k]) <==> IsSpace(s[k])
    {
      LowerKeepsSpace(s[k]);
    }
  }

  lemma LowerSlice(s: string, a: nat, b: nat)
    requires a <= b <= |s|
    ensures ToLower(s)[a..b] == ToLower(s[a..b])
  {
  }

  lemma TrimKeepsLower(s: string, a: nat, b: nat)
    requires a < b <= |s| && !IsSpace(s[a]) && !IsSpace(s[b - 1])
    requires forall k :: 0 <= k < a ==> IsSpace(s[k])
    requires forall k :: b <= k < |s| ==> IsSpace(s[k])
    ensures Trim(ToLower(s)) == ToLower(s[a..b])
  {
    LowerKeepsSpaces(s);
    TrimKeeps(ToLower(s), a, b);
    LowerSlice(s, a, b);
  }

  /** Lower-casing and trimming commute. */
  lemma TrimLower(s: string)
    ensures Trim(ToLower(s)) == ToLower(Trim(s))
  {
    if SpaceRun(s, 0) < |s| {
      TrimShape(s);
      TrimKeepsLower(s, SpaceRun(s, 0), TrimEnd(s, SpaceRun(s, 0), |s|));
    } else {
      SpaceRunLower(s, 0);
      TrimBlank(s);
      TrimBlank(ToLower(s));
    }
  }

  /** `toLowerCase` is idempotent. */
  lemma ToLowerTwice(s: string)
    ensures ToLower(ToLower(s)) == ToLower(s)
  {
    assert forall i :: 0 <= i < |s| ==> Lower(Lower(s[i])) == Lower(s[i]);
  }

  /** Number of consecutive characters other than line terminators starting at `i`:
      how far `.` can go. */
  function DotRun(s: string, i: nat): (n: nat)
    requires i <= |s|
    ensures i + n <= |s|
    decreases |s| - i
  {
    if i < |s| && !IsLineBreak(s[i]) then 1 + DotRun(s, i + 1) else 0
  }

  /** Index of the first white-space character at or after `i`, or `|s|`. */
  function NextSpace(s: string, i: nat): (k: nat)
    requires i <= |s|
    ensures i <= k <= |s|
    ensures NoSpace(s[i..k])
    ensures k < |s| ==> IsSpace(s[k])
    decreases |s| - i
  {
    if i == |s| || IsSpace(s[i]) then i else NextSpace(s, i + 1)
  }

  lemma {:induction false} NextSpaceOfWord(s: string, i: nat)
    requires i <= |s| && NoSpace(s)
    ensures NextSpace(s, i) == |s|
    decreases |s| - i
  {
    if i < |s| {
      NextSpaceOfWord(s, i + 1);
    }
  }

  /** `s.split(/\s+/)`: the pieces between maximal runs of white space. */
  function Split(s: string): (r: seq<string>)
    ensures |r| >= 1
    ensures forall k :: 0 <= k < |r| ==> NoSpace(r[k])
    decreases |s|
  {
    var i := NextSpace(s, 0);
    if i == |s| then [s]
    else
      var j := i + SpaceRun(s, i);
      [s[..i]] + Split(s[j..])
  }

  /** A string without white space splits into itself alone, and only such a string does. */
  lemma SplitWord(s: string)
    ensures |Split(s)| == 1 <==> NoSpace(s)
    ensures |Split(s)| == 1 ==> Split(s) == [s]
  {
    if NoSpace(s) {
      NextSpaceOfWord(s, 0);
    }
  }

  /** `list.filter(i => i !== x)`. */
  function Without(xs: seq<string>, x: string): (r: seq<string>)
    ensures |r| <= |xs|
    ensures forall y :: y in r <==> y in xs && y != x
  {
    if xs == [] then []
    else if xs[0] == x then Without(xs[1..], x)
    else [xs[0]] + Without(xs[1..], x)
  }

  /** `parts.join(sep)`. */
  function Join(parts: seq<string>, sep: string): string {
    if |parts| == 0 then ""
    else if |parts| == 1 then parts[0]
    else parts[0] + sep + Join(parts[1..], sep)
  }

  predicate StartsWith(s: string, prefix: string) {
    |prefix| <= |s| && s[..|prefix|] == prefix
  }

  /** `s` holds `sub` at position `i`. */
  predicate OccursAt(s: string, i: nat, sub: string) {
    i + |sub| <= |s| && forall k :: 0 <= k < |sub| ==> s[i + k] == sub[k]
  }

  /** `s.includes(sub)`. */
  predicate Contains(s: string, sub: string) {
    exists i: nat :: i + |sub| <= |s| && OccursAt(s, i, sub)
  }

  /** `s.replace(/\s+/g, '_')`: every maximal run of white space becomes one underscore. */
  function Underscored(s: string): (r: string)
    ensures NoSpace(r)
    decreases |s|
  {
    var i := NextSpace(s, 0);
    if i == |s| then s
    else
      var j := i + SpaceRun(s, i);
      SpaceChars('_');
      s[..i] + "_" + Underscored(s[j..])
  }

  function DigitChar(d: nat): char
    requires d < 10
  {
    "0123456789"[d]
  }

  function NatToString(n: nat): (r: string)
    ensures |r| >= 1
    ensures forall i :: 0 <= i < |r| ==> '0' <= r[i] <= '9'
  {
    if n < 10 then [DigitChar(n)] else NatToString(n / 10) + [DigitChar(n % 10)]
  }

  /** Template-literal conversion of an integer, as in `${n}`. */
  function IntToString(n: int): string {
    if n < 0 then "-" + NatToString(-n) else NatToString(n)
  }
}
