/**
 * String primitives shared by the browser code and the Flask backend:
 * the two whitespace sets (JavaScript's `trim` and Python's `strip`),
 * ASCII case mapping, substring search, splitting and joining on a
 * separator, first-occurrence de-duplication and decimal integers.
 */
module Text {

  /** Which language's notion of whitespace a trim uses. */
  datatype Spaces = JsSpaces | PySpaces

  /**
   * JavaScript's WhiteSpace and LineTerminator code points (what
   * `String.prototype.trim` removes), or Python's `str.isspace` set.
   */
  predicate IsSpace(c: char, w: Spaces) {
    var n := c as int;
    || (9 <= n <= 13) || n == 0x20 || n == 0xA0 || n == 0x1680
    || (0x2000 <= n <= 0x200A) || n == 0x2028 || n == 0x2029
    || n == 0x202F || n == 0x205F || n == 0x3000
    || (w == JsSpaces && n == 0xFEFF)
    || (w == PySpaces && ((0x1C <= n <= 0x1F) || n == 0x85))
  }

  /** Every character of `s` is whitespace (the empty string included). */
  predicate IsBlank(s: string, w: Spaces) {
    forall i :: 0 <= i < |s| ==> IsSpace(s[i], w)
  }

  /** Drops leading whitespace; what remains is a suffix of `s`. */
  function TrimLeft(s: string, w: Spaces): (r: string)
    ensures |r| <= |s| && r == s[|s| - |r|..]
    ensures forall i :: 0 <= i < |s| - |r| ==> IsSpace(s[i], w)
    ensures r == [] || !IsSpace(r[0], w)
  {
    if |s| > 0 && IsSpace(s[0], w) then TrimLeft(s[1..], w) else s
  }

  /** Drops trailing whitespace; what remains is a prefix of `s`. */
  function TrimRight(s: string, w: Spaces): (r: string)
    ensures |r| <= |s| && r == s[..|r|]
    ensures forall i :: |r| <= i < |s| ==> IsSpace(s[i], w)
    ensures r == [] || !IsSpace(r[|r| - 1], w)
  {
    if |s| > 0 && IsSpace(s[|s| - 1], w) then TrimRight(s[..|s| - 1], w) else s
  }

  /** `s.trim()` in JavaScript, `s.strip()` in Python. */
  function Trim(s: string, w: Spaces): (r: string)
    ensures |r| <= |s| && forall i :: 0 <= i < |r| ==> r[i] in s
    ensures r == [] <==> IsBlank(s, w)
    ensures r == [] || (!IsSpace(r[0], w) && !IsSpace(r[|r| - 1], w))
  {
    var l := TrimLeft(s, w);
    var r := TrimRight(l, w);
    assert l != [] ==> |r| > 0 by {
      if l != [] {
        assert !IsSpace(l[0], w);
      }
    }
    assert IsBlank(s, w) ==> l == [];
    r
  }

  /** A string with no whitespace at either end is its own trim. */
  lemma TrimmedIsFixed(s: string, w: Spaces)
    requires s == [] || (!IsSpace(s[0], w) && !IsSpace(s[|s| - 1], w))
    ensures Trim(s, w) == s
  {
    assert TrimLeft(s, w) == s;
    assert TrimRight(s, w) == s;
  }

  /** Trimming twice is trimming once. */
  lemma TrimIdempotent(s: string, w: Spaces)
    ensures Trim(Trim(s, w), w) == Trim(s, w)
  {
    var t := Trim(s, w);
    assert TrimLeft(t, w) == t;
    assert TrimRight(t, w) == t;
  }

  /** ASCII upper-case letter to lower case; every other character unchanged. */
  function LowerChar(c: char): (d: char)
    ensures 'A' <= c <= 'Z' ==> 'a' <= d <= 'z' && d as int == c as int + 32
    ensures !('A' <= c <= 'Z') ==> d == c
  {
    if 'A' <= c <= 'Z' then (c as int + 32) as char else c
  }

  /** ASCII lower-case letter to upper case; every other character unchanged. */
  function UpperChar(c: char): (d: char)
    ensures 'a' <= c <= 'z' ==> 'A' <= d <= 'Z' && d as int == c as int - 32
    ensures !('a' <= c <= 'z') ==> d == c
  {
    if 'a' <= c <= 'z' then (c as int - 32) as char else c
  }

  /** `toLowerCase()` / `lower()`, restricted to the ASCII letters. */
  function ToLower(s: string): (r: string)
    ensures |r| == |s| && forall i :: 0 <= i < |s| ==> r[i] == LowerChar(s[i])
  {
    if s == [] then [] else [LowerChar(s[0])] + ToLower(s[1..])
  }

  /** `toUpperCase()` / `upper()`, restricted to the ASCII letters. */
  function ToUpper(s: string): (r: string)
    ensures |r| == |s| && forall i :: 0 <= i < |s| ==> r[i] == UpperChar(s[i])
  {
    if s == [] then [] else [UpperChar(s[0])] + ToUpper(s[1..])
  }

  /** Lower-casing changes letters only, never whitespace. */
  lemma LowerKeepsSpaces(s: string, w: Spaces)
    ensures forall i :: 0 <= i < |s| ==> (IsSpace(ToLower(s)[i], w) <==> IsSpace(s[i], w))
  {
  }

  /** Lower-casing twice is lower-casing once. */
  lemma ToLowerIdempotent(s: string)
    ensures ToLower(ToLower(s)) == ToLower(s)
  {
  }

  /** JavaScript's `a || b` on strings: the first one unless it is empty. */
  function Or(a: string, b: string): (r: string)
    ensures r == a || r == b
    ensures b != "" ==> r != ""
    ensures a != "" <==> r == a && r != ""
  {
    if a != "" then a else b
  }

  /** Case-insensitive equality as the source writes it: both sides lower-cased. */
  predicate EqualsIgnoreCase(a: string, b: string) {
    ToLower(a) == ToLower(b)
  }

  /** `t` occurs in `s` starting at position `i`. */
  predicate OccursAt(s: string, t: string, i: int) {
    0 <= i && i + |t| <= |s| && s[i..i + |t|] == t
  }

  /**
   * `s.indexOf(t)`: the first position at which `t` occurs in `s`, or -1
   * when it occurs nowhere.
   */
  function IndexOf(s: string, t: string): (r: int)
    ensures r == -1 || OccursAt(s, t, r)
    ensures forall i :: 0 <= i && (r == -1 || i < r) ==> !OccursAt(s, t, i)
  {
    if |t| > |s| then -1
    else if s[..|t|] == t then 0
    else
      var k := IndexOf(s[1..], t);
      assert forall i :: 1 <= i ==> (OccursAt(s, t, i) <==> OccursAt(s[1..], t, i - 1)) by {
        forall i | 1 <= i ensures OccursAt(s, t, i) <==> OccursAt(s[1..], t, i - 1) {
          OccursShift(s, t, i);
        }
      }
      if k < 0 then -1 else k + 1
  }

  /** An occurrence past the first character is an occurrence in the rest of the string. */
  lemma OccursShift(s: string, t: string, i: int)
    requires 1 <= i && |s| >= 1
    ensures OccursAt(s, t, i) <==> OccursAt(s[1..], t, i - 1)
  {
    if i + |t| <= |s| {
      var a, b := s[i..i + |t|], s[1..][i - 1..i - 1 + |t|];
      assert |a| == |b| && forall j :: 0 <= j < |a| ==> a[j] == b[j];
      assert a == b;
    }
  }

  /** `s.includes(t)` / Python's `t in s`. */
  predicate Contains(s: string, t: string) {
    IndexOf(s, t) >= 0
  }

  /** An occurrence at any position shows that `s` contains `t`. */
  lemma OccursContains(s: string, t: string, i: int)
    requires OccursAt(s, t, i)
    ensures Contains(s, t)
  {
  }

  /** Contains is exactly "occurs somewhere". */
  lemma ContainsIff(s: string, t: string)
    ensures Contains(s, t) <==> exists i :: OccursAt(s, t, i)
  {
    if Contains(s, t) {
      assert OccursAt(s, t, IndexOf(s, t));
    }
    forall i | OccursAt(s, t, i)
      ensures Contains(s, t)
    {
      OccursContains(s, t, i);
    }
  }

  /** The empty string occurs in every string. */
  lemma ContainsEmpty(s: string)
    ensures Contains(s, "")
  {
    assert OccursAt(s, "", 0);
  }

  /** `s.split(sep)` for a one-character separator: never empty, no piece holds `sep`. */
  function Split(s: string, sep: char): (r: seq<string>)
    ensures |r| >= 1
    ensures forall i :: 0 <= i < |r| ==> sep !in r[i]
  {
    if s == [] then [""]
    else
      var rest := Split(s[1..], sep);
      if s[0] == sep then [""] + rest else [[s[0]] + rest[0]] + rest[1..]
  }

  /** `parts.join(sep)`. */
  function Join(parts: seq<string>, sep: string): (r: string)
  {
    if parts == [] then ""
    else if |parts| == 1 then parts[0]
    else parts[0] + sep + Join(parts[1..], sep)
  }

  /** Joining the pieces of a split with the separator gives back the original string. */
  lemma {:induction false} JoinSplit(s: string, sep: char)
    ensures Join(Split(s, sep), [sep]) == s
  {
    if s != [] {
      var rest := Split(s[1..], sep);
      JoinSplit(s[1..], sep);
      if s[0] == sep {
        assert Split(s, sep) == [""] + rest;
        assert ([""] + rest)[1..] == rest;
      } else {
        var parts := [[s[0]] + rest[0]] + rest[1..];
        assert Split(s, sep) == parts;
        if |rest| == 1 {
          assert Join(parts, [sep]) == [s[0]] + rest[0];
        } else {
          assert parts[1..] == rest[1..];
          assert Join(rest, [sep]) == rest[0] + [sep] + Join(rest[1..], [sep]);
        }
      }
    }
  }

  /** Splitting a join of separator-free pieces gives back the pieces. */
  lemma {:induction false} SplitJoin(parts: seq<string>, sep: char)
    requires |parts| >= 1
    requires forall i :: 0 <= i < |parts| ==> sep !in parts[i]
    ensures Split(Join(parts, [sep]), sep) == parts
  {
    if |parts| == 1 {
      SplitPiece(parts[0], sep);
    } else {
      SplitJoin(parts[1..], sep);
      SplitCons(parts[0], Join(parts[1..], [sep]), sep);
      assert Join(parts, [sep]) == parts[0] + [sep] + Join(parts[1..], [sep]);
      assert [parts[0]] + parts[1..] == parts;
    }
  }

  /** A string without the separator splits into itself alone. */
  lemma {:induction false} SplitPiece(p: string, sep: char)
    requires sep !in p
    ensures Split(p, sep) == [p]
  {
    if p != [] {
      SplitPiece(p[1..], sep);
      assert [p[0]] + p[1..] == p;
    }
  }

  /** Splitting `p + sep + q` where `p` has no separator. */
  lemma {:induction false} SplitCons(p: string, q: string, sep: char)
    requires sep !in p
    ensures Split(p + [sep] + q, sep) == [p] + Split(q, sep)
  {
    if p == [] {
      assert [sep] + q == p + [sep] + q;
      assert ([sep] + q)[1..] == q;
    } else {
      SplitCons(p[1..], q, sep);
      var s := p + [sep] + q;
      assert s[1..] == p[1..] + [sep] + q;
      var rest := Split(s[1..], sep);
      assert rest == [p[1..]] + Split(q, sep);
      assert [p[0]] + p[1..] == p;
    }
  }

  /** No value appears twice. */
  predicate NoDuplicates(s: seq<string>) {
    forall i, j :: 0 <= i < j < |s| ==> s[i] != s[j]
  }

  /** Position of the first occurrence of `x` in `s`. */
  function FirstIndex(s: seq<string>, x: string): (k: nat)
    requires x in s
    ensures k < |s| && s[k] == x && x !in s[..k]
  {
    if s[0] == x then 0 else 1 + FirstIndex(s[1..], x)
  }

  /**
   * `s.filter((v, i, self) => self.indexOf(v) === i)`: an element is kept
   * exactly when no earlier element equals it.
   */
  function Dedupe(s: seq<string>): (r: seq<string>)
    ensures forall x :: x in r <==> x in s
    ensures NoDuplicates(r)
    ensures |r| <= |s|
  {
    if s == [] then []
    else
      var init := s[..|s| - 1];
      var d := Dedupe(init);
      assert forall x :: x in s <==> x in init || x == s[|s| - 1];
      if s[|s| - 1] in init then d else d + [s[|s| - 1]]
  }

  /** Adding a later element does not move the first occurrence of an earlier one. */
  lemma {:induction false} FirstIndexExtend(s: seq<string>, y: string, x: string)
    requires x in s
    ensures FirstIndex(s + [y], x) == FirstIndex(s, x)
  {
    if s[0] != x {
      assert (s + [y])[1..] == s[1..] + [y];
      FirstIndexExtend(s[1..], y, x);
    }
  }

  /** De-duplication keeps the values in the order of their first occurrence. */
  lemma {:induction false} DedupeKeepsFirstOrder(s: seq<string>)
    ensures forall i, j :: 0 <= i < j < |Dedupe(s)| ==>
      FirstIndex(s, Dedupe(s)[i]) < FirstIndex(s, Dedupe(s)[j])
  {
    if s != [] {
      var init := s[..|s| - 1];
      var last := s[|s| - 1];
      assert s == init + [last];
      DedupeKeepsFirstOrder(init);
      var d := Dedupe(init);
      forall x | x in d ensures FirstIndex(s, x) == FirstIndex(init, x) < |s| - 1 {
        FirstIndexExtend(init, last, x);
      }
      if last !in init {
        assert FirstIndex(s, last) == |s| - 1;
      }
    }
  }

  /** Decimal digit character for 0..9. */
  function DigitChar(d: nat): (c: char)
    requires d < 10
    ensures '0' <= c <= '9' && c as int - '0' as int == d
  {
    ('0' as int + d) as char
  }

  /** Python's and JavaScript's decimal rendering of a non-negative integer. */
  function NatToString(n: nat): (r: string)
    ensures |r| >= 1 && forall i :: 0 <= i < |r| ==> '0' <= r[i] <= '9'
    ensures r[0] == '0' ==> n == 0
  {
    (if n < 10 then "" else NatToString(n / 10)) + [DigitChar(n % 10)]
  }

  /** Decimal rendering of any integer (a leading '-' for negatives). */
  function IntToString(n: int): (r: string)
    ensures |r| >= 1
  {
    if n < 0 then "-" + NatToString(-n) else NatToString(n)
  }

  /** The value of a string of decimal digits. */
  function DigitsValue(s: string): (v: nat)
    requires forall i :: 0 <= i < |s| ==> '0' <= s[i] <= '9'
  {
    if s == [] then 0 else DigitsValue(s[..|s| - 1]) * 10 + (s[|s| - 1] as int - '0' as int)
  }

  /** Reading back a rendered number gives the number. */
  lemma {:induction false} DigitsValueOfNatToString(n: nat)
    ensures DigitsValue(NatToString(n)) == n
  {
    var p := if n < 10 then "" else NatToString(n / 10);
    var r := NatToString(n);
    assert r == p + [DigitChar(n % 10)];
    assert r[..|r| - 1] == p;
    assert DigitsValue(r) == DigitsValue(p) * 10 + n % 10;
    if n >= 10 {
      DigitsValueOfNatToString(n / 10);
    }
  }
}
