/**
 * The global-feed keyword list of the settings page: how the text typed by
 * the user becomes the stored list, and how the page decides that the list
 * really changed (it compares sorted copies of the old and new lists).
 */
module Keywords {
  import opened Text

  /** One comma piece as stored: trimmed, then lower-cased. */
  function CleanPiece(p: string): string {
    ToLower(Trim(p, JsSpaces))
  }

  /** A cleaned piece is lower case, has no whitespace at either end and no character `p` lacks. */
  lemma CleanPieceShape(p: string)
    ensures ToLower(CleanPiece(p)) == CleanPiece(p)
    ensures Trim(CleanPiece(p), JsSpaces) == CleanPiece(p)
    ensures ',' !in p ==> ',' !in CleanPiece(p)
  {
    var t := Trim(p, JsSpaces);
    var k := CleanPiece(p);
    ToLowerIdempotent(t);
    LowerKeepsSpaces(t, JsSpaces);
    TrimmedIsFixed(k, JsSpaces);
    if ',' in k {
      var i :| 0 <= i < |k| && k[i] == ',';
      assert t[i] in p;
    }
  }

  /** `.map(kw => kw.trim().toLowerCase()).filter(kw => kw !== '')`. */
  function CleanPieces(pieces: seq<string>): (r: seq<string>)
    ensures |r| <= |pieces| && "" !in r
  {
    NonEmpty(seq(|pieces|, i requires 0 <= i < |pieces| => CleanPiece(pieces[i])))
  }

  /** `.filter(kw => kw !== '')`. */
  function NonEmpty(ks: seq<string>): (r: seq<string>)
    ensures |r| <= |ks| && "" !in r
  {
    if ks == [] then []
    else (if ks[0] == "" then [] else [ks[0]]) + NonEmpty(ks[1..])
  }

  /** The cleaned list holds exactly the non-empty cleaned pieces. */
  lemma CleanPiecesMembers(pieces: seq<string>)
    ensures forall k :: k in CleanPieces(pieces) <==>
      k != "" && exists i :: 0 <= i < |pieces| && CleanPiece(pieces[i]) == k
  {
    var ks := seq(|pieces|, i requires 0 <= i < |pieces| => CleanPiece(pieces[i]));
    NonEmptyMembers(ks);
    forall k | k != "" && exists i :: 0 <= i < |pieces| && CleanPiece(pieces[i]) == k
      ensures k in ks
    {
      var i :| 0 <= i < |pieces| && CleanPiece(pieces[i]) == k;
      assert ks[i] == k;
    }
  }

  /** Filtering keeps exactly the non-empty entries. */
  lemma {:induction false} NonEmptyMembers(ks: seq<string>)
    ensures forall k :: k in NonEmpty(ks) <==> k != "" && k in ks
  {
    if ks != [] {
      NonEmptyMembers(ks[1..]);
      assert ks == [ks[0]] + ks[1..];
    }
  }

  /**
   * The keywords stored for the text in the keywords box: blank text gives
   * the empty list; otherwise the comma-separated pieces, cleaned, without
   * empty ones and without repeats (first occurrence kept).
   */
  function Normalize(input: string): seq<string> {
    var s := Trim(input, JsSpaces);
    if s != "" then Dedupe(CleanPieces(Split(s, ','))) else []
  }

  /** What the stored keyword list is made of. */
  lemma NormalizeSpec(input: string)
    ensures IsBlank(input, JsSpaces) ==> Normalize(input) == []
    ensures NoDuplicates(Normalize(input))
    ensures forall k :: k in Normalize(input) ==>
      k != "" && ',' !in k && ToLower(k) == k && Trim(k, JsSpaces) == k
    ensures forall k :: k in Normalize(input) <==>
      k != "" && exists i :: 0 <= i < |Pieces(input)| && CleanPiece(Pieces(input)[i]) == k
  {
    var pieces := Pieces(input);
    CleanPiecesMembers(pieces);
    forall k | k in Normalize(input)
      ensures k != "" && ',' !in k && ToLower(k) == k && Trim(k, JsSpaces) == k
    {
      var i :| 0 <= i < |pieces| && CleanPiece(pieces[i]) == k;
      CleanPieceShape(pieces[i]);
    }
    if IsBlank(Trim(input, JsSpaces), JsSpaces) {
      assert Trim(input, JsSpaces) == [];
      assert pieces == [""];
      assert CleanPiece("") == "";
    }
  }

  /** The comma pieces of the trimmed text (a single empty piece for blank text). */
  function Pieces(input: string): (r: seq<string>)
    ensures Join(r, ",") == Trim(input, JsSpaces)
  {
    JoinSplit(Trim(input, JsSpaces), ',');
    Split(Trim(input, JsSpaces), ',')
  }

  /** The stored order is the order in which each keyword first appears. */
  lemma NormalizeKeepsFirstOrder(input: string)
    requires !IsBlank(input, JsSpaces)
    ensures var all := CleanPieces(Pieces(input));
      forall i, j :: 0 <= i < j < |Normalize(input)| ==>
        FirstIndex(all, Normalize(input)[i]) < FirstIndex(all, Normalize(input)[j])
  {
    DedupeKeepsFirstOrder(CleanPieces(Pieces(input)));
  }

  /** Lexicographic order of strings, character by character. */
  predicate StrLe(a: string, b: string) {
    a == [] || (b != [] && (a[0] < b[0] || (a[0] == b[0] && StrLe(a[1..], b[1..]))))
  }

  lemma {:induction false} StrLeTotal(a: string, b: string)
    ensures StrLe(a, b) || StrLe(b, a)
  {
    if a != [] && b != [] && a[0] == b[0] {
      StrLeTotal(a[1..], b[1..]);
    }
  }

  lemma {:induction false} StrLeReflexive(a: string)
    ensures StrLe(a, a)
  {
    if a != [] {
      StrLeReflexive(a[1..]);
    }
  }

  lemma {:induction false} StrLeAntisymmetric(a: string, b: string)
    requires StrLe(a, b) && StrLe(b, a)
    ensures a == b
  {
    if a != [] {
      StrLeAntisymmetric(a[1..], b[1..]);
      assert a == [a[0]] + a[1..] && b == [b[0]] + b[1..];
    }
  }

  lemma {:induction false} StrLeTransitive(a: string, b: string, c: string)
    requires StrLe(a, b) && StrLe(b, c)
    ensures StrLe(a, c)
  {
    if a != [] && a[0] == b[0] && b[0] == c[0] {
      StrLeTransitive(a[1..], b[1..], c[1..]);
    }
  }

  predicate Sorted(s: seq<string>) {
    forall i, j :: 0 <= i < j < |s| ==> StrLe(s[i], s[j])
  }

  /** Inserts `x` into a sorted list at its place. */
  function Insert(x: string, s: seq<string>): (r: seq<string>)
    requires Sorted(s)
    ensures Sorted(r) && multiset(r) == multiset(s) + multiset{x}
  {
    if s == [] then [x]
    else if StrLe(x, s[0]) then
      assert forall j :: 0 <= j < |s| ==> StrLe(x, s[j]) by {
        forall j | 0 <= j < |s| ensures StrLe(x, s[j]) {
          if j > 0 { StrLeTransitive(x, s[0], s[j]); }
        }
      }
      [x] + s
    else
      var t := Insert(x, s[1..]);
      InsertBehindHead(x, s, t);
      [s[0]] + t
  }

  /** The head of a sorted list stays in front of the other elements and `x` when `x` sorts after it. */
  lemma InsertBehindHead(x: string, s: seq<string>, t: seq<string>)
    requires Sorted(s) && s != [] && !StrLe(x, s[0])
    requires Sorted(t) && multiset(t) == multiset(s[1..]) + multiset{x}
    ensures Sorted([s[0]] + t) && multiset([s[0]] + t) == multiset(s) + multiset{x}
  {
    StrLeTotal(x, s[0]);
    assert s == [s[0]] + s[1..];
    forall j | 0 <= j < |t| ensures StrLe(s[0], t[j]) {
      assert t[j] in multiset(t);
      if t[j] != x {
        assert t[j] in multiset(s[1..]);
        var k :| 0 <= k < |s[1..]| && s[1..][k] == t[j];
        assert s[k + 1] == t[j];
      }
    }
  }

  /** `list.slice().sort()`, as an insertion sort. */
  function SortStrings(s: seq<string>): (r: seq<string>)
    ensures Sorted(r) && multiset(r) == multiset(s)
  {
    if s == [] then []
    else
      assert s == [s[0]] + s[1..];
      Insert(s[0], SortStrings(s[1..]))
  }

  /** The head of a sorted list is below every element of it. */
  lemma SortedHeadIsLeast(s: seq<string>, y: string)
    requires Sorted(s) && y in multiset(s)
    ensures StrLe(s[0], y)
  {
    var i :| 0 <= i < |s| && s[i] == y;
    if i == 0 {
      StrLeReflexive(y);
    }
  }

  /** Two sorted lists with the same elements are the same list. */
  lemma {:induction false} SortedUnique(a: seq<string>, b: seq<string>)
    requires Sorted(a) && Sorted(b) && multiset(a) == multiset(b)
    ensures a == b
  {
    if a == [] {
      assert |b| == |multiset(b)| == 0;
    } else {
      assert |b| == |multiset(b)| == |a|;
      SortedHeadIsLeast(a, b[0]);
      SortedHeadIsLeast(b, a[0]);
      StrLeAntisymmetric(a[0], b[0]);
      SameHeadSameTail(a, b);
      SortedTail(a);
      SortedTail(b);
      SortedUnique(a[1..], b[1..]);
      assert a == [a[0]] + a[1..] && b == [b[0]] + b[1..];
    }
  }

  lemma SortedTail(s: seq<string>)
    requires Sorted(s) && s != []
    ensures Sorted(s[1..])
  {
  }

  lemma SameHeadSameTail(a: seq<string>, b: seq<string>)
    requires a != [] && b != [] && a[0] == b[0] && multiset(a) == multiset(b)
    ensures multiset(a[1..]) == multiset(b[1..])
  {
    assert a == [a[0]] + a[1..] && b == [b[0]] + b[1..];
    assert multiset(a[1..]) == multiset(a) - multiset{a[0]};
    assert multiset(b[1..]) == multiset(b) - multiset{b[0]};
  }

  /**
   * The settings page refetches the global feed when
   * `JSON.stringify(old.sort()) !== JSON.stringify(new.sort())`.
   */
  predicate KeywordsChanged(before: seq<string>, after: seq<string>) {
    SortStrings(before) != SortStrings(after)
  }

  /** The sorted comparison sees exactly a change in the multiset of keywords. */
  lemma KeywordsChangedIff(before: seq<string>, after: seq<string>)
    ensures KeywordsChanged(before, after) <==> multiset(before) != multiset(after)
  {
    if multiset(before) == multiset(after) {
      SortedUnique(SortStrings(before), SortStrings(after));
    }
  }
}
