/** The JavaScript string and array primitives the workflow steps are built from,
    restricted to ASCII: `trim`, `split` on a one-or-more character-class regex,
    `toLowerCase`, `includes`, `filter`, `slice(0, n)` and the decimal rendering of a
    number inside a template literal. */
module JsText {

  /** The two regex character classes the steps split on: `\s` and `[.!?]`. */
  datatype CharClass = Whitespace | SentenceEnd

  /** ASCII members of `\s` (also the characters `trim` removes):
      tab, line feed, vertical tab, form feed, carriage return and space. */
  predicate IsWhitespace(c: char) {
    c == ' ' || 9 <= c as int <= 13
  }

  predicate InClass(c: char, k: CharClass) {
    match k
    case Whitespace => IsWhitespace(c)
    case SentenceEnd => c == '.' || c == '!' || c == '?'
  }

  predicate NoneInClass(s: string, k: CharClass) {
    forall i :: 0 <= i < |s| ==> !InClass(s[i], k)
  }

  predicate AllInClass(s: string, k: CharClass) {
    forall i :: 0 <= i < |s| ==> InClass(s[i], k)
  }

  // ---------------------------------------------------------------------------
  // split(/\s+/) and split(/[.!?]+/)
  // ---------------------------------------------------------------------------

  /** Index of the first character of `s` in class `k`, or `|s|` when there is none. */
  function FirstInClass(s: string, k: CharClass): (i: nat)
    ensures i <= |s|
    ensures NoneInClass(s[..i], k)
    ensures i < |s| ==> InClass(s[i], k)
  {
    if s == [] then 0
    else if InClass(s[0], k) then 0
    else 1 + FirstInClass(s[1..], k)
  }

  /** The first class character is unique: any index with no class character
      before it and a class character at it (or at the end) is `FirstInClass`. */
  lemma {:induction false} FirstInClassIs(s: string, k: CharClass, i: nat)
    requires i <= |s| && NoneInClass(s[..i], k)
    requires i < |s| ==> InClass(s[i], k)
    ensures FirstInClass(s, k) == i
    decreases i
  {
    if i > 0 {
      assert !InClass(s[..i][0], k);
      assert s[1..][..i - 1] == s[..i][1..];
      FirstInClassIs(s[1..], k, i - 1);
    }
  }

  /** The first index at or after `i` whose character is not in class `k`:
      the end of the maximal run of class characters that starts at `i`. */
  function RunEnd(s: string, i: nat, k: CharClass): (j: nat)
    requires i <= |s|
    ensures i <= j <= |s|
    ensures AllInClass(s[i..j], k)
    ensures j < |s| ==> !InClass(s[j], k)
    decreases |s| - i
  {
    if i == |s| || !InClass(s[i], k) then i else RunEnd(s, i + 1, k)
  }

  /** A string cut into the pieces between separator runs, and the runs themselves. */
  datatype Segmentation = Segmentation(pieces: seq<string>, separators: seq<string>)

  /** The inverse of segmentation: pieces glued back together with the separators between them. */
  function Interleave(pieces: seq<string>, separators: seq<string>): string
    requires |pieces| == |separators| + 1
  {
    if separators == [] then pieces[0]
    else pieces[0] + separators[0] + Interleave(pieces[1..], separators[1..])
  }

  /** JavaScript's `split` on the regex `[k]+`: every maximal run of class-`k`
      characters is one separator. A leading or trailing run leaves an empty
      piece, and a string with no run (the empty string included) is one piece. */
  function Segment(s: string, k: CharClass): (g: Segmentation)
    ensures |g.pieces| == |g.separators| + 1
    ensures forall p <- g.pieces :: NoneInClass(p, k)
    ensures forall sep <- g.separators :: sep != [] && AllInClass(sep, k)
    ensures Interleave(g.pieces, g.separators) == s
    ensures forall m :: 0 < m < |g.pieces| - 1 ==> g.pieces[m] != []
    decreases |s|
  {
    var i := FirstInClass(s, k);
    if i == |s| then
      assert s[..i] == s;
      Segmentation([s], [])
    else
      var j := RunEnd(s, i, k);
      var rest := Segment(s[j..], k);
      var g := Segmentation([s[..i]] + rest.pieces, [s[i..j]] + rest.separators);
      assert g.pieces[1..] == rest.pieces && g.separators[1..] == rest.separators;
      assert s == s[..i] + s[i..j] + s[j..];
      InterleaveStartsWithSeparator(rest.pieces, rest.separators);
      assert rest.separators != [] ==> rest.separators[0] in rest.separators;
      assert |rest.pieces| > 1 ==> rest.pieces[0] != [];
      g
  }

  /** Glued pieces that start with an empty piece start with the first separator. */
  lemma InterleaveStartsWithSeparator(pieces: seq<string>, separators: seq<string>)
    requires |pieces| == |separators| + 1
    ensures separators != [] && separators[0] != [] && pieces[0] == [] ==>
      Interleave(pieces, separators) != [] && Interleave(pieces, separators)[0] == separators[0][0]
  {
    if separators != [] && pieces[0] == [] {
      assert Interleave(pieces, separators) == separators[0] + Interleave(pieces[1..], separators[1..]);
    }
  }

  /** A string holds no separator run exactly when it is one piece, and the first
      piece is empty exactly when the string is empty or starts with a separator. */
  lemma SegmentFirstPiece(s: string, k: CharClass)
    ensures Segment(s, k).separators == [] <==> NoneInClass(s, k)
    ensures Segment(s, k).pieces[0] == [] <==> s == [] || InClass(s[0], k)
  {
    var i := FirstInClass(s, k);
    if i < |s| {
      var j := RunEnd(s, i, k);
      assert !NoneInClass(s, k) by { assert InClass(s[i], k); }
    } else {
      assert s[..i] == s;
    }
  }

  /** One step of `Segment`: the first piece is everything before the first
      separator run, and the rest is the segmentation of what follows the run. */
  lemma SegmentUnfold(s: string, k: CharClass)
    requires FirstInClass(s, k) < |s|
    ensures var i := FirstInClass(s, k); var j := RunEnd(s, i, k);
      && i < j
      && Segment(s, k).pieces == [s[..i]] + Segment(s[j..], k).pieces
  {
  }

  /** Only the first and the last piece can be empty; this is the last clause of
      `Segment`'s contract, named for the lemmas that cite it. */
  lemma SegmentInnerPieces(s: string, k: CharClass)
    ensures var ps := Segment(s, k).pieces;
      forall m :: 0 < m < |ps| - 1 ==> ps[m] != []
  {
  }

  /** The last piece is empty exactly when the string is empty or ends with a separator. */
  lemma {:induction false} SegmentLastPiece(s: string, k: CharClass)
    ensures var ps := Segment(s, k).pieces;
      ps[|ps| - 1] == [] <==> s == [] || InClass(s[|s| - 1], k)
    decreases |s|
  {
    var i := FirstInClass(s, k);
    if i < |s| {
      var j := RunEnd(s, i, k);
      SegmentUnfold(s, k);
      SegmentLastPiece(s[j..], k);
      if s[j..] == [] {
        assert s[|s| - 1] == s[i..j][j - i - 1];
      } else {
        assert s[|s| - 1] == s[j..][|s[j..]| - 1];
      }
    } else {
      assert s[..i] == s;
    }
  }

  /** A string that starts and ends outside class `k` splits into non-empty pieces only. */
  lemma SplitInnerString(s: string, k: CharClass)
    requires s != [] && !InClass(s[0], k) && !InClass(s[|s| - 1], k)
    ensures forall i :: 0 <= i < |Segment(s, k).pieces| ==> Segment(s, k).pieces[i] != []
  {
    SegmentFirstPiece(s, k);
    SegmentInnerPieces(s, k);
    SegmentLastPiece(s, k);
  }

  /** `s.split(/\s+/)` (k = Whitespace) or `s.split(/[.!?]+/)` (k = SentenceEnd). */
  function Split(s: string, k: CharClass): seq<string> {
    Segment(s, k).pieces
  }

  /** Splitting the empty string yields one empty piece, so a split is never empty. */
  lemma SplitNonEmpty(s: string, k: CharClass)
    ensures |Split(s, k)| >= 1
    ensures s == [] ==> Split(s, k) == [""]
  {
    if s == [] {
      var g := Segment(s, k);
      assert g.separators == [];
    }
  }

  // ---------------------------------------------------------------------------
  // trim()
  // ---------------------------------------------------------------------------

  /** Number of whitespace characters `s` starts with. */
  function LeadingWhitespace(s: string): (n: nat)
    ensures n <= |s| && AllInClass(s[..n], Whitespace)
    ensures n < |s| ==> !IsWhitespace(s[n])
  {
    if s != [] && IsWhitespace(s[0]) then
      var n := 1 + LeadingWhitespace(s[1..]);
      assert s[..n] == [s[0]] + s[1..][..n - 1];
      n
    else 0
  }

  /** The index where the whitespace that `s[lo..hi]` ends with begins. */
  function TrailingStart(s: string, lo: nat, hi: nat): (b: nat)
    requires lo <= hi <= |s|
    ensures lo <= b <= hi && AllInClass(s[b..hi], Whitespace)
    ensures b > lo ==> !IsWhitespace(s[b - 1])
    decreases hi
  {
    if hi > lo && IsWhitespace(s[hi - 1]) then
      var b := TrailingStart(s, lo, hi - 1);
      assert s[b..hi] == s[b..hi - 1] + [s[hi - 1]];
      b
    else hi
  }

  /** `s.trim()`: the part of `s` between its leading and trailing whitespace. */
  function Trim(s: string): (r: string)
    ensures var a := LeadingWhitespace(s);
      && a + |r| <= |s|
      && r == s[a..a + |r|]
      && AllInClass(s[..a], Whitespace)
      && AllInClass(s[a + |r|..], Whitespace)
    ensures r == [] || (!IsWhitespace(r[0]) && !IsWhitespace(r[|r| - 1]))
    ensures r == [] <==> AllInClass(s, Whitespace)
  {
    var a := LeadingWhitespace(s);
    var b := TrailingStart(s, a, |s|);
    TrimCut(s, a, b);
    s[a..b]
  }

  /** The facts `Trim` states, for any cut `s[a..b]` with whitespace (and only
      whitespace) outside it and no whitespace at either end of it. */
  lemma TrimCut(s: string, a: nat, b: nat)
    requires a <= b <= |s|
    requires AllInClass(s[..a], Whitespace) && (a < |s| ==> !IsWhitespace(s[a]))
    requires AllInClass(s[b..|s|], Whitespace) && (b > a ==> !IsWhitespace(s[b - 1]))
    ensures a + |s[a..b]| <= |s| && s[a..b] == s[a..a + |s[a..b]|]
    ensures AllInClass(s[a + |s[a..b]|..], Whitespace)
    ensures s[a..b] == [] || (!IsWhitespace(s[a]) && !IsWhitespace(s[b - 1]))
    ensures s[a..b] == [] <==> AllInClass(s, Whitespace)
  {
    assert a + |s[a..b]| == b;
    assert s[b..] == s[b..|s|];
    if a < |s| {
      assert b > a;
      assert !InClass(s[a], Whitespace);
    } else {
      assert s == s[..a];
    }
  }

  // ---------------------------------------------------------------------------
  // toLowerCase()
  // ---------------------------------------------------------------------------

  predicate IsUpper(c: char) {
    'A' <= c <= 'Z'
  }

  function LowerChar(c: char): (d: char)
    ensures !IsUpper(d)
    ensures IsUpper(c) ==> d as int == c as int + 32
    ensures !IsUpper(c) ==> d == c
  {
    if IsUpper(c) then (c as int + 32) as char else c
  }

  predicate IsLowerCase(s: string) {
    forall i :: 0 <= i < |s| ==> !IsUpper(s[i])
  }

  /** `s.toLowerCase()` over ASCII: each upper-case letter replaced by its lower-case one. */
  function ToLower(s: string): (r: string)
    ensures |r| == |s| && IsLowerCase(r)
    ensures forall i :: 0 <= i < |s| ==> r[i] == LowerChar(s[i])
  {
    seq(|s|, i requires 0 <= i < |s| => LowerChar(s[i]))
  }

  /** Lower-casing commutes with taking a prefix and with dropping one. */
  lemma ToLowerTake(s: string, n: nat)
    requires n <= |s|
    ensures ToLower(s)[..n] == ToLower(s[..n])
  {
  }

  lemma ToLowerDrop(s: string, n: nat)
    requires n <= |s|
    ensures ToLower(s)[n..] == ToLower(s[n..])
  {
  }

  /** `ps.map(p => p.toLowerCase())`. */
  function LowerAll(ps: seq<string>): (r: seq<string>)
    ensures |r| == |ps|
    ensures forall m :: 0 <= m < |ps| ==> r[m] == ToLower(ps[m])
  {
    seq(|ps|, m requires 0 <= m < |ps| => ToLower(ps[m]))
  }

  lemma LowerAllCons(p: string, ps: seq<string>)
    ensures LowerAll([p] + ps) == [ToLower(p)] + LowerAll(ps)
  {
    assert forall m :: 0 < m <= |ps| ==> ([p] + ps)[m] == ps[m - 1];
  }

  /** Lower-casing changes no character's class, so it commutes with splitting:
      the pieces of the lower-cased string are the lower-cased pieces. */
  lemma {:induction false} SegmentToLower(s: string, k: CharClass)
    ensures Split(ToLower(s), k) == LowerAll(Split(s, k))
    decreases |s|
  {
    var t := ToLower(s);
    var i := FirstInClass(s, k);
    FirstInClassToLower(s, k);
    if i < |s| {
      var j := RunEnd(s, i, k);
      RunEndToLower(s, i, k);
      calc {
        Split(t, k);
        { SegmentUnfold(t, k); }
        [t[..i]] + Split(t[j..], k);
        { ToLowerTake(s, i); ToLowerDrop(s, j); }
        [ToLower(s[..i])] + Split(ToLower(s[j..]), k);
        { SegmentToLower(s[j..], k); }
        [ToLower(s[..i])] + LowerAll(Split(s[j..], k));
        { LowerAllCons(s[..i], Split(s[j..], k)); }
        LowerAll([s[..i]] + Split(s[j..], k));
        { SegmentUnfold(s, k); }
        LowerAll(Split(s, k));
      }
    } else {
      assert t[..i] == t && s[..i] == s;
      assert LowerAll([s]) == [ToLower(s)];
    }
  }

  lemma {:induction false} FirstInClassToLower(s: string, k: CharClass)
    ensures FirstInClass(ToLower(s), k) == FirstInClass(s, k)
    decreases |s|
  {
    if s != [] {
      assert ToLower(s)[1..] == ToLower(s[1..]);
      FirstInClassToLower(s[1..], k);
    }
  }

  lemma {:induction false} RunEndToLower(s: string, i: nat, k: CharClass)
    requires i <= |s|
    ensures RunEnd(ToLower(s), i, k) == RunEnd(s, i, k)
    decreases |s| - i
  {
    if i < |s| {
      RunEndToLower(s, i + 1, k);
    }
  }

  // ---------------------------------------------------------------------------
  // includes()
  // ---------------------------------------------------------------------------

  /** `s.includes(w)`: `w` is a prefix of `s` or of one of its suffixes. */
  predicate Includes(s: string, w: string)
    decreases |s|
  {
    w <= s || (s != [] && Includes(s[1..], w))
  }

  /** `w` occurs in `s` starting at index `i`. */
  predicate OccursAt(s: string, w: string, i: int) {
    0 <= i && i + |w| <= |s| && s[i..i + |w|] == w
  }

  /** An occurrence past the first index is an occurrence in the tail. */
  lemma OccursInTail(s: string, w: string, i: int)
    requires i > 0 && OccursAt(s, w, i)
    ensures OccursAt(s[1..], w, i - 1)
  {
    forall t | 0 <= t < |w|
      ensures s[1..][i - 1..i - 1 + |w|][t] == w[t]
    {
      assert s[i..i + |w|][t] == w[t];
    }
  }

  /** `includes` holds exactly when `w` occurs at some position of `s`. */
  lemma {:induction false} IncludesIffOccurs(s: string, w: string)
    ensures Includes(s, w) <==> exists i :: OccursAt(s, w, i)
    decreases |s|
  {
    if w <= s {
      assert OccursAt(s, w, 0);
    } else if s == [] {
      assert forall i :: !OccursAt(s, w, i);
    } else {
      IncludesIffOccurs(s[1..], w);
      if Includes(s[1..], w) {
        var i :| OccursAt(s[1..], w, i);
        assert s[i + 1..i + 1 + |w|] == s[1..][i..i + |w|];
        assert OccursAt(s, w, i + 1);
      }
      if exists i :: OccursAt(s, w, i) {
        var i :| OccursAt(s, w, i);
        if i > 0 {
          OccursInTail(s, w, i);
        }
      }
    }
  }

  // ---------------------------------------------------------------------------
  // Array filter and slice(0, n)
  // ---------------------------------------------------------------------------

  /** `a` can be obtained from `b` by deleting elements: an order-preserving selection. */
  predicate IsSubsequence<T(==)>(a: seq<T>, b: seq<T>)
    decreases |b|
  {
    a == [] || (b != [] && ((a[0] == b[0] && IsSubsequence(a[1..], b[1..])) || IsSubsequence(a, b[1..])))
  }

  /** Every element of a subsequence of `b` is an element of `b`. */
  lemma {:induction false} SubsequenceMember<T>(a: seq<T>, b: seq<T>, x: T)
    requires IsSubsequence(a, b) && x in a
    ensures x in b
    decreases |b|
  {
    if a[0] == b[0] && IsSubsequence(a[1..], b[1..]) {
      if x != a[0] {
        assert x in a[1..];
        SubsequenceMember(a[1..], b[1..], x);
      }
    } else {
      SubsequenceMember(a, b[1..], x);
    }
  }

  /** A prefix of a subsequence of `b` is again a subsequence of `b`. */
  lemma {:induction false} PrefixOfSubsequence<T>(a: seq<T>, b: seq<T>, n: nat)
    requires IsSubsequence(a, b) && n <= |a|
    ensures IsSubsequence(a[..n], b)
    decreases |b|
  {
    if n > 0 {
      if a[0] == b[0] && IsSubsequence(a[1..], b[1..]) {
        PrefixOfSubsequence(a[1..], b[1..], n - 1);
        assert a[..n][1..] == a[1..][..n - 1];
      } else {
        PrefixOfSubsequence(a, b[1..], n);
      }
    }
  }

  /** `s.filter(p)`: the elements of `s` satisfying `p`, in order, each as many
      times as it occurs in `s`; none is skipped. */
  function Filter<T(==,!new)>(s: seq<T>, p: T -> bool): (r: seq<T>)
    ensures |r| <= |s|
    ensures forall x <- r :: x in s && p(x)
    ensures forall x <- s :: p(x) ==> x in r
    ensures forall x :: multiset(r)[x] == if p(x) then multiset(s)[x] else 0
    ensures IsSubsequence(r, s)
  {
    if s == [] then []
    else
      var rest := Filter(s[1..], p);
      assert s == [s[0]] + s[1..];
      assert forall x <- s :: x == s[0] || x in s[1..];
      if p(s[0]) then
        assert ([s[0]] + rest)[1..] == rest;
        [s[0]] + rest
      else rest
  }

  /** Filtering drops nothing exactly when every element satisfies the predicate. */
  lemma {:induction false} FilterKeepsAll<T(!new)>(s: seq<T>, p: T -> bool)
    ensures |Filter(s, p)| == |s| <==> forall x <- s :: p(x)
  {
    if s != [] {
      FilterKeepsAll(s[1..], p);
      assert forall x <- s :: x == s[0] || x in s[1..];
    }
  }

  /** The positions of `s` whose element satisfies `p`. */
  function Positions<T>(s: seq<T>, p: T -> bool): set<int> {
    set i | 0 <= i < |s| && p(s[i])
  }

  /** Appending one element adds its position exactly when it satisfies `p`. */
  lemma PositionsSnoc<T>(s: seq<T>, x: T, p: T -> bool)
    ensures |Positions(s + [x], p)| == |Positions(s, p)| + (if p(x) then 1 else 0)
  {
    var before := Positions(s, p);
    var all := Positions(s + [x], p);
    assert (s + [x])[|s|] == x;
    assert forall i :: 0 <= i < |s| ==> (s + [x])[i] == s[i];
    if p(x) {
      assert all == before + {|s|};
      assert |s| !in before;
    } else {
      assert all == before;
    }
  }

  /** The length of a filter is the number of positions whose element satisfies the predicate. */
  lemma {:induction false} FilterCountsPositions<T(!new)>(s: seq<T>, p: T -> bool)
    ensures |Filter(s, p)| == |Positions(s, p)|
    decreases |s|
  {
    if s == [] {
      assert Positions(s, p) == {};
    } else {
      var init := s[..|s| - 1];
      var last := s[|s| - 1];
      assert s == init + [last];
      FilterAppend(init, [last], p);
      FilterCountsPositions(init, p);
      assert |Filter([last], p)| == if p(last) then 1 else 0 by {
        assert [last][1..] == [];
      }
      PositionsSnoc(init, last, p);
    }
  }

  /** Filtering distributes over concatenation. */
  lemma {:induction false} FilterAppend<T(!new)>(a: seq<T>, b: seq<T>, p: T -> bool)
    ensures Filter(a + b, p) == Filter(a, p) + Filter(b, p)
    decreases |a|
  {
    if a == [] {
      assert a + b == b;
    } else {
      var ab := a + b;
      assert ab[0] == a[0] && ab[1..] == a[1..] + b;
      FilterAppend(a[1..], b, p);
      if p(a[0]) {
        ConsAppend(a[0], Filter(a[1..], p), Filter(b, p));
      }
    }
  }

  lemma ConsAppend<T>(x: T, r: seq<T>, q: seq<T>)
    ensures [x] + (r + q) == ([x] + r) + q
  { }

  /** `s.slice(0, n)`. */
  function Take<T>(s: seq<T>, n: nat): (r: seq<T>)
    ensures |r| == if |s| <= n then |s| else n
    ensures r <= s
  {
    if |s| <= n then s else s[..n]
  }

  // ---------------------------------------------------------------------------
  // `${n}` for a non-negative integer
  // ---------------------------------------------------------------------------

  predicate IsDigit(c: char) {
    48 <= c as int <= 57
  }

  function DigitChar(d: nat): (c: char)
    requires d < 10
    ensures IsDigit(c) && c as int - 48 == d
  {
    (48 + d) as char
  }

  /** The decimal value of a string of digits. */
  function DecimalValue(r: string): nat
    requires forall i :: 0 <= i < |r| ==> IsDigit(r[i])
  {
    if r == [] then 0
    else
      assert IsDigit(r[|r| - 1]);
      DecimalValue(r[..|r| - 1]) * 10 + (r[|r| - 1] as int - 48)
  }

  /** The decimal rendering JavaScript gives a non-negative integer: digits only,
      no leading zero. */
  function NatToString(n: nat): (r: string)
    ensures r != [] && forall i :: 0 <= i < |r| ==> IsDigit(r[i])
    ensures r[0] == '0' ==> r == "0"
  {
    if n < 10 then [DigitChar(n)] else NatToString(n / 10) + [DigitChar(n % 10)]
  }

  /** Rendering a number and reading its digits back gives the number. */
  lemma {:induction false} NatToStringRoundTrip(n: nat)
    ensures DecimalValue(NatToString(n)) == n
  {
    var r := NatToString(n);
    if n >= 10 {
      NatToStringRoundTrip(n / 10);
      assert r[..|r| - 1] == NatToString(n / 10);
    }
  }
}
