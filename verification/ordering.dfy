/** Python's order on `str` and `bytes`, and `sorted` on duplicate-free collections. */
module Ordering {

  /** A string of code points or a string of bytes. */
  type Word = seq<int>

  /** Strict lexicographic order. */
  predicate Less(a: Word, b: Word) {
    if b == [] then false
    else if a == [] then true
    else a[0] < b[0] || (a[0] == b[0] && Less(a[1..], b[1..]))
  }

  predicate Ascending(s: seq<Word>) {
    forall i, j :: 0 <= i < j < |s| ==> Less(s[i], s[j])
  }

  lemma {:induction false} LessTotal(a: Word, b: Word)
    ensures a == b || Less(a, b) || Less(b, a)
    ensures !(Less(a, b) && Less(b, a))
    ensures !Less(a, a)
  {
    if a != [] {
      LessTotal(a[1..], a[1..]);
      if b != [] {
        LessTotal(a[1..], b[1..]);
        if a[0] == b[0] && a[1..] == b[1..] {
          assert a == [a[0]] + a[1..] == b;
        }
      }
    }
  }

  lemma {:induction false} LessTransitive(a: Word, b: Word, c: Word)
    requires Less(a, b) && Less(b, c)
    ensures Less(a, c)
  {
    if a != [] && a[0] == b[0] == c[0] {
      LessTransitive(a[1..], b[1..], c[1..]);
    }
  }

  lemma LessAll(x: Word, s: seq<Word>)
    requires Ascending(s) && s != [] && Less(x, s[0])
    ensures forall i :: 0 <= i < |s| ==> Less(x, s[i])
  {
    forall i | 0 <= i < |s| ensures Less(x, s[i]) {
      if i > 0 { LessTransitive(x, s[0], s[i]); }
    }
  }

  /** Adds a word to an ascending list, keeping one copy of each. */
  function Insert(x: Word, s: seq<Word>): (r: seq<Word>)
    requires Ascending(s)
    ensures Ascending(r)
    ensures forall y :: y in r <==> y == x || y in s
  {
    if s == [] then [x]
    else if x == s[0] then s
    else if Less(x, s[0]) then
      LessAll(x, s);
      [x] + s
    else
      LessTotal(x, s[0]);
      var rest := Insert(x, s[1..]);
      assert s == [s[0]] + s[1..];
      assert forall i :: 0 <= i < |rest| ==> Less(s[0], rest[i]) by {
        assert forall y :: y in rest ==> Less(s[0], y);
      }
      [s[0]] + rest
  }

  /** `sorted(set(s))`. */
  function SortedUnique(s: seq<Word>): (r: seq<Word>)
    ensures Ascending(r)
    ensures forall y :: y in r <==> y in s
  {
    if s == [] then []
    else
      assert s == [s[0]] + s[1..];
      Insert(s[0], SortedUnique(s[1..]))
  }

  predicate IsLeast(x: Word, s: set<Word>) {
    x in s && forall y :: y in s ==> x == y || Less(x, y)
  }

  lemma {:induction false} LeastExists(s: set<Word>)
    requires s != {}
    ensures exists x :: IsLeast(x, s)
  {
    var x :| x in s;
    if s == {x} {
      assert IsLeast(x, s);
    } else {
      LeastExists(s - {x});
      var y :| IsLeast(y, s - {x});
      LessTotal(x, y);
      if Less(y, x) {
        assert IsLeast(y, s);
      } else {
        forall z | z in s ensures x == z || Less(x, z) {
          if z != x && z != y { LessTransitive(x, y, z); }
        }
        assert IsLeast(x, s);
      }
    }
  }

  function Least(s: set<Word>): (x: Word)
    requires s != {}
    ensures IsLeast(x, s)
  {
    LeastExists(s);
    assert forall x, y :: IsLeast(x, s) && IsLeast(y, s) ==> x == y by {
      forall x, y | IsLeast(x, s) && IsLeast(y, s) ensures x == y { LessTotal(x, y); }
    }
    var x :| x in s && IsLeast(x, s);
    x
  }

  /** The ascending enumeration of a finite set: `sorted(s)`. */
  function Sorted(s: set<Word>): (r: seq<Word>)
    ensures Ascending(r)
    ensures forall y :: y in r <==> y in s
  {
    if s == {} then []
    else
      var x := Least(s);
      var rest := Sorted(s - {x});
      assert forall i :: 0 <= i < |rest| ==> rest[i] in rest && Less(x, rest[i]);
      [x] + rest
  }

  /** An ascending list is determined by its elements: sorting forgets order and duplicates. */
  lemma {:induction false} AscendingUnique(a: seq<Word>, b: seq<Word>)
    requires Ascending(a) && Ascending(b)
    requires forall x :: x in a <==> x in b
    ensures a == b
  {
    assert |a| > 0 ==> a[0] in b;
    assert |b| > 0 ==> b[0] in a;
    if a != [] {
      LessTotal(a[0], b[0]);
      assert a[0] == b[0];
      assert a == [a[0]] + a[1..] && b == [b[0]] + b[1..];
      forall x ensures x in a[1..] <==> x in b[1..] {
        LessTotal(x, x);
        assert x in a[1..] ==> x in b && Less(a[0], x);
        assert x in b[1..] ==> x in a && Less(b[0], x);
      }
      AscendingUnique(a[1..], b[1..]);
    }
  }
}
