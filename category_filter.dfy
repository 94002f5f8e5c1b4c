/**
 * The category filter both portfolio views use: the selection "All" shows
 * every item, any other selection shows the items of that category in their
 * original order.  `categoryOf` reads an item's category.
 */
module CategoryFilter {

  /** The selection that shows everything. */
  const All := "All"

  /** `a` is `b` with some elements left out, the rest in their original order. */
  ghost predicate IsSubsequence<T>(a: seq<T>, b: seq<T>)
    decreases |b|
  {
    a == [] || (b != [] && ((a[0] == b[0] && IsSubsequence(a[1..], b[1..])) || IsSubsequence(a, b[1..])))
  }

  /** `items.filter((item) => item.category === category)`. */
  function KeepCategory<T(==,!new)>(items: seq<T>, categoryOf: T -> string, category: string): (r: seq<T>)
    ensures |r| <= |items|
    ensures forall i :: 0 <= i < |r| ==> categoryOf(r[i]) == category
    ensures forall x :: multiset(r)[x] == if categoryOf(x) == category then multiset(items)[x] else 0
    ensures IsSubsequence(r, items)
  {
    if items == [] then []
    else
      assert items == [items[0]] + items[1..];
      var rest := KeepCategory(items[1..], categoryOf, category);
      if categoryOf(items[0]) == category then
        var r := [items[0]] + rest;
        assert r[1..] == rest;
        r
      else rest
  }

  /** What the view shows for the selected category. */
  function Filtered<T(==,!new)>(items: seq<T>, categoryOf: T -> string, selected: string): (r: seq<T>)
    ensures selected == All ==> r == items
    ensures selected != All ==> forall x :: x in r <==> x in items && categoryOf(x) == selected
    ensures selected != All ==>
              forall x :: multiset(r)[x] == if categoryOf(x) == selected then multiset(items)[x] else 0
    ensures |r| <= |items| && IsSubsequence(r, items)
  {
    if selected == All then
      SubsequenceOfItself(items);
      items
    else
      var r := KeepCategory(items, categoryOf, selected);
      assert forall x :: x in r <==> multiset(r)[x] > 0;
      r
  }

  lemma {:induction false} SubsequenceOfItself<T>(s: seq<T>)
    ensures IsSubsequence(s, s)
    decreases |s|
  {
    if s != [] {
      SubsequenceOfItself(s[1..]);
    }
  }

  /** Filtering what is already filtered changes nothing. */
  lemma {:induction false} KeepCategoryIdempotent<T(!new)>(items: seq<T>, categoryOf: T -> string, category: string)
    ensures KeepCategory(KeepCategory(items, categoryOf, category), categoryOf, category)
            == KeepCategory(items, categoryOf, category)
  {
    if items != [] {
      var rest := KeepCategory(items[1..], categoryOf, category);
      KeepCategoryIdempotent(items[1..], categoryOf, category);
      if categoryOf(items[0]) == category {
        var r := [items[0]] + rest;
        assert r[1..] == rest;
      }
    }
  }

  lemma FilteredIdempotent<T(!new)>(items: seq<T>, categoryOf: T -> string, selected: string)
    ensures Filtered(Filtered(items, categoryOf, selected), categoryOf, selected) == Filtered(items, categoryOf, selected)
  {
    if selected != All {
      KeepCategoryIdempotent(items, categoryOf, selected);
    }
  }

  /** A category that some item has shows at least that item. */
  lemma CategoryOfAnItemShows<T(!new)>(items: seq<T>, categoryOf: T -> string, i: nat)
    requires i < |items|
    ensures items[i] in Filtered(items, categoryOf, categoryOf(items[i]))
  {
  }

  /** How many times `x` occurs in the four filtered lists together. */
  lemma {:induction false} CountInFour<T(!new)>(items: seq<T>, categoryOf: T -> string, a: string, b: string, c: string, d: string, x: T)
    requires a != b && a != c && a != d && b != c && b != d && c != d
    ensures multiset(KeepCategory(items, categoryOf, a))[x] + multiset(KeepCategory(items, categoryOf, b))[x]
            + multiset(KeepCategory(items, categoryOf, c))[x] + multiset(KeepCategory(items, categoryOf, d))[x]
            == if categoryOf(x) in [a, b, c, d] then multiset(items)[x] else 0
  {
    var k := categoryOf(x);
    assert k in [a, b, c, d] <==> k == a || k == b || k == c || k == d;
  }

  /** The partition for four categories, written out. */
  lemma PartitionByFourCategories<T(!new)>(items: seq<T>, categoryOf: T -> string, a: string, b: string, c: string, d: string)
    requires a != b && a != c && a != d && b != c && b != d && c != d
    requires forall i :: 0 <= i < |items| ==> categoryOf(items[i]) in [a, b, c, d]
    ensures multiset(KeepCategory(items, categoryOf, a)) + multiset(KeepCategory(items, categoryOf, b))
            + multiset(KeepCategory(items, categoryOf, c)) + multiset(KeepCategory(items, categoryOf, d))
            == multiset(items)
  {
    var all := multiset(KeepCategory(items, categoryOf, a)) + multiset(KeepCategory(items, categoryOf, b))
               + multiset(KeepCategory(items, categoryOf, c)) + multiset(KeepCategory(items, categoryOf, d));
    forall x ensures all[x] == multiset(items)[x] {
      CountInFour(items, categoryOf, a, b, c, d, x);
      if x in items {
        var i :| 0 <= i < |items| && items[i] == x;
      }
    }
  }

  /** Four distinct categories other than "All" that cover every item split what the view shows between them. */
  lemma FilteredByFourCategories<T(!new)>(items: seq<T>, categoryOf: T -> string, a: string, b: string, c: string, d: string)
    requires a != b && a != c && a != d && b != c && b != d && c != d
    requires All !in [a, b, c, d]
    requires forall i :: 0 <= i < |items| ==> categoryOf(items[i]) in [a, b, c, d]
    ensures var w, x, y, z := Filtered(items, categoryOf, a), Filtered(items, categoryOf, b),
                              Filtered(items, categoryOf, c), Filtered(items, categoryOf, d);
            multiset(w) + multiset(x) + multiset(y) + multiset(z) == multiset(items) &&
            |w| + |x| + |y| + |z| == |items|
  {
    PartitionByFourCategories(items, categoryOf, a, b, c, d);
    var w, x, y, z := Filtered(items, categoryOf, a), Filtered(items, categoryOf, b),
                      Filtered(items, categoryOf, c), Filtered(items, categoryOf, d);
    assert |multiset(w) + multiset(x) + multiset(y) + multiset(z)| == |multiset(items)|;
  }
}
