/**
 * `Array.prototype.filter` on the components' lists, and the category-tab
 * filter that both the admin panel and the public menu build from it.
 */
module JsArray {
  import opened Wrappers
  import opened JsText

  /** `xs.filter(keep)`: the elements that pass, in their original order. */
  function Keep<T>(xs: seq<T>, keep: T -> bool): (r: seq<T>)
    ensures |r| <= |xs|
    ensures forall x :: x in r ==> x in xs && keep(x)
    ensures forall x :: x in xs && keep(x) ==> x in r
    ensures (forall i :: 0 <= i < |xs| ==> keep(xs[i])) ==> r == xs
  {
    if xs == [] then []
    else if keep(xs[0]) then [xs[0]] + Keep(xs[1..], keep)
    else Keep(xs[1..], keep)
  }

  /**
   * The order of `Keep`: filtering a concatenation filters each part and
   * keeps the parts in place, so what passes keeps its relative order.
   */
  lemma {:induction false} KeepAppend<T>(a: seq<T>, b: seq<T>, keep: T -> bool)
    ensures Keep(a + b, keep) == Keep(a, keep) + Keep(b, keep)
  {
    if a == [] {
      assert a + b == b;
    } else {
      assert (a + b)[1..] == a[1..] + b;
      KeepAppend(a[1..], b, keep);
    }
  }

  /**
   * The category tabs: with no category chosen (null or "") the list is shown
   * whole, otherwise only the elements whose category is the chosen one.
   */
  function ByCategory<T>(xs: seq<T>, categoryOf: T -> string, selected: Option<string>): (r: seq<T>)
    ensures !Truthy(selected) ==> r == xs
    ensures Truthy(selected) ==> forall x :: x in r ==> x in xs && categoryOf(x) == selected.value
    ensures Truthy(selected) ==> forall x :: x in xs && categoryOf(x) == selected.value ==> x in r
  {
    if Truthy(selected) then Keep(xs, x => categoryOf(x) == selected.value) else xs
  }

  /** The category tab keeps the list's order: filtering a concatenation filters each part in place. */
  lemma ByCategoryAppend<T>(a: seq<T>, b: seq<T>, categoryOf: T -> string, selected: Option<string>)
    ensures ByCategory(a + b, categoryOf, selected) == ByCategory(a, categoryOf, selected) + ByCategory(b, categoryOf, selected)
  {
    if Truthy(selected) {
      KeepAppend(a, b, x => categoryOf(x) == selected.value);
    }
  }
}
