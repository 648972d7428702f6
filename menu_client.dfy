/**
 * The public menu: the category bar that hides while the reader scrolls
 * down and comes back when they scroll up or reach the top, the category
 * tabs, and the heading shown above the list.
 */
module MenuClient {
  import opened Wrappers
  import opened JsText
  import opened JsArray

  datatype Product = Product(
    id: string,
    name: string,
    description: string,
    price: real,
    imageUrl: string,
    categoryId: string)

  datatype Category = Category(id: string, name: string, slug: string)

  /** Moves shorter than this (in pixels) are ignored. */
  const DeadBand := 10
  /** Above this scroll position (in pixels) the bar is always shown. */
  const TopZone := 100

  const DefaultTitle := "Nuestra Carta"
  const DescriptionPrefix := "Nuestras opciones de "
  const NoSelectionPrompt := "Seleccioná una categoría para comenzar."

  /** What the scroll handler remembers between events. */
  datatype BarState = BarState(isVisible: bool, lastScrollY: int)

  const InitialBar := BarState(true, 0)

  function Abs(x: int): nat { if x < 0 then -x else x }

  /** One scroll event at position `y`. */
  function OnScroll(s: BarState, y: int): (r: BarState)
    ensures Abs(y - s.lastScrollY) < DeadBand ==> r == s
    ensures Abs(y - s.lastScrollY) >= DeadBand ==> r.lastScrollY == y
    ensures Abs(y - s.lastScrollY) >= DeadBand && y < TopZone ==> r.isVisible
    ensures Abs(y - s.lastScrollY) >= DeadBand && y >= TopZone ==> (r.isVisible <==> y < s.lastScrollY)
  {
    if Abs(y - s.lastScrollY) < DeadBand then s
    else if y < TopZone then BarState(true, y)
    else if y > s.lastScrollY then BarState(false, y)
    else BarState(true, y)
  }

  /** The bar is hidden only while the last position that counted lies at or below the top zone. */
  ghost predicate HiddenOnlyBelowTop(s: BarState)
  {
    !s.isVisible ==> s.lastScrollY >= TopZone
  }

  /** A run of scroll events, oldest first. */
  function Replay(s: BarState, ys: seq<int>): BarState
    decreases |ys|
  {
    if ys == [] then s else Replay(OnScroll(s, ys[0]), ys[1..])
  }

  /** Every run of scroll events from the initial state keeps the bar visible near the top. */
  lemma {:induction false} ReplayKeepsHiddenOnlyBelowTop(s: BarState, ys: seq<int>)
    requires HiddenOnlyBelowTop(s)
    ensures HiddenOnlyBelowTop(Replay(s, ys))
    decreases |ys|
  {
    if ys != [] {
      ReplayKeepsHiddenOnlyBelowTop(OnScroll(s, ys[0]), ys[1..]);
    }
  }

  /** From the initial state, however the reader scrolls, a hidden bar means the page is scrolled past the top zone. */
  lemma InitialRunsHideOnlyBelowTop(ys: seq<int>)
    ensures !Replay(InitialBar, ys).isVisible ==> Replay(InitialBar, ys).lastScrollY >= TopZone
  {
    ReplayKeepsHiddenOnlyBelowTop(InitialBar, ys);
  }

  /** Scrolling up by at least the dead band always shows the bar. */
  lemma ScrollUpShows(s: BarState, y: int)
    requires y <= s.lastScrollY - DeadBand
    ensures OnScroll(s, y).isVisible && OnScroll(s, y).lastScrollY == y
  {
  }

  /** Scrolling down by at least the dead band, past the top zone, always hides the bar. */
  lemma ScrollDownHides(s: BarState, y: int)
    requires y >= s.lastScrollY + DeadBand && y >= TopZone
    ensures !OnScroll(s, y).isVisible && OnScroll(s, y).lastScrollY == y
  {
  }

  /** A repeated event at the same position changes nothing more. */
  lemma OnScrollSettles(s: BarState, y: int)
    ensures OnScroll(OnScroll(s, y), y) == OnScroll(s, y)
  {
  }

  function CategoryOf(p: Product): string { p.categoryId }

  /** `categories.find(c => c.id === selected)`, as the position of the first match. */
  function FindCategory(categories: seq<Category>, selected: Option<string>): (r: Option<nat>)
    ensures r.Some? ==> r.value < |categories| && Some(categories[r.value].id) == selected
    ensures r.Some? ==> forall j :: 0 <= j < r.value ==> Some(categories[j].id) != selected
    ensures r.None? ==> forall j :: 0 <= j < |categories| ==> Some(categories[j].id) != selected
  {
    if categories == [] then None
    else if Some(categories[0].id) == selected then Some(0)
    else match FindCategory(categories[1..], selected)
      case None => None
      case Some(k) => Some(k + 1)
  }

  /** The heading: the chosen category's name when it is found and not empty, else the default title. */
  function CategoryTitle(categories: seq<Category>, selected: Option<string>): (r: string)
    ensures r != ""
    ensures (forall i :: 0 <= i < |categories| ==> Some(categories[i].id) != selected) ==> r == DefaultTitle
    ensures r == DefaultTitle || exists i :: 0 <= i < |categories| && Some(categories[i].id) == selected && r == categories[i].name
  {
    var found := FindCategory(categories, selected);
    if found.Some? && categories[found.value].name != "" then categories[found.value].name else DefaultTitle
  }

  /** The line under the heading: about the chosen category, or a prompt to choose one. */
  function CategoryDescription(categories: seq<Category>, selected: Option<string>): (r: string)
    ensures Truthy(selected) ==> r == DescriptionPrefix + Lower(CategoryTitle(categories, selected)) + "."
    ensures !Truthy(selected) ==> r == NoSelectionPrompt
  {
    if Truthy(selected) then DescriptionPrefix + Lower(CategoryTitle(categories, selected)) + "."
    else NoSelectionPrompt
  }

  /** The heading names the first category with the chosen id, unless that name is empty. */
  lemma TitleOfFoundCategory(categories: seq<Category>, selected: Option<string>, k: nat)
    requires k < |categories| && Some(categories[k].id) == selected
    requires forall j :: 0 <= j < k ==> Some(categories[j].id) != selected
    ensures categories[k].name != "" ==> CategoryTitle(categories, selected) == categories[k].name
    ensures categories[k].name == "" ==> CategoryTitle(categories, selected) == DefaultTitle
  {
    assert FindCategory(categories, selected) == Some(k);
  }

  /** A chosen id that names no category still gets the "options" line, built from the default title. */
  lemma UnknownSelectionDescription(categories: seq<Category>, selected: Option<string>)
    requires Truthy(selected)
    requires forall i :: 0 <= i < |categories| ==> Some(categories[i].id) != selected
    ensures CategoryTitle(categories, selected) == DefaultTitle
    ensures CategoryDescription(categories, selected) == DescriptionPrefix + Lower(DefaultTitle) + "."
  {
  }

  /** With no tab chosen the page shows the default title and the prompt. */
  lemma NoSelectionDefaults(categories: seq<Category>)
    ensures CategoryTitle(categories, None) == DefaultTitle
    ensures CategoryDescription(categories, None) == NoSelectionPrompt
  {
  }

  /** The state of the public menu component. */
  class Menu {
    const products: seq<Product>
    const categories: seq<Category>
    var selectedCategoryId: Option<string>
    var isVisible: bool
    var lastScrollY: int

    function Bar(): BarState
      reads this
    {
      BarState(isVisible, lastScrollY)
    }

    ghost predicate Valid()
      reads this
    {
      HiddenOnlyBelowTop(Bar())
    }

    constructor (products: seq<Product>, categories: seq<Category>)
      ensures this.products == products && this.categories == categories
      ensures selectedCategoryId == None && Bar() == InitialBar
      ensures Valid()
    {
      this.products := products;
      this.categories := categories;
      selectedCategoryId := None;
      isVisible := true;
      lastScrollY := 0;
    }

    /** The window's scroll listener, fed the current `scrollY`. */
    method HandleScroll(currentScrollY: int)
      requires Valid()
      modifies this
      ensures Valid()
      ensures Bar() == OnScroll(old(Bar()), currentScrollY)
      ensures selectedCategoryId == old(selectedCategoryId)
    {
      if Abs(currentScrollY - lastScrollY) < DeadBand {
        return;
      }
      if currentScrollY < TopZone {
        isVisible := true;
      } else if currentScrollY > lastScrollY {
        isVisible := false;
      } else {
        isVisible := true;
      }
      lastScrollY := currentScrollY;
    }

    /** A tab button: "Todos" passes `None`, a category tab its id. */
    method SelectCategory(id: Option<string>)
      requires Valid()
      modifies this
      ensures Valid()
      ensures selectedCategoryId == id && Bar() == old(Bar())
    {
      selectedCategoryId := id;
    }

    /** The products listed under the chosen tab. */
    function FilteredProducts(): (r: seq<Product>)
      reads this
      ensures !Truthy(selectedCategoryId) ==> r == products
      ensures forall p :: p in r ==> p in products
      ensures Truthy(selectedCategoryId) ==> forall p :: p in products ==>
        (p in r <==> p.categoryId == selectedCategoryId.value)
    {
      ByCategory(products, CategoryOf, selectedCategoryId)
    }

    /** The heading above the list. */
    function CurrentCategoryName(): (r: string)
      reads this
      ensures r != ""
      ensures selectedCategoryId.None? ==> r == DefaultTitle
    {
      CategoryTitle(categories, selectedCategoryId)
    }

    /** The line under the heading. */
    function CurrentCategoryDesc(): (r: string)
      reads this
      ensures !Truthy(selectedCategoryId) ==> r == NoSelectionPrompt
      ensures Truthy(selectedCategoryId) ==> DescriptionPrefix <= r && r[|r| - 1] == '.'
    {
      CategoryDescription(categories, selectedCategoryId)
    }
  }
}
