/**
 * The admin panel's in-memory product and category lists, the editing form
 * around them, and the writes it sends to the store.
 *
 * The store itself is outside the model: each write the panel issues is
 * returned as a `StoreWrite` value, and what the reload after a save brings
 * back (or whether an awaited call threw) is a parameter.
 */
module AdminContent {
  import opened Wrappers
  import opened JsText
  import opened JsArray

  datatype Product = Product(
    id: string,
    name: string,
    description: string,
    price: real,
    imageUrl: string,
    categoryId: string,
    isActive: bool)

  datatype Category = Category(id: string, name: string)

  /** Which form the modal shows. */
  datatype ModalType = ProductModal | CategoryModal

  /** The product form: a `Partial<Product>`, so every field may be absent. */
  datatype ProductDraft = ProductDraft(
    id: Option<string>,
    name: Option<string>,
    description: Option<string>,
    price: Option<real>,
    imageUrl: Option<string>,
    categoryId: Option<string>,
    isActive: Option<bool>)

  const EmptyDraft := ProductDraft(None, None, None, None, None, None, None)

  /** The image a new product starts with. */
  const PlaceholderImage := "https://images.unsplash.com/photo-1551024709-8f23befc6f87?auto=format&fit=crop&w=300&q=80"

  /** A request the panel sends to the store. */
  datatype StoreWrite =
    | UpdateActive(id: string, isActive: bool)
    | DeleteProduct(id: string)
    | UpdateProduct(id: string, name: Option<string>, description: Option<string>, price: Option<real>,
                    imageUrl: Option<string>, categoryId: Option<string>)
    | InsertProduct(row: ProductDraft)
    | InsertCategory(name: Option<string>, slug: Option<string>, sortOrder: int)

  /** How an awaited read of the reload ended: it threw, or it resolved with rows or with `null`. */
  datatype Fetch<T> = Threw | Resolved(rows: Option<T>)

  function CategoryOf(p: Product): string { p.categoryId }

  /** The products listed under the chosen tab. */
  function FilterByCategory(products: seq<Product>, selected: Option<string>): (r: seq<Product>)
    ensures !Truthy(selected) ==> r == products
    ensures Truthy(selected) ==> forall p :: p in r ==> p in products && p.categoryId == selected.value
    ensures Truthy(selected) ==> forall p :: p in products && p.categoryId == selected.value ==> p in r
  {
    ByCategory(products, CategoryOf, selected)
  }

  /** The optimistic toggle: every product with `id` gets the flag `flag`; nothing else changes. */
  function SetActive(products: seq<Product>, id: string, flag: bool): (r: seq<Product>)
    ensures |r| == |products|
    ensures forall i :: 0 <= i < |products| && products[i].id == id ==> r[i] == products[i].(isActive := flag)
    ensures forall i :: 0 <= i < |products| && products[i].id != id ==> r[i] == products[i]
  {
    seq(|products|, i requires 0 <= i < |products| =>
      if products[i].id == id then products[i].(isActive := flag) else products[i])
  }

  /** Every product whose id matches carries `flag`. */
  ghost predicate AllFlagged(products: seq<Product>, id: string, flag: bool)
  {
    forall i :: 0 <= i < |products| && products[i].id == id ==> products[i].isActive == flag
  }

  /**
   * Toggling twice restores the list: the first toggle of `p` sets the flag
   * to `!p.isActive`, the second, made with the re-rendered product, sets it
   * back, as long as every product with that id showed `p`'s flag.
   */
  lemma ToggleTwiceRestores(products: seq<Product>, p: Product)
    requires AllFlagged(products, p.id, p.isActive)
    ensures SetActive(SetActive(products, p.id, !p.isActive), p.id, p.isActive) == products
  {
    var once := SetActive(products, p.id, !p.isActive);
    var twice := SetActive(once, p.id, p.isActive);
    forall i | 0 <= i < |products|
      ensures twice[i] == products[i]
    {
      if products[i].id == p.id {
        assert once[i] == products[i].(isActive := !p.isActive);
      }
    }
  }

  /** A product taken from a list whose ids are unique meets what `ToggleTwiceRestores` asks. */
  lemma ListedProductIsFlagged(products: seq<Product>, k: nat)
    requires k < |products|
    requires forall i, j :: 0 <= i < j < |products| ==> products[i].id != products[j].id
    ensures AllFlagged(products, products[k].id, products[k].isActive)
  {
  }

  function IdIsNot(id: string): Product -> bool
  {
    (p: Product) => p.id != id
  }

  /** The optimistic delete: every product with `id` leaves, the rest stay in order. */
  function WithoutId(products: seq<Product>, id: string): (r: seq<Product>)
    ensures |r| <= |products|
    ensures forall p :: p in r ==> p in products && p.id != id
    ensures forall p :: p in products && p.id != id ==> p in r
  {
    Keep(products, IdIsNot(id))
  }

  /** Deleting keeps the survivors in order: it removes from each part of a list separately. */
  lemma WithoutIdAppend(a: seq<Product>, b: seq<Product>, id: string)
    ensures WithoutId(a + b, id) == WithoutId(a, id) + WithoutId(b, id)
  {
    KeepAppend(a, b, IdIsNot(id));
  }

  /** Deleting an id no product has leaves the list as it was. */
  lemma WithoutAbsentId(products: seq<Product>, id: string)
    requires forall i :: 0 <= i < |products| ==> products[i].id != id
    ensures WithoutId(products, id) == products
  {
  }

  /** `selectedCategoryId || categories[0]?.id || ""`: the category a new product starts in. */
  function DefaultCategoryId(selected: Option<string>, categories: seq<Category>): (r: string)
    ensures Truthy(selected) ==> r == selected.value
    ensures !Truthy(selected) && categories != [] ==> r == categories[0].id
    ensures !Truthy(selected) && categories == [] ==> r == ""
  {
    if Truthy(selected) then selected.value
    else if categories != [] && categories[0].id != "" then categories[0].id
    else ""
  }

  /** The form for a new product. */
  function NewProductDraft(selected: Option<string>, categories: seq<Category>): (d: ProductDraft)
    ensures d.id == None
    ensures d.name == Some("") && d.description == Some("")
    ensures d.price == Some(0.0) && d.isActive == Some(true)
    ensures d.imageUrl == Some(PlaceholderImage)
    ensures d.categoryId == Some(DefaultCategoryId(selected, categories))
    ensures d.categoryId.value == "" || d.categoryId == selected || d.categoryId.value == categories[0].id
  {
    ProductDraft(None, Some(""), Some(""), Some(0.0), Some(PlaceholderImage),
                 Some(DefaultCategoryId(selected, categories)), Some(true))
  }

  /** The form for editing an existing product: every field of the product. */
  function DraftOf(p: Product): (d: ProductDraft)
    ensures d.id == Some(p.id) && d.name == Some(p.name) && d.description == Some(p.description)
    ensures d.price == Some(p.price) && d.imageUrl == Some(p.imageUrl)
    ensures d.categoryId == Some(p.categoryId) && d.isActive == Some(p.isActive)
  {
    ProductDraft(Some(p.id), Some(p.name), Some(p.description), Some(p.price),
                 Some(p.imageUrl), Some(p.categoryId), Some(p.isActive))
  }

  /**
   * The write a product save sends: an update of five fields when editing a
   * product with a (non-empty) id, otherwise an insert of the whole form with
   * `is_active` forced to true.
   */
  function ProductWrite(isEditing: bool, draft: ProductDraft): (w: StoreWrite)
    ensures w.UpdateProduct? <==> isEditing && Truthy(draft.id)
    ensures w.UpdateProduct? ==>
      Some(w.id) == draft.id && w.name == draft.name && w.description == draft.description &&
      w.price == draft.price && w.imageUrl == draft.imageUrl && w.categoryId == draft.categoryId
    ensures w.InsertProduct? ==> w.row.isActive == Some(true) && w.row.(isActive := draft.isActive) == draft
    ensures w.UpdateProduct? || w.InsertProduct?
  {
    if isEditing && Truthy(draft.id) then
      UpdateProduct(draft.id.value, draft.name, draft.description, draft.price, draft.imageUrl, draft.categoryId)
    else
      InsertProduct(draft.(isActive := Some(true)))
  }

  /** The insert a category save sends: the name, its slug, and a place after the `count` categories shown. */
  function CategoryWrite(name: Option<string>, count: nat): (w: StoreWrite)
    ensures w.InsertCategory? && w.name == name && w.sortOrder == count + 1
    ensures name.None? ==> w.slug.None?
    ensures name.Some? ==> w.slug.Some? && |w.slug.value| == |name.value| && ' ' !in w.slug.value
    ensures name.Some? ==> w.slug.value == Slugify(name.value)
  {
    match name
    case None => InsertCategory(name, None, count + 1)
    case Some(n) => SlugifyShape(n); InsertCategory(name, Some(Slugify(n)), count + 1)
  }

  /** The state of the admin panel component. */
  class AdminPanel {
    var products: seq<Product>
    var categories: seq<Category>
    var selectedCategoryId: Option<string>
    var isModalOpen: bool
    var modalType: ModalType
    var isLoading: bool
    var currentProduct: ProductDraft
    var currentCategoryName: Option<string>
    var isEditing: bool

    constructor (initialProducts: seq<Product>, initialCategories: seq<Category>)
      ensures products == initialProducts && categories == initialCategories
      ensures selectedCategoryId == None
      ensures !isModalOpen && modalType == ProductModal && !isLoading && !isEditing
      ensures currentProduct == EmptyDraft && currentCategoryName == None
    {
      products := initialProducts;
      categories := initialCategories;
      selectedCategoryId := None;
      isModalOpen := false;
      modalType := ProductModal;
      isLoading := false;
      currentProduct := EmptyDraft;
      currentCategoryName := None;
      isEditing := false;
    }

    /** The list under the current tab. */
    function FilteredProducts(): (r: seq<Product>)
      reads this
      ensures !Truthy(selectedCategoryId) ==> r == products
      ensures forall p :: p in r ==> p in products
      ensures Truthy(selectedCategoryId) ==> forall p :: p in products ==>
        (p in r <==> p.categoryId == selectedCategoryId.value)
    {
      FilterByCategory(products, selectedCategoryId)
    }

    /** A tab button: "Todos" passes `None`, a category tab its id. */
    method SelectCategory(id: Option<string>)
      modifies this
      ensures selectedCategoryId == id
      ensures products == old(products) && categories == old(categories)
      ensures isModalOpen == old(isModalOpen) && modalType == old(modalType) && isLoading == old(isLoading)
      ensures currentProduct == old(currentProduct) && isEditing == old(isEditing)
      ensures currentCategoryName == old(currentCategoryName)
    {
      selectedCategoryId := id;
    }

    /** Flips the flag of `product` in the list at once and sends the same flag to the store. */
    method ToggleActive(product: Product) returns (write: StoreWrite)
      modifies this
      ensures products == SetActive(old(products), product.id, !product.isActive)
      ensures write == UpdateActive(product.id, !product.isActive)
      ensures categories == old(categories) && selectedCategoryId == old(selectedCategoryId)
      ensures isModalOpen == old(isModalOpen) && modalType == old(modalType) && isLoading == old(isLoading)
      ensures currentProduct == old(currentProduct) && isEditing == old(isEditing)
      ensures currentCategoryName == old(currentCategoryName)
    {
      var newStatus := !product.isActive;
      products := SetActive(products, product.id, newStatus);
      write := UpdateActive(product.id, newStatus);
    }

    /** Deletes after the user confirms; a refused confirmation changes nothing and sends nothing. */
    method Delete(id: string, confirmed: bool) returns (write: Option<StoreWrite>)
      modifies this
      ensures !confirmed ==> products == old(products) && write == None
      ensures confirmed ==> products == WithoutId(old(products), id) && write == Some(DeleteProduct(id))
      ensures categories == old(categories) && selectedCategoryId == old(selectedCategoryId)
      ensures isModalOpen == old(isModalOpen) && modalType == old(modalType) && isLoading == old(isLoading)
      ensures currentProduct == old(currentProduct) && isEditing == old(isEditing)
      ensures currentCategoryName == old(currentCategoryName)
    {
      if !confirmed {
        return None;
      }
      products := WithoutId(products, id);
      write := Some(DeleteProduct(id));
    }

    /** Opens the product form: on `product` for an edit, on the defaults for a new one. */
    method OpenProductModal(product: Option<Product>)
      modifies this
      ensures modalType == ProductModal && isModalOpen
      ensures product.Some? ==> isEditing && currentProduct == DraftOf(product.value)
      ensures product.None? ==> !isEditing && currentProduct == NewProductDraft(selectedCategoryId, categories)
      ensures products == old(products) && categories == old(categories)
      ensures selectedCategoryId == old(selectedCategoryId) && isLoading == old(isLoading)
      ensures currentCategoryName == old(currentCategoryName)
    {
      modalType := ProductModal;
      if product.Some? {
        isEditing := true;
        currentProduct := DraftOf(product.value);
      } else {
        isEditing := false;
        currentProduct := NewProductDraft(selectedCategoryId, categories);
      }
      isModalOpen := true;
    }

    /** Opens the category form, which only creates, on an empty name. */
    method OpenCategoryModal()
      modifies this
      ensures modalType == CategoryModal && isModalOpen && !isEditing
      ensures currentCategoryName == Some("")
      ensures products == old(products) && categories == old(categories)
      ensures selectedCategoryId == old(selectedCategoryId) && isLoading == old(isLoading)
      ensures currentProduct == old(currentProduct)
    {
      modalType := CategoryModal;
      isEditing := false;
      currentCategoryName := Some("");
      isModalOpen := true;
    }

    /** The modal's close button. */
    method CloseModal()
      modifies this
      ensures !isModalOpen
      ensures products == old(products) && categories == old(categories) && modalType == old(modalType)
      ensures selectedCategoryId == old(selectedCategoryId) && isLoading == old(isLoading)
      ensures currentProduct == old(currentProduct) && isEditing == old(isEditing)
      ensures currentCategoryName == old(currentCategoryName)
    {
      isModalOpen := false;
    }

    /**
     * Submits the open form. The write is always sent; then the reload reads
     * products and categories. If the write or either read threw, an alert
     * is shown (`saved` is false), the lists stay as they were and the modal
     * stays as it was; otherwise each list that came back replaces the shown
     * one and the modal closes. Loading is off afterwards either way.
     */
    method Save(writeThrew: bool, productsFetch: Fetch<seq<Product>>, categoriesFetch: Fetch<seq<Category>>)
      returns (write: StoreWrite, saved: bool)
      modifies this
      ensures write == if old(modalType) == ProductModal then ProductWrite(old(isEditing), old(currentProduct))
                       else CategoryWrite(old(currentCategoryName), |old(categories)|)
      ensures saved == (!writeThrew && productsFetch.Resolved? && categoriesFetch.Resolved?)
      ensures !isLoading
      ensures isModalOpen == (old(isModalOpen) && !saved)
      ensures saved && productsFetch.rows.Some? ==> products == productsFetch.rows.value
      ensures !(saved && productsFetch.rows.Some?) ==> products == old(products)
      ensures saved && categoriesFetch.rows.Some? ==> categories == categoriesFetch.rows.value
      ensures !(saved && categoriesFetch.rows.Some?) ==> categories == old(categories)
      ensures modalType == old(modalType) && isEditing == old(isEditing)
      ensures currentProduct == old(currentProduct) && currentCategoryName == old(currentCategoryName)
      ensures selectedCategoryId == old(selectedCategoryId)
    {
      isLoading := true;
      if modalType == ProductModal {
        write := ProductWrite(isEditing, currentProduct);
      } else {
        write := CategoryWrite(currentCategoryName, |categories|);
      }
      saved := false;
      if !writeThrew && productsFetch.Resolved? && categoriesFetch.Resolved? {
        if productsFetch.rows.Some? {
          products := productsFetch.rows.value;
        }
        if categoriesFetch.rows.Some? {
          categories := categoriesFetch.rows.value;
        }
        isModalOpen := false;
        saved := true;
      }
      isLoading := false;
    }
  }
}
