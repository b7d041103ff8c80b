/** The category board (src/pages/dashboard/Categories.jsx): products shown in
    one column per visible category, moved between columns by drag and drop,
    with categories created and deleted by the user.

    The pure part gives the list, set and map updates the handlers and effects
    make; class CategoryBoard holds the component's state and one method per
    handler or effect. Server requests are not made: their outcomes are
    method parameters. */
module Categories {
  import opened Common

  const Uncategorized := "Uncategorized"

  datatype Category = Category(id: string, title: string)

  /** The product fields the board shows but never changes. */
  datatype Details = Details(barcode: string, description: string, material: string)

  /** A product as the server sends it: its category may be missing (`None`)
      or empty. */
  datatype StoredProduct = StoredProduct(id: string, details: Details, category: Option<string>)

  /** A product as the board keeps it, with a category always set. */
  datatype Product = Product(id: string, details: Details, category: string)

  // ---------------------------------------------------------------------------
  // Loading: default-category normalisation
  // ---------------------------------------------------------------------------

  /** `product.category || 'Uncategorized'`. */
  function DefaultCategory(category: Option<string>): string {
    if category.Some? && category.value != "" then category.value else Uncategorized
  }

  /** `data.map(product => ({...product, category: product.category || 'Uncategorized'}))`. */
  function WithDefaultCategories(stored: seq<StoredProduct>): (r: seq<Product>)
    ensures |r| == |stored|
    ensures forall i :: 0 <= i < |stored| ==> r[i].id == stored[i].id && r[i].details == stored[i].details
    ensures forall i :: 0 <= i < |stored| && (stored[i].category.None? || stored[i].category.value == "")
                        ==> r[i].category == Uncategorized
    ensures forall i :: 0 <= i < |stored| && stored[i].category.Some? && stored[i].category.value != ""
                        ==> r[i].category == stored[i].category.value
    ensures forall p :: p in r ==> p.category != ""
    decreases |stored|
  {
    if stored == [] then []
    else
      [Product(stored[0].id, stored[0].details, DefaultCategory(stored[0].category))]
      + WithDefaultCategories(stored[1..])
  }

  // ---------------------------------------------------------------------------
  // Relabelling products (`products.map(p => cond ? {...p, category: c} : p)`)
  // ---------------------------------------------------------------------------

  /** Every selected product gets category `to`; every other one is kept as is. */
  function Relabel(ps: seq<Product>, selected: Product -> bool, to: string): (r: seq<Product>)
    ensures |r| == |ps|
    ensures forall i :: 0 <= i < |ps| ==> r[i].id == ps[i].id && r[i].details == ps[i].details
    ensures forall i :: 0 <= i < |ps| && selected(ps[i]) ==> r[i].category == to
    ensures forall i :: 0 <= i < |ps| && !selected(ps[i]) ==> r[i] == ps[i]
    decreases |ps|
  {
    if ps == [] then []
    else
      [if selected(ps[0]) then ps[0].(category := to) else ps[0]] + Relabel(ps[1..], selected, to)
  }

  /** The drag-end update: the product whose `_id` is `productId` moves to `destination`. */
  function Reassign(ps: seq<Product>, productId: string, destination: string): seq<Product> {
    Relabel(ps, (p: Product) => p.id == productId, destination)
  }

  /** The delete update: every product of category `id` becomes uncategorised. */
  function Uncategorize(ps: seq<Product>, id: string): seq<Product> {
    Relabel(ps, (p: Product) => p.category == id, Uncategorized)
  }

  /** Moving a product that is not in the list changes nothing. */
  lemma ReassignUnknownProduct(ps: seq<Product>, productId: string, destination: string)
    requires forall p :: p in ps ==> p.id != productId
    ensures Reassign(ps, productId, destination) == ps
  {
    var r := Reassign(ps, productId, destination);
    forall i | 0 <= i < |ps| ensures r[i] == ps[i] {
      assert ps[i] in ps;
    }
  }

  /** Dropping the same product on the same column twice is the same as once. */
  lemma ReassignIdempotent(ps: seq<Product>, productId: string, destination: string)
    ensures Reassign(Reassign(ps, productId, destination), productId, destination)
            == Reassign(ps, productId, destination)
  {
    var once := Reassign(ps, productId, destination);
    var twice := Reassign(once, productId, destination);
    forall i | 0 <= i < |ps| ensures twice[i] == once[i] {
      if ps[i].id == productId {
        assert once[i] == ps[i].(category := destination);
      }
    }
  }

  /** After a drag the moved product is in the destination's group and in no
      other group, and every other product is in the group it was in. */
  lemma ReassignMovesBetweenGroups(ps: seq<Product>, productId: string, destination: string, k: string)
    ensures forall p :: p in ps && p.id == productId ==>
              p.(category := destination) in OfCategory(Reassign(ps, productId, destination), destination)
    ensures k != destination ==>
              forall p :: p in OfCategory(Reassign(ps, productId, destination), k) ==> p.id != productId
    ensures forall p :: p in ps && p.id != productId ==>
              (p in OfCategory(ps, k) <==> p in OfCategory(Reassign(ps, productId, destination), k))
  {
    var r := Reassign(ps, productId, destination);
    forall p | p in ps && p.id == productId
      ensures p.(category := destination) in r
    {
      var i :| 0 <= i < |ps| && ps[i] == p;
      assert r[i] == p.(category := destination);
    }
    forall p | p in r
      ensures p.id == productId ==> p.category == destination
    {
      var i :| 0 <= i < |r| && r[i] == p;
    }
    forall p | p in ps && p.id != productId
      ensures p in r
    {
      var i :| 0 <= i < |ps| && ps[i] == p;
      assert r[i] == p;
    }
    forall p | p in r && p.id != productId
      ensures p in ps
    {
      var i :| 0 <= i < |r| && r[i] == p;
      assert r[i] == ps[i];
    }
  }

  /** After a category is deleted no product is left in it, products of other
      categories are untouched, and nothing is added or removed. */
  lemma UncategorizeEmptiesCategory(ps: seq<Product>, id: string)
    requires id != Uncategorized
    ensures forall p :: p in Uncategorize(ps, id) ==> p.category != id
    ensures forall i :: 0 <= i < |ps| && ps[i].category != id ==> Uncategorize(ps, id)[i] == ps[i]
    ensures |Uncategorize(ps, id)| == |ps|
  {
    var r := Uncategorize(ps, id);
    forall p | p in r ensures p.category != id {
      var i :| 0 <= i < |r| && r[i] == p;
    }
  }

  // ---------------------------------------------------------------------------
  // Category lists
  // ---------------------------------------------------------------------------

  /** The ids of a list of categories, as a set. */
  function Ids(cs: seq<Category>): set<string> {
    set c | c in cs :: c.id
  }

  /** The ids of a list of categories, in order (`categories.map(c => c.id)`). */
  function IdList(cs: seq<Category>): (r: seq<string>)
    ensures |r| == |cs| && forall i :: 0 <= i < |cs| ==> r[i] == cs[i].id
    decreases |cs|
  {
    if cs == [] then [] else [cs[0].id] + IdList(cs[1..])
  }

  /** `categories.some(cat => cat.id === id)`. */
  function HasCategory(cs: seq<Category>, id: string): (r: bool)
    ensures r <==> id in Ids(cs)
    decreases |cs|
  {
    if cs == [] then false
    else
      assert cs == [cs[0]] + cs[1..];
      assert Ids(cs) == {cs[0].id} + Ids(cs[1..]);
      cs[0].id == id || HasCategory(cs[1..], id)
  }

  /** `prevCategories.filter(cat => cat.id !== id)`. */
  function RemoveCategory(cs: seq<Category>, id: string): seq<Category> {
    Filter(cs, (c: Category) => c.id != id)
  }

  /** Removing a category removes exactly its id and keeps the others in order. */
  lemma RemoveCategoryIds(cs: seq<Category>, id: string)
    ensures Ids(RemoveCategory(cs, id)) == Ids(cs) - {id}
    ensures IsSubsequence(RemoveCategory(cs, id), cs)
    ensures forall c: Category :: c.id != id ==> multiset(RemoveCategory(cs, id))[c] == multiset(cs)[c]
  {
    FilterIsSubsequence(cs, (c: Category) => c.id != id);
    FilterCounts(cs, (c: Category) => c.id != id);
    var r := RemoveCategory(cs, id);
    forall x | x in Ids(cs) - {id} ensures x in Ids(r) {
      var c :| c in cs && c.id == x;
      assert c in r;
    }
  }

  /** The `preConfirm` check of the create dialog: a name is accepted when it
      is non-empty and no category has it as id. */
  function CheckNewName(cs: seq<Category>, name: string): (r: Option<string>)
    ensures r.Some? <==> name != "" && name !in Ids(cs)
    ensures r.Some? ==> r.value == name
  {
    if name == "" then None
    else if HasCategory(cs, name) then None
    else Some(name)
  }

  /** A name just used to create a category is refused the next time. */
  lemma CreatedNameNowTaken(cs: seq<Category>, name: string)
    ensures CheckNewName(cs + [Category(name, name)], name) == None
  {
    assert Category(name, name) in cs + [Category(name, name)];
  }

  // ---------------------------------------------------------------------------
  // The visibility effect (lines 73-91) and the blank-search reset
  // ---------------------------------------------------------------------------

  /** The categories of a list of products, as a set. */
  function ProductCategories(ps: seq<Product>): set<string> {
    set p | p in ps :: p.category
  }

  /** `new Set(['Uncategorized', ...categories.map(c => c.id)])`. */
  function DefaultVisible(cs: seq<Category>): set<string> {
    {Uncategorized} + Ids(cs)
  }

  /** The visible set the effect settles on for the given state. */
  function VisibleIds(isSearching: bool, categories: seq<Category>,
                      filteredCategories: seq<Category>, filteredProducts: seq<Product>): set<string>
  {
    if !isSearching then DefaultVisible(categories)
    else Ids(filteredCategories) + ProductCategories(filteredProducts)
  }

  /** The two `forEach` loops that build the visible set while searching. */
  method CollectVisible(cs: seq<Category>, ps: seq<Product>) returns (visible: set<string>)
    ensures visible == Ids(cs) + ProductCategories(ps)
  {
    visible := {};
    for i := 0 to |cs|
      invariant visible == Ids(cs[..i])
    {
      assert cs[..i + 1] == cs[..i] + [cs[i]];
      visible := visible + {cs[i].id};
    }
    assert cs[..|cs|] == cs;
    for j := 0 to |ps|
      invariant visible == Ids(cs) + ProductCategories(ps[..j])
    {
      assert ps[..j + 1] == ps[..j] + [ps[j]];
      visible := visible + {ps[j].category};
    }
    assert ps[..|ps|] == ps;
  }

  /** Creating a category adds exactly its id to the default visible set. */
  lemma CreateExtendsDefaultVisible(cs: seq<Category>, name: string)
    ensures DefaultVisible(cs + [Category(name, name)]) == DefaultVisible(cs) + {name}
  {
    assert Category(name, name) in cs + [Category(name, name)];
  }

  /** Deleting a category other than "Uncategorized" removes exactly its id
      from the default visible set. */
  lemma DeleteShrinksDefaultVisible(cs: seq<Category>, id: string)
    requires id != Uncategorized
    ensures DefaultVisible(RemoveCategory(cs, id)) == DefaultVisible(cs) - {id}
  {
    RemoveCategoryIds(cs, id);
  }

  // ---------------------------------------------------------------------------
  // The grouping effect (lines 93-112)
  // ---------------------------------------------------------------------------

  /** `productsToUse.filter(product => product.category === k)`. */
  function OfCategory(ps: seq<Product>, k: string): seq<Product> {
    Filter(ps, (p: Product) => p.category == k)
  }

  /** The keys of the grouping: visible category ids, and "Uncategorized" if visible. */
  function GroupKeys(cs: seq<Category>, visible: set<string>): set<string> {
    (Ids(cs) * visible) + (if Uncategorized in visible then {Uncategorized} else {})
  }

  /** The grouping the effect settles on. */
  function Grouping(cs: seq<Category>, visible: set<string>, ps: seq<Product>): map<string, seq<Product>> {
    map k | k in GroupKeys(cs, visible) :: OfCategory(ps, k)
  }

  /** The `forEach` over categories that builds `groupedProducts`, then the
      "Uncategorized" entry. */
  method GroupProducts(cs: seq<Category>, visible: set<string>, ps: seq<Product>)
    returns (groups: map<string, seq<Product>>)
    ensures groups == Grouping(cs, visible, ps)
  {
    groups := map[];
    for i := 0 to |cs|
      invariant groups == map k | k in Ids(cs[..i]) * visible :: OfCategory(ps, k)
    {
      assert cs[..i + 1] == cs[..i] + [cs[i]];
      if cs[i].id in visible {
        groups := groups[cs[i].id := OfCategory(ps, cs[i].id)];
      }
    }
    assert cs[..|cs|] == cs;
    if Uncategorized in visible {
      groups := groups[Uncategorized := OfCategory(ps, Uncategorized)];
    }
  }

  /** Every group holds exactly the products of its category, in list order. */
  lemma GroupingSound(cs: seq<Category>, visible: set<string>, ps: seq<Product>, k: string)
    requires k in Grouping(cs, visible, ps)
    ensures k in visible && (k in Ids(cs) || k == Uncategorized)
    ensures forall p :: p in Grouping(cs, visible, ps)[k] <==> p in ps && p.category == k
    ensures IsSubsequence(Grouping(cs, visible, ps)[k], ps)
    ensures forall p: Product :: p.category == k ==> multiset(Grouping(cs, visible, ps)[k])[p] == multiset(ps)[p]
  {
    FilterIsSubsequence(ps, (p: Product) => p.category == k);
    FilterCounts(ps, (p: Product) => p.category == k);
  }

  /** A product whose category is neither "Uncategorized" nor the id of a
      category is in no group, and so in no column, even when its category
      is in the visible set (as it is while searching). */
  lemma OrphanProductHidden(cs: seq<Category>, visible: set<string>, ps: seq<Product>, p: Product)
    requires p.category != Uncategorized && p.category !in Ids(cs)
    ensures forall k :: k in Grouping(cs, visible, ps) ==> p !in Grouping(cs, visible, ps)[k]
  {
    forall k | k in Grouping(cs, visible, ps)
      ensures p !in Grouping(cs, visible, ps)[k]
    {
      GroupingSound(cs, visible, ps, k);
    }
  }

  /** The group keys are exactly the visible category ids plus "Uncategorized" if visible. */
  lemma GroupingKeys(cs: seq<Category>, visible: set<string>, ps: seq<Product>)
    ensures Grouping(cs, visible, ps).Keys == (Ids(cs) * visible) + (if Uncategorized in visible then {Uncategorized} else {})
  {
  }

  // ---------------------------------------------------------------------------
  // Column order (line 384)
  // ---------------------------------------------------------------------------

  /** `['Uncategorized', ...categories.map(c => c.id)].filter(id => visible.has(id))`. */
  function ColumnIds(cs: seq<Category>, visible: set<string>): seq<string> {
    Filter([Uncategorized] + IdList(cs), id => id in visible)
  }

  /** The column heading: the title of the first category with that id, or
      the id itself when there is none or its title is empty. */
  function ColumnTitle(cs: seq<Category>, id: string): (r: string)
    ensures id == Uncategorized ==> r == Uncategorized
    ensures id != Uncategorized && id !in Ids(cs) ==> r == id
    ensures forall i :: id != Uncategorized && FirstWithId(cs, id, i) ==>
              r == (if cs[i].title != "" then cs[i].title else id)
    ensures r != id ==> Category(id, r) in cs
    decreases |cs|
  {
    if id == Uncategorized then Uncategorized
    else if cs == [] then id
    else if cs[0].id == id then (if cs[0].title != "" then cs[0].title else id)
    else
      assert forall i :: FirstWithId(cs, id, i) ==> i > 0 && FirstWithId(cs[1..], id, i - 1);
      ColumnTitle(cs[1..], id)
  }

  /** `i` is the position of the first category with id `id` (the one
      `categories.find` returns). */
  predicate FirstWithId(cs: seq<Category>, id: string, i: int) {
    0 <= i < |cs| && cs[i].id == id && forall j :: 0 <= j < i ==> cs[j].id != id
  }

  /** A concrete heading: the first match wins, and an empty title falls
      back to the id. */
  lemma ColumnTitleExamples()
    ensures ColumnTitle([Category("c1", "Drinks"), Category("c1", "Snacks")], "c1") == "Drinks"
    ensures ColumnTitle([Category("c1", "")], "c1") == "c1"
    ensures ColumnTitle([Category("c1", "Drinks")], "c2") == "c2"
  {
    assert FirstWithId([Category("c1", "Drinks"), Category("c1", "Snacks")], "c1", 0);
    assert FirstWithId([Category("c1", "")], "c1", 0);
  }

  /** `productsByCategory[categoryId] || []`. */
  function ColumnProducts(groups: map<string, seq<Product>>, id: string): seq<Product> {
    if id in groups then groups[id] else []
  }

  /** Columns appear for exactly the group keys: "Uncategorized" first when
      visible, then the visible categories in list order. */
  lemma ColumnsMatchGroups(cs: seq<Category>, visible: set<string>, ps: seq<Product>)
    ensures forall id :: id in ColumnIds(cs, visible) <==> id in Grouping(cs, visible, ps)
    ensures Uncategorized in visible ==> ColumnIds(cs, visible)[0] == Uncategorized
    ensures IsSubsequence(ColumnIds(cs, visible), [Uncategorized] + IdList(cs))
  {
    var all := [Uncategorized] + IdList(cs);
    FilterIsSubsequence(all, id => id in visible);
    forall id | id in Ids(cs) ensures id in all {
      var c :| c in cs && c.id == id;
      var i :| 0 <= i < |cs| && cs[i] == c;
      assert all[i + 1] == id;
    }
    forall id | id in all && id != Uncategorized ensures id in Ids(cs) {
      var i :| 0 <= i < |all| && all[i] == id;
      assert cs[i - 1] in cs;
    }
    if Uncategorized in visible {
      assert all == [Uncategorized] + all[1..];
      assert ColumnIds(cs, visible) == [Uncategorized] + Filter(all[1..], id => id in visible);
    }
  }

  /** Each column shows exactly its group. */
  lemma ColumnShowsItsGroup(cs: seq<Category>, visible: set<string>, ps: seq<Product>, id: string)
    requires id in ColumnIds(cs, visible)
    ensures ColumnProducts(Grouping(cs, visible, ps), id) == OfCategory(ps, id)
  {
    ColumnsMatchGroups(cs, visible, ps);
  }

  /** When not searching, every category gets a column, in list order, after
      "Uncategorized". */
  lemma DefaultColumns(cs: seq<Category>)
    ensures ColumnIds(cs, DefaultVisible(cs)) == [Uncategorized] + IdList(cs)
  {
    var all := [Uncategorized] + IdList(cs);
    forall id | id in all ensures id in DefaultVisible(cs) {
      var i :| 0 <= i < |all| && all[i] == id;
      if i > 0 {
        assert cs[i - 1] in cs;
      }
    }
    FilterKeepsAll(all, id => id in DefaultVisible(cs));
  }

  // ---------------------------------------------------------------------------
  // The component state
  // ---------------------------------------------------------------------------

  class CategoryBoard {
    var searchQuery: string
    var categories: seq<Category>
    var products: seq<Product>
    var productsByCategory: map<string, seq<Product>>
    var filteredCategories: seq<Category>
    var filteredProducts: seq<Product>
    var isSearching: bool
    var visibleCategoryIds: set<string>

    /** The visible set agrees with what the visibility effect would compute. */
    predicate VisibilitySettled()
      reads this
    {
      visibleCategoryIds == VisibleIds(isSearching, categories, filteredCategories, filteredProducts)
    }

    /** The columns rendered, in order. */
    function Columns(): seq<string>
      reads this
    {
      ColumnIds(categories, visibleCategoryIds)
    }

    /** The initial `useState` values. */
    constructor ()
      ensures searchQuery == "" && categories == [] && products == [] && productsByCategory == map[]
      ensures filteredCategories == [] && filteredProducts == [] && !isSearching && visibleCategoryIds == {}
    {
      searchQuery := "";
      categories := [];
      products := [];
      productsByCategory := map[];
      filteredCategories := [];
      filteredProducts := [];
      isSearching := false;
      visibleCategoryIds := {};
    }

    /** `fetchProducts`: on success both product lists become the fetched
        list with default categories; on failure nothing changes. */
    method LoadProducts(fetched: Option<seq<StoredProduct>>)
      modifies this`products, this`filteredProducts
      ensures fetched.None? ==> products == old(products) && filteredProducts == old(filteredProducts)
      ensures fetched.Some? ==> products == filteredProducts == WithDefaultCategories(fetched.value)
    {
      if fetched.Some? {
        var normalised := WithDefaultCategories(fetched.value);
        products := normalised;
        filteredProducts := normalised;
      }
    }

    /** `fetchCategories`: on success both category lists become the fetched
        list; on failure nothing changes. */
    method LoadCategories(fetched: Option<seq<Category>>)
      modifies this`categories, this`filteredCategories
      ensures fetched.None? ==> categories == old(categories) && filteredCategories == old(filteredCategories)
      ensures fetched.Some? ==> categories == filteredCategories == fetched.value
    {
      if fetched.Some? {
        categories := fetched.value;
        filteredCategories := fetched.value;
      }
    }

    /** The visibility effect. */
    method RefreshVisibility()
      modifies this`visibleCategoryIds
      ensures VisibilitySettled()
      ensures !isSearching ==> Columns() == [Uncategorized] + IdList(categories)
    {
      if !isSearching {
        visibleCategoryIds := DefaultVisible(categories);
        DefaultColumns(categories);
        return;
      }
      visibleCategoryIds := CollectVisible(filteredCategories, filteredProducts);
    }

    /** The grouping effect. */
    method RefreshGrouping()
      modifies this`productsByCategory
      ensures productsByCategory
              == Grouping(categories, visibleCategoryIds, if isSearching then filteredProducts else products)
    {
      var productsToUse := if isSearching then filteredProducts else products;
      productsByCategory := GroupProducts(categories, visibleCategoryIds, productsToUse);
    }

    /** `handleDragEnd`. A drop outside any column, or back on the source
        column, changes nothing. Otherwise the dragged product moves to the
        destination, and while searching the filtered list becomes the whole
        updated list. The PATCH request's result is not looked at: a failure
        is not rolled back. */
    method DragEnd(destination: Option<string>, source: string, draggableId: string, patchSucceeded: bool)
      modifies this`products, this`filteredProducts
      ensures destination.None? || destination.value == source ==>
                products == old(products) && filteredProducts == old(filteredProducts)
      ensures destination.Some? && destination.value != source ==>
                products == Reassign(old(products), draggableId, destination.value)
                && filteredProducts == (if isSearching then products else old(filteredProducts))
    {
      if destination.None? {
        return;
      }
      if destination.value == source {
        return;
      }
      var updated := Reassign(products, draggableId, destination.value);
      products := updated;
      if isSearching {
        filteredProducts := updated;
      }
    }

    /** `handleCreateCategory`. `entered` is the name the dialog was confirmed
        with, or None if it was cancelled; the dialog only closes on a name
        `preConfirm` accepts. The new category is appended and made visible.
        The POST request's result is not looked at. */
    method CreateCategory(entered: Option<string>, postSucceeded: bool)
      modifies this`categories, this`visibleCategoryIds
      ensures entered.None? || CheckNewName(old(categories), entered.value).None? ==>
                categories == old(categories) && visibleCategoryIds == old(visibleCategoryIds)
      ensures entered.Some? && CheckNewName(old(categories), entered.value).Some? ==>
                categories == old(categories) + [Category(entered.value, entered.value)]
                && visibleCategoryIds == old(visibleCategoryIds) + {entered.value}
      ensures !isSearching && old(VisibilitySettled()) ==> VisibilitySettled()
    {
      if entered.None? {
        return;
      }
      var accepted := CheckNewName(categories, entered.value);
      if accepted.Some? {
        var name := accepted.value;
        CreateExtendsDefaultVisible(categories, name);
        categories := categories + [Category(name, name)];
        visibleCategoryIds := visibleCategoryIds + {name};
      }
    }

    /** `handleDeleteCategory`. Only a confirmed deletion that the server
        accepted has an effect: the category's products become uncategorised
        in both product lists, and the category leaves both category lists and
        the visible set. */
    method DeleteCategory(id: string, confirmed: bool, deleteSucceeded: bool)
      modifies this`products, this`filteredProducts, this`categories, this`filteredCategories,
               this`visibleCategoryIds
      ensures !(confirmed && deleteSucceeded) ==>
                products == old(products) && filteredProducts == old(filteredProducts)
                && categories == old(categories) && filteredCategories == old(filteredCategories)
                && visibleCategoryIds == old(visibleCategoryIds)
      ensures confirmed && deleteSucceeded ==>
                products == Uncategorize(old(products), id)
                && filteredProducts == Uncategorize(old(filteredProducts), id)
                && categories == RemoveCategory(old(categories), id)
                && filteredCategories == RemoveCategory(old(filteredCategories), id)
                && visibleCategoryIds == old(visibleCategoryIds) - {id}
      ensures id != Uncategorized && !isSearching && old(VisibilitySettled()) ==> VisibilitySettled()
    {
      if !confirmed || !deleteSucceeded {
        return;
      }
      if id != Uncategorized {
        DeleteShrinksDefaultVisible(categories, id);
      }
      products := Uncategorize(products, id);
      filteredProducts := Uncategorize(filteredProducts, id);
      categories := RemoveCategory(categories, id);
      filteredCategories := RemoveCategory(filteredCategories, id);
      visibleCategoryIds := visibleCategoryIds - {id};
    }

    /** The blank-query branch of `handleSearch`: the search ends and the
        filtered lists and the visible set go back to the full ones. */
    method EndSearch()
      modifies this`isSearching, this`filteredProducts, this`filteredCategories, this`visibleCategoryIds
      ensures !isSearching && filteredProducts == products && filteredCategories == categories
      ensures visibleCategoryIds == DefaultVisible(categories) && VisibilitySettled()
    {
      isSearching := false;
      filteredProducts := products;
      filteredCategories := categories;
      visibleCategoryIds := DefaultVisible(categories);
    }

    /** The `try` block of `handleSearch`: the filtered lists and the visible
        set are replaced by the server's results as far as they arrive (None
        stands for a request that failed or threw). */
    method ShowResults(productResults: Option<seq<StoredProduct>>, categoryResults: Option<seq<Category>>)
      modifies this`filteredProducts, this`filteredCategories, this`visibleCategoryIds
      ensures productResults.None? ==>
                filteredProducts == old(filteredProducts) && filteredCategories == old(filteredCategories)
                && visibleCategoryIds == old(visibleCategoryIds)
      ensures productResults.Some? ==> filteredProducts == WithDefaultCategories(productResults.value)
      ensures productResults.Some? && categoryResults.None? ==>
                filteredCategories == old(filteredCategories) && visibleCategoryIds == old(visibleCategoryIds)
      ensures productResults.Some? && categoryResults.Some? ==>
                filteredCategories == categoryResults.value
                && visibleCategoryIds == Ids(filteredCategories) + ProductCategories(filteredProducts)
    {
      if productResults.Some? {
        filteredProducts := WithDefaultCategories(productResults.value);
        if categoryResults.Some? {
          filteredCategories := categoryResults.value;
          visibleCategoryIds := CollectVisible(filteredCategories, filteredProducts);
        }
      }
    }

    /** `handleSearch`. A query of only whitespace ends the search; any other
        query turns it on and shows the server's results. */
    method Search(query: string, productResults: Option<seq<StoredProduct>>, categoryResults: Option<seq<Category>>)
      modifies this`searchQuery, this`isSearching, this`filteredProducts, this`filteredCategories,
               this`visibleCategoryIds
      ensures searchQuery == query
      ensures isSearching <==> Trim(query) != ""
      ensures Trim(query) == "" ==>
                filteredProducts == products && filteredCategories == categories
                && visibleCategoryIds == DefaultVisible(categories) && VisibilitySettled()
      ensures Trim(query) != "" && productResults.None? ==>
                filteredProducts == old(filteredProducts) && filteredCategories == old(filteredCategories)
                && visibleCategoryIds == old(visibleCategoryIds)
      ensures Trim(query) != "" && productResults.Some? ==>
                filteredProducts == WithDefaultCategories(productResults.value)
      ensures Trim(query) != "" && productResults.Some? && categoryResults.None? ==>
                filteredCategories == old(filteredCategories) && visibleCategoryIds == old(visibleCategoryIds)
      ensures Trim(query) != "" && productResults.Some? && categoryResults.Some? ==>
                filteredCategories == categoryResults.value && VisibilitySettled()
    {
      searchQuery := query;
      isSearching := true;
      if Trim(query) == "" {
        EndSearch();
      } else {
        ShowResults(productResults, categoryResults);
      }
    }
  }
}
