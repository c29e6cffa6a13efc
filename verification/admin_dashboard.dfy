/** The administrator's dashboard (src/pages/AdminDashboard.jsx): the
    product and order collections it edits, the stat counters beside them,
    the add/edit form's draft, and the two filters over the collections.
    The dashboard data is handed to the constructor; where it comes from
    is not modelled. */
module AdminDashboard {
  import opened Opt
  import opened Seqs
  import opened Text
  import opened Numbers

  /** A price or stock value as the dashboard holds it: a number, the text
      typed into the form, or `NaN` from a failed parse. */
  datatype Scalar = Num(value: real) | Str(text: string) | NaN

  datatype AdminProduct = AdminProduct(
    id: int,
    name: string,
    description: string,
    price: Scalar,
    stock: Scalar,
    category: string,
    sku: string,
    image: string)

  /** The add/edit form (`newProduct`). */
  datatype Draft = Draft(
    name: string,
    description: string,
    price: Scalar,
    category: string,
    stock: Scalar,
    image: string,
    sku: string)

  /** The form's empty defaults. */
  const EmptyDraft := Draft("", "", Str(""), "electronics", Str(""), "", "")

  datatype Order = Order(
    id: int,
    customer: string,
    email: string,
    amount: real,
    status: string,
    date: string,
    items: int)

  datatype Stats = Stats(totalProducts: int, totalUsers: int, totalOrders: int, totalRevenue: real)

  /** `parseFloat(x)`: a number reads as itself; text is parsed. */
  function ParseFloatScalar(x: Scalar): (r: Scalar)
    ensures !r.Str?
    ensures x.Str? ==> (r.Num? <==> ParseFloat(x.text).Some?)
    ensures x.Str? && r.Num? ==> r.value == ParseFloat(x.text).value
    ensures x.Num? ==> r == x
  {
    match x
    case Num(v) => x
    case Str(s) => (match ParseFloat(s) case Some(v) => Num(v) case None => NaN)
    case NaN => NaN
  }

  /** Truncation toward zero. */
  function Truncate(v: real): (n: int)
    ensures v >= 0.0 ==> n as real <= v < n as real + 1.0
    ensures v <= 0.0 ==> n as real - 1.0 < v <= n as real
  {
    if v >= 0.0 then v.Floor else -((-v).Floor)
  }

  /** `parseInt(x)`: a number is truncated toward zero; text is parsed. */
  function ParseIntScalar(x: Scalar): (r: Scalar)
    ensures !r.Str?
    ensures r.Num? ==> r.value == r.value.Floor as real
    ensures x.Str? ==> (r.Num? <==> ParseInt(x.text).Some?)
    ensures x.Str? && r.Num? ==> r.value == ParseInt(x.text).value as real
  {
    match x
    case Num(v) => Num(Truncate(v) as real)
    case Str(s) => (match ParseInt(s) case Some(n) => Num(n as real) case None => NaN)
    case NaN => NaN
  }

  /** The edit path's record: the draft's fields as they are, plus `id`. */
  function WithId(d: Draft, id: int): (p: AdminProduct)
    ensures p.id == id && p.price == d.price && p.stock == d.stock
    ensures p.name == d.name && p.description == d.description && p.category == d.category
    ensures p.sku == d.sku && p.image == d.image
  {
    AdminProduct(id, d.name, d.description, d.price, d.stock, d.category, d.sku, d.image)
  }

  /** The form filled from a product, as the edit button does. */
  function DraftOf(p: AdminProduct): (d: Draft)
    ensures WithId(d, p.id) == p
  {
    Draft(p.name, p.description, p.price, p.category, p.stock, p.image, p.sku)
  }

  /** The sku of an added product: the typed one, or one made from the
      clock when none was typed. */
  function SkuFor(sku: string, now: nat): (r: string)
    ensures sku != "" ==> r == sku
    ensures sku == "" ==> |r| > 4 && r[..4] == "SKU-" && AllDigits(r[4..]) && DigitsValue(r[4..]) == now
  {
    ShowValue(now);
    if sku != "" then sku
    else
      var r := "SKU-" + Show(now);
      assert r[4..] == Show(now);
      r
  }

  /** The add path's record: id `id`, price and stock parsed, sku filled in. */
  function NewRecord(d: Draft, id: int, now: nat): (p: AdminProduct)
    ensures p.id == id
    ensures p.price == ParseFloatScalar(d.price) && p.stock == ParseIntScalar(d.stock)
    ensures p.sku == SkuFor(d.sku, now)
    ensures p.name == d.name && p.description == d.description && p.category == d.category && p.image == d.image
  {
    AdminProduct(id, d.name, d.description, ParseFloatScalar(d.price), ParseIntScalar(d.stock), d.category, SkuFor(d.sku, now), d.image)
  }

  /** Saving an edit: every record whose id is `id` becomes `replacement`;
      the others stay, in the same places. */
  function ReplaceById(products: seq<AdminProduct>, id: int, replacement: AdminProduct): (r: seq<AdminProduct>)
    ensures |r| == |products|
    ensures forall i :: 0 <= i < |r| && products[i].id == id ==> r[i] == replacement
    ensures forall i :: 0 <= i < |r| && products[i].id != id ==> r[i] == products[i]
  {
    if products == [] then []
    else [if products[0].id == id then replacement else products[0]] + ReplaceById(products[1..], id, replacement)
  }

  /** An edit keeps the list of ids, hence the ids the order depends on. */
  lemma EditKeepsIds(products: seq<AdminProduct>, id: int, d: Draft)
    ensures var r := ReplaceById(products, id, WithId(d, id));
      forall i :: 0 <= i < |r| ==> r[i].id == products[i].id
  {
  }

  /** Saving an unchanged form puts the product back as it was: the list is
      untouched when no other record shares the product's id. */
  lemma EditUnchangedIsNoOp(products: seq<AdminProduct>, p: AdminProduct)
    requires forall q :: q in products && q.id == p.id ==> q == p
    ensures ReplaceById(products, p.id, WithId(DraftOf(p), p.id)) == products
  {
    var r := ReplaceById(products, p.id, WithId(DraftOf(p), p.id));
    assert forall i :: 0 <= i < |r| ==> r[i] == products[i] by {
      forall i | 0 <= i < |r| ensures r[i] == products[i] {
        assert products[i] in products;
      }
    }
  }

  /** The edit path stores the form's values without parsing them: a price
      left as text stays text. */
  lemma EditKeepsText(products: seq<AdminProduct>, i: nat, d: Draft)
    requires i < |products| && d.price.Str?
    ensures ReplaceById(products, products[i].id, WithId(d, products[i].id))[i].price.Str?
  {
  }

  function HasNotId(id: int): AdminProduct -> bool
  {
    (p: AdminProduct) => p.id != id
  }

  /** Deleting a product: exactly the records with that id go, the rest
      keep their order. */
  function RemoveById(products: seq<AdminProduct>, id: int): (r: seq<AdminProduct>)
    ensures forall p :: p in r <==> p in products && p.id != id
    ensures |r| == Count(products, HasNotId(id))
    ensures multiset(r) <= multiset(products)
  {
    FilterLength(products, HasNotId(id));
    Filter(products, HasNotId(id))
  }

  /** A new product's id is the list length plus one, so after a delete it
      can repeat an id still in the list. */
  lemma NewIdMayRepeat(a: AdminProduct, b: AdminProduct, d: Draft, now: nat)
    requires a.id == 1 && b.id == 2
    ensures var kept := RemoveById([a, b], 1);
      var added := kept + [NewRecord(d, |kept| + 1, now)];
      |added| == 2 && added[0] == b && added[1].id == b.id
  {
    var kept := RemoveById([a, b], 1);
    assert Filter([a, b], HasNotId(1)) == [b] by {
      assert [a, b][1..] == [b];
      assert [b][1..] == [];
    }
  }

  function HasNotOrderId(id: int): Order -> bool
  {
    (o: Order) => o.id != id
  }

  /** Deleting an order: exactly the orders with that id go. */
  function RemoveOrderById(orders: seq<Order>, id: int): (r: seq<Order>)
    ensures forall o :: o in r <==> o in orders && o.id != id
    ensures |r| == Count(orders, HasNotOrderId(id))
    ensures multiset(r) <= multiset(orders)
  {
    FilterLength(orders, HasNotOrderId(id));
    Filter(orders, HasNotOrderId(id))
  }

  /** Updating an order's status: only the status of the orders with that
      id changes. */
  function SetOrderStatus(orders: seq<Order>, id: int, status: string): (r: seq<Order>)
    ensures |r| == |orders|
    ensures forall i :: 0 <= i < |r| ==> r[i] == orders[i].(status := r[i].status)
    ensures forall i :: 0 <= i < |r| && orders[i].id == id ==> r[i].status == status
    ensures forall i :: 0 <= i < |r| && orders[i].id != id ==> r[i] == orders[i]
  {
    if orders == [] then []
    else [if orders[0].id == id then orders[0].(status := status) else orders[0]] + SetOrderStatus(orders[1..], id, status)
  }

  /** Setting the same status twice is setting it once. */
  lemma {:induction false} SetOrderStatusIdempotent(orders: seq<Order>, id: int, status: string)
    ensures SetOrderStatus(SetOrderStatus(orders, id, status), id, status) == SetOrderStatus(orders, id, status)
  {
    if orders != [] {
      SetOrderStatusIdempotent(orders[1..], id, status);
    }
  }

  /** The product filter: the lower-cased search term occurs in the
      lower-cased name, description or sku, and the category matches
      (`"all"` admits every one). */
  predicate ProductMatches(p: AdminProduct, searchTerm: string, category: string)
  {
    var q := Lower(searchTerm);
    && (Contains(Lower(p.name), q) || Contains(Lower(p.description), q) || Contains(Lower(p.sku), q))
    && (category == "all" || p.category == category)
  }

  function ProductMatchesBy(searchTerm: string, category: string): AdminProduct -> bool
  {
    p => ProductMatches(p, searchTerm, category)
  }

  /** `handleApplyFilters`: the products that pass, in their order. */
  function FilterProducts(products: seq<AdminProduct>, searchTerm: string, category: string): (r: seq<AdminProduct>)
    ensures forall p :: p in r <==> p in products && ProductMatches(p, searchTerm, category)
    ensures category != "all" ==> forall p :: p in r ==> p.category == category
    ensures multiset(r) <= multiset(products)
  {
    Filter(products, ProductMatchesBy(searchTerm, category))
  }

  /** With no search term and every category, nothing is filtered out. */
  lemma NoFilterKeepsAll(products: seq<AdminProduct>)
    ensures FilterProducts(products, "", "all") == products
  {
    forall i | 0 <= i < |products| ensures ProductMatchesBy("", "all")(products[i]) {
      ContainsEmpty(Lower(products[i].name));
    }
    FilterKeepsAll(products, ProductMatchesBy("", "all"));
  }

  function HasStatus(status: string): Order -> bool
  {
    (o: Order) => o.status == status
  }

  /** `filteredOrders`: every order for `"all"`, otherwise the orders with
      that status, in their order. */
  function FilterOrders(orders: seq<Order>, orderFilter: string): (r: seq<Order>)
    ensures orderFilter == "all" ==> r == orders
    ensures orderFilter != "all" ==> forall o :: o in r <==> o in orders && o.status == orderFilter
    ensures orderFilter != "all" ==> |r| == Count(orders, HasStatus(orderFilter))
    ensures multiset(r) <= multiset(orders)
  {
    if orderFilter == "all" then orders
    else
      FilterLength(orders, HasStatus(orderFilter));
      Filter(orders, HasStatus(orderFilter))
  }

  /** The form's inputs. */
  datatype DraftInput = NameInput | SkuInput | PriceInput | StockInput | DescriptionInput | CategoryInput | ImageInput

  /** The form after `value` is typed into `input`: that input holds the
      text, every other input is as it was, and text stays text. */
  function Typed(d: Draft, input: DraftInput, value: string): (r: Draft)
    ensures input == NameInput ==> r == d.(name := value)
    ensures input == SkuInput ==> r == d.(sku := value)
    ensures input == PriceInput ==> r == d.(price := Str(value))
    ensures input == StockInput ==> r == d.(stock := Str(value))
    ensures input == DescriptionInput ==> r == d.(description := value)
    ensures input == CategoryInput ==> r == d.(category := value)
    ensures input == ImageInput ==> r == d.(image := value)
    ensures d.price.Str? && d.stock.Str? ==> r.price.Str? && r.stock.Str?
  {
    match input
    case NameInput => d.(name := value)
    case SkuInput => d.(sku := value)
    case PriceInput => d.(price := Str(value))
    case StockInput => d.(stock := Str(value))
    case DescriptionInput => d.(description := value)
    case CategoryInput => d.(category := value)
    case ImageInput => d.(image := value)
  }

  /** The dashboard's state. */
  class Dashboard {
    var stats: Stats
    var recentOrders: seq<Order>
    var products: seq<AdminProduct>
    var showAddProduct: bool
    var editingProduct: Option<AdminProduct>
    var searchTerm: string
    var selectedCategory: string
    var orderFilter: string
    var newProduct: Draft

    /** With no product being edited, the form's price and stock are text,
        as the form's inputs and the reset leave them; numbers only enter
        the form together with a product to edit. */
    predicate Valid()
      reads this`editingProduct, this`newProduct
    {
      editingProduct.None? ==> newProduct.price.Str? && newProduct.stock.Str?
    }

    /** The dashboard once its data has arrived: no filters, no product
        being edited, the form at its defaults and closed. */
    constructor(initialStats: Stats, orders: seq<Order>, initialProducts: seq<AdminProduct>)
      ensures stats == initialStats && recentOrders == orders && products == initialProducts
      ensures !showAddProduct && editingProduct == None && newProduct == EmptyDraft
      ensures searchTerm == "" && selectedCategory == "all" && orderFilter == "all"
      ensures Valid()
    {
      stats := initialStats;
      recentOrders := orders;
      products := initialProducts;
      showAddProduct := false;
      editingProduct := None;
      searchTerm := "";
      selectedCategory := "all";
      orderFilter := "all";
      newProduct := EmptyDraft;
    }

    /** Submitting the form. Editing replaces the records with the edited
        id by the form's fields; adding appends one record with id
        `|products| + 1` and counts it. Either way the form is reset and
        closed. `now` is the clock reading used for a missing sku; the
        message is the one the alert shows. Since the form holds text
        whenever no product is being edited, an added record's price and
        stock are numbers exactly when the typed text parses. */
    method HandleAddProduct(now: nat) returns (message: string)
      requires Valid()
      modifies this
      ensures old(editingProduct).Some? ==>
        var id := old(editingProduct).value.id;
        && products == ReplaceById(old(products), id, WithId(old(newProduct), id))
        && stats == old(stats)
        && message == "Product updated successfully!"
      ensures old(editingProduct).None? ==>
        && products == old(products) + [NewRecord(old(newProduct), |old(products)| + 1, now)]
        && stats == old(stats).(totalProducts := old(stats).totalProducts + 1)
        && message == "Product added successfully!"
      ensures old(editingProduct).None? ==>
        var added := products[|products| - 1];
        && (added.price.Num? <==> ParseFloat(old(newProduct).price.text).Some?)
        && (added.stock.Num? <==> ParseInt(old(newProduct).stock.text).Some?)
      ensures editingProduct == None && !showAddProduct && newProduct == EmptyDraft
      ensures recentOrders == old(recentOrders)
      ensures searchTerm == old(searchTerm) && selectedCategory == old(selectedCategory) && orderFilter == old(orderFilter)
      ensures Valid()
    {
      var wasEditing := editingProduct.Some?;
      if editingProduct.Some? {
        var id := editingProduct.value.id;
        products := ReplaceById(products, id, WithId(newProduct, id));
        editingProduct := None;
      } else {
        var productToAdd := NewRecord(newProduct, |products| + 1, now);
        assert productToAdd.price.Num? <==> ParseFloat(newProduct.price.text).Some?;
        assert productToAdd.stock.Num? <==> ParseInt(newProduct.stock.text).Some?;
        products := products + [productToAdd];
        assert products[|products| - 1] == productToAdd;
        stats := stats.(totalProducts := stats.totalProducts + 1);
      }
      showAddProduct := false;
      newProduct := EmptyDraft;
      message := if wasEditing then "Product updated successfully!" else "Product added successfully!";
    }

    /** Opening the form on `product`. */
    method HandleEditProduct(product: AdminProduct)
      modifies this
      ensures editingProduct == Some(product) && newProduct == DraftOf(product) && showAddProduct
      ensures products == old(products) && recentOrders == old(recentOrders) && stats == old(stats)
      ensures searchTerm == old(searchTerm) && selectedCategory == old(selectedCategory) && orderFilter == old(orderFilter)
      ensures Valid()
    {
      editingProduct := Some(product);
      newProduct := DraftOf(product);
      showAddProduct := true;
    }

    /** Deleting a product once the user has `confirmed` it. */
    method HandleDeleteProduct(id: int, confirmed: bool)
      modifies this`products, this`stats
      ensures confirmed ==> products == RemoveById(old(products), id)
      ensures confirmed ==> stats == old(stats).(totalProducts := old(stats).totalProducts - 1)
      ensures !confirmed ==> products == old(products) && stats == old(stats)
      ensures Valid() == old(Valid())
    {
      if confirmed {
        products := RemoveById(products, id);
        stats := stats.(totalProducts := stats.totalProducts - 1);
      }
    }

    /** Deleting an order once the user has `confirmed` it. */
    method HandleDeleteOrder(id: int, confirmed: bool)
      modifies this`recentOrders, this`stats
      ensures confirmed ==> recentOrders == RemoveOrderById(old(recentOrders), id)
      ensures confirmed ==> stats == old(stats).(totalOrders := old(stats).totalOrders - 1)
      ensures !confirmed ==> recentOrders == old(recentOrders) && stats == old(stats)
      ensures Valid() == old(Valid())
    {
      if confirmed {
        recentOrders := RemoveOrderById(recentOrders, id);
        stats := stats.(totalOrders := stats.totalOrders - 1);
      }
    }

    method HandleUpdateOrderStatus(orderId: int, newStatus: string)
      modifies this`recentOrders
      ensures recentOrders == SetOrderStatus(old(recentOrders), orderId, newStatus)
      ensures Valid() == old(Valid())
    {
      recentOrders := SetOrderStatus(recentOrders, orderId, newStatus);
    }

    method HandleClearFilters()
      modifies this`searchTerm, this`selectedCategory, this`orderFilter
      ensures searchTerm == "" && selectedCategory == "all" && orderFilter == "all"
      ensures Valid() == old(Valid())
    {
      searchTerm := "";
      selectedCategory := "all";
      orderFilter := "all";
    }

    /** The search box. */
    method SetSearchTerm(term: string)
      modifies this`searchTerm
      ensures searchTerm == term
      ensures Valid() == old(Valid())
    {
      searchTerm := term;
    }

    /** The category selector. */
    method SetSelectedCategory(category: string)
      modifies this`selectedCategory
      ensures selectedCategory == category
      ensures Valid() == old(Valid())
    {
      selectedCategory := category;
    }

    /** The order status selector. */
    method SetOrderFilter(filter: string)
      modifies this`orderFilter
      ensures orderFilter == filter
      ensures Valid() == old(Valid())
    {
      orderFilter := filter;
    }

    /** Typing into one of the form's inputs. */
    method SetDraftText(input: DraftInput, value: string)
      modifies this`newProduct
      ensures newProduct == Typed(old(newProduct), input, value)
      ensures old(Valid()) ==> Valid()
    {
      newProduct := Typed(newProduct, input, value);
    }

    /** The "Add Product" buttons open the form as it stands. */
    method OpenForm()
      modifies this`showAddProduct
      ensures showAddProduct
      ensures Valid() == old(Valid())
    {
      showAddProduct := true;
    }

    /** The form's cancel button: closes it, stops editing and resets it. */
    method CancelForm()
      modifies this`showAddProduct, this`editingProduct, this`newProduct
      ensures !showAddProduct && editingProduct == None && newProduct == EmptyDraft
      ensures Valid()
    {
      showAddProduct := false;
      editingProduct := None;
      newProduct := EmptyDraft;
    }

    /** The products the table shows. */
    function FilteredProducts(): (r: seq<AdminProduct>)
      reads this
      ensures forall p :: p in r <==> p in products && ProductMatches(p, searchTerm, selectedCategory)
    {
      FilterProducts(products, searchTerm, selectedCategory)
    }

    /** The orders the table shows. */
    function FilteredOrders(): (r: seq<Order>)
      reads this
      ensures orderFilter == "all" ==> r == recentOrders
      ensures orderFilter != "all" ==> forall o :: o in r <==> o in recentOrders && o.status == orderFilter
    {
      FilterOrders(recentOrders, orderFilter)
    }
  }

  /** `parseFloat("19.99")` reads 19.99. */
  lemma ParseFloatSample()
    ensures ParseFloat("19.99") == Some(19.99)
  {
    var s := "19.99";
    var sc := Scan(s);
    assert DigitRun(s) == 2 by {
      assert DigitRun(s[2..]) == 0;
      assert s[1..][1..] == s[2..];
    }
    assert sc.whole == "19";
    assert DigitRun(s[3..]) == 2 by {
      assert s[3..][1..][1..] == [];
    }
    assert sc.fraction == "99";
    assert DigitsValue("19") == 19 by {
      assert "19"[..1] == "1";
      assert "1"[..0] == "";
    }
    assert FractionValue("99") == 0.99 by {
      assert "99"[1..] == "9";
      assert "9"[1..] == "";
    }
  }

  /** An add records parsed values: price and stock become numbers or
      `NaN`, never text. */
  lemma AddedRecordIsParsed(d: Draft, id: int, now: nat)
    ensures !NewRecord(d, id, now).price.Str? && !NewRecord(d, id, now).stock.Str?
    ensures d.price == Str("19.99") ==> NewRecord(d, id, now).price == Num(19.99)
    ensures d.stock == Str("") ==> NewRecord(d, id, now).stock == NaN
  {
    if d.price == Str("19.99") {
      ParseFloatSample();
    }
  }
}
