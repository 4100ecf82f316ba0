/** The application state model `AppState` (src/components/AppData.ts): the
    catalog, the basket as a list of product ids inside the order draft, the
    previewed product and the validation errors of the two checkout steps.
    Emitted events are recorded in a ghost trace. */
module AppStateModel {
  import opened Wrappers
  import opened Prices
  import opened Seqs
  import opened Forms

  /** A catalog entry (`IProduct`); a null price is `None`. */
  datatype Product = Product(
    id: string,
    description: string,
    image: string,
    title: string,
    category: string,
    price: Option<int>)

  /** A product record as it arrives from the API client: the six catalog
      fields plus whatever other properties the server sent. */
  datatype ProductRecord = ProductRecord(
    id: string,
    description: string,
    image: string,
    title: string,
    category: string,
    price: Option<int>,
    rest: map<string, string>)

  datatype PaymentMethod = Cash | Online

  /** The order draft (`IOrder`); `items` is the basket, a list of product ids. */
  datatype Order = Order(
    email: string,
    phone: string,
    address: string,
    payment: Option<PaymentMethod>,
    items: seq<string>,
    total: int)

  const EmptyOrder := Order("", "", "", None, [], 0)

  /** What an event carries. */
  datatype Data =
    | CatalogData(catalog: seq<Product>)
    | ProductData(product: Product)
    | OrderData(order: Order)
    | ErrorsData(errors: FormErrors)

  datatype Emitted = Emitted(name: string, data: Data)

  const ItemsChanged := "items:changed"
  const PreviewChanged := "preview:changed"
  const OrderReady := "order:ready"
  const FormErrorsChange := "formErrors:change"
  const FormErrorsContactsChange := "formErrors:contactsChange"

  const PaymentRequired := "Необходимо указать способ оплаты"
  const AddressRequired := "Необходимо указать адрес"
  const EmailRequired := "Необходимо указать email"
  const PhoneRequired := "Необходимо указать телефон"

  // ---------------------------------------------------------------------
  // Catalog projection

  /** The catalog entry `setCatalog` builds from a record: the six display
      fields are copied and every other property of the record is dropped. */
  function Project(rec: ProductRecord): (r: Product)
    ensures r.id == rec.id && r.description == rec.description && r.image == rec.image
    ensures r.title == rec.title && r.category == rec.category && r.price == rec.price
  {
    Product(rec.id, rec.description, rec.image, rec.title, rec.category, rec.price)
  }

  /** The catalog `setCatalog` stores: one entry per record, in the same
      order, each a copy of that record's six display fields. */
  function Projected(items: seq<ProductRecord>): (r: seq<Product>)
    ensures |r| == |items|
    ensures forall i :: 0 <= i < |items| ==>
              r[i].id == items[i].id && r[i].description == items[i].description &&
              r[i].image == items[i].image && r[i].title == items[i].title &&
              r[i].category == items[i].category && r[i].price == items[i].price
  {
    seq(|items|, i requires 0 <= i < |items| => Project(items[i]))
  }

  /** A catalog entry seen as a record with no further properties. */
  function Embed(p: Product): ProductRecord
  {
    ProductRecord(p.id, p.description, p.image, p.title, p.category, p.price, map[])
  }

  /** Projecting loses only the extra properties: an entry put back through
      `setCatalog` comes out as it was, in the same place. */
  lemma ProjectedEmbedded(ps: seq<Product>)
    ensures Projected(seq(|ps|, i requires 0 <= i < |ps| => Embed(ps[i]))) == ps
  {
  }

  // ---------------------------------------------------------------------
  // Basket ids: the effect of `_.uniq` and `_.without`

  /** `_.uniq`: the list with every repeated element dropped after its first occurrence. */
  function Uniq(s: seq<string>): (r: seq<string>)
    ensures NoDup(r)
    ensures forall x :: x in r <==> x in s
    ensures |r| <= |s|
    decreases |s|
  {
    if s == [] then []
    else
      var init, last := s[..|s| - 1], s[|s| - 1];
      var u := Uniq(init);
      if last in init then u
      else
        NoDupSnoc(u, last);
        u + [last]
  }

  /** `_.without`: the list with every occurrence of `x` removed. */
  function Without(s: seq<string>, x: string): (r: seq<string>)
    ensures forall y :: y in r <==> y in s && y != x
    ensures multiset(r) == multiset(s)[x := 0]
    ensures IsSubseq(r, s)
    ensures x !in s ==> r == s
    ensures NoDup(s) ==> NoDup(r)
  {
    if s == [] then []
    else
      assert s == [s[0]] + s[1..];
      var w := Without(s[1..], x);
      NoDupCons(s[0], s[1..]);
      if s[0] == x then w
      else
        NoDupCons(s[0], w);
        [s[0]] + w
  }

  /** On a duplicate-free list `_.uniq` changes nothing. */
  lemma {:induction false} UniqOfNoDup(s: seq<string>)
    requires NoDup(s)
    ensures Uniq(s) == s
  {
    if s != [] {
      var init := s[..|s| - 1];
      assert s == init + [s[|s| - 1]];
      NoDupSnoc(init, s[|s| - 1]);
      UniqOfNoDup(init);
    }
  }

  /** Dropping repeats keeps first occurrences, so an id appended to a list
      either is already there or lands at the end. */
  lemma {:induction false} UniqSnoc(s: seq<string>, x: string)
    ensures Uniq(s + [x]) == if x in s then Uniq(s) else Uniq(s) + [x]
  {
    assert (s + [x])[..|s|] == s;
  }

  /** Including an id into a duplicate-free basket: unchanged if present,
      appended at the end otherwise; the basket stays duplicate-free. */
  lemma Include(s: seq<string>, x: string)
    requires NoDup(s)
    ensures Uniq(s + [x]) == if x in s then s else s + [x]
  {
    UniqSnoc(s, x);
    UniqOfNoDup(s);
  }

  /** Excluding the first of the ids still to be excluded leaves only the later ones. */
  lemma ExcludeFirst(s: seq<string>, todo: seq<string>)
    requires todo != []
    requires forall y :: y in s ==> y in todo
    ensures forall y :: y in Without(s, todo[0]) ==> y in todo[1..]
  {
    var w := Without(s, todo[0]);
    forall y | y in w ensures y in todo[1..] {
      assert y in todo && y != todo[0];
      var k :| 0 <= k < |todo| && todo[k] == y;
      assert todo[1..][k - 1] == y;
    }
  }

  /** Including the same id twice leaves exactly one occurrence of it, however
      the basket looked before. */
  lemma IncludeTwice(s: seq<string>, x: string)
    ensures Uniq(Uniq(s + [x]) + [x]) == Uniq(s + [x])
    ensures multiset(Uniq(s + [x]))[x] == 1
  {
    var once := Uniq(s + [x]);
    assert x in s + [x];
    Include(once, x);
    NoDupOccursOnce(once, x);
  }

  // ---------------------------------------------------------------------
  // Catalog lookup, totals and the selected items

  /** No catalog entry has a negative price. */
  ghost predicate NonNegPrices(catalog: seq<Product>)
  {
    forall p :: p in catalog ==> PriceOf(p) >= 0
  }

  /** Some catalog entry has this id. */
  ghost predicate HasId(catalog: seq<Product>, id: string)
  {
    exists p :: p in catalog && p.id == id
  }

  /** The first catalog entry with the given id, or `None` when there is none. */
  function Lookup(catalog: seq<Product>, id: string): (r: Option<Product>)
    ensures r.Some? <==> HasId(catalog, id)
    ensures r.Some? ==> r.value in catalog && r.value.id == id
  {
    if catalog == [] then None
    else if catalog[0].id == id then Some(catalog[0])
    else
      assert catalog == [catalog[0]] + catalog[1..];
      Lookup(catalog[1..], id)
  }

  /** `find` stops at the first entry with the id: the entry at position `k`
      is found when no earlier entry has the id. */
  lemma {:induction false} LookupFirst(catalog: seq<Product>, id: string, k: nat)
    requires k < |catalog| && catalog[k].id == id
    requires forall j :: 0 <= j < k ==> catalog[j].id != id
    ensures Lookup(catalog, id) == Some(catalog[k])
  {
    if k > 0 {
      var rest := catalog[1..];
      assert catalog[0].id != id;
      forall j | 0 <= j < k - 1 ensures rest[j].id != id {
        assert rest[j] == catalog[j + 1];
      }
      LookupFirst(rest, id, k - 1);
    }
  }

  /** What a catalog entry adds to the total. */
  function PriceOf(p: Product): int
  {
    NullAsZero(p.price)
  }

  /** The reduce in `getTotal` over `ids`, left to right; `None` when some id
      has no catalog entry, where `find(...).price` throws. */
  function TotalOf(ids: seq<string>, catalog: seq<Product>): (r: Option<int>)
    ensures ids == [] ==> r == Some(0)
    decreases |ids|
  {
    if ids == [] then Some(0)
    else
      var init := ids[..|ids| - 1];
      match TotalOf(init, catalog)
      case None => None
      case Some(a) =>
        match Lookup(catalog, ids[|ids| - 1])
        case None => None
        case Some(p) => Some(a + PriceOf(p))
  }

  /** With no negative price in the catalog, a defined total is never negative. */
  lemma {:induction false} TotalOfNonNeg(ids: seq<string>, catalog: seq<Product>)
    requires NonNegPrices(catalog)
    ensures TotalOf(ids, catalog).Some? ==> TotalOf(ids, catalog).value >= 0
    decreases |ids|
  {
    if ids != [] {
      TotalOfNonNeg(ids[..|ids| - 1], catalog);
    }
  }

  /** The total is defined exactly when every basket id has a catalog entry. */
  lemma {:induction false} TotalOfDefined(ids: seq<string>, catalog: seq<Product>)
    ensures TotalOf(ids, catalog).Some? <==> forall i :: 0 <= i < |ids| ==> HasId(catalog, ids[i])
    decreases |ids|
  {
    if ids != [] {
      var init := ids[..|ids| - 1];
      TotalOfDefined(init, catalog);
      assert forall i :: 0 <= i < |init| ==> init[i] == ids[i];
    }
  }

  /** The total of a basket is the total of all but its last id plus the last one's price. */
  lemma {:induction false} TotalOfSnoc(t: seq<string>, x: string, catalog: seq<Product>)
    ensures TotalOf(t + [x], catalog) ==
            if TotalOf(t, catalog).Some? && Lookup(catalog, x).Some?
            then Some(TotalOf(t, catalog).value + PriceOf(Lookup(catalog, x).value))
            else None
  {
    var s := t + [x];
    assert s[..|s| - 1] == t;
    assert s[|s| - 1] == x;
  }

  /** The total of a basket is the total of its first id plus that of the rest. */
  lemma {:induction false} TotalOfCons(x: string, t: seq<string>, catalog: seq<Product>)
    requires HasId(catalog, x)
    ensures TotalOf([x] + t, catalog) ==
            if TotalOf(t, catalog).Some?
            then Some(PriceOf(Lookup(catalog, x).value) + TotalOf(t, catalog).value)
            else None
    decreases |t|
  {
    var s := [x] + t;
    if t != [] {
      var init := t[..|t| - 1];
      assert s[..|s| - 1] == [x] + init;
      assert s[|s| - 1] == t[|t| - 1];
      TotalOfCons(x, init, catalog);
    } else {
      assert s[..|s| - 1] == [];
    }
  }

  /** The total after including a catalog id into a duplicate-free basket
      grows by that product's price when the id was new, and not at all when
      it was there already. */
  lemma TotalAfterInclude(ids: seq<string>, catalog: seq<Product>, id: string)
    requires NoDup(ids) && HasId(catalog, id)
    ensures TotalOf(Uniq(ids + [id]), catalog) ==
            if TotalOf(ids, catalog).None? then None
            else if id in ids then TotalOf(ids, catalog)
            else Some(TotalOf(ids, catalog).value + PriceOf(Lookup(catalog, id).value))
  {
    Include(ids, id);
    if id !in ids {
      TotalOfSnoc(ids, id, catalog);
    }
  }

  /** Excluding an id from a basket whose ids are all in the catalog lowers
      the total by that product's price once for every occurrence removed. */
  lemma {:induction false} TotalAfterExclude(ids: seq<string>, catalog: seq<Product>, id: string)
    requires TotalOf(ids, catalog).Some?
    ensures TotalOf(Without(ids, id), catalog).Some?
    ensures TotalOf(ids, catalog).value ==
            TotalOf(Without(ids, id), catalog).value +
            multiset(ids)[id] * (if HasId(catalog, id) then PriceOf(Lookup(catalog, id).value) else 0)
  {
    if ids != [] {
      var h, t := ids[0], ids[1..];
      assert ids == [h] + t;
      TotalOfDefined(ids, catalog);
      assert HasId(catalog, ids[0]);
      var price := if HasId(catalog, id) then PriceOf(Lookup(catalog, id).value) else 0;
      TotalOfCons(h, t, catalog);
      TotalAfterExclude(t, catalog, id);
      var n := multiset(t)[id];
      var rest := TotalOf(Without(t, id), catalog).value;
      assert TotalOf(t, catalog).value == rest + n * price;
      if h == id {
        assert Without(ids, id) == Without(t, id);
        assert multiset(ids)[id] == n + 1;
        assert TotalOf(ids, catalog).value == price + rest + n * price;
        MulSucc(n, price);
      } else {
        assert Without(ids, id) == [h] + Without(t, id);
        assert multiset(ids)[id] == n;
        TotalOfCons(h, Without(t, id), catalog);
        assert TotalOf(Without(ids, id), catalog).value == PriceOf(Lookup(catalog, h).value) + rest;
      }
    }
  }

  /** One more occurrence adds one more price; kept apart so that the
      nonlinear step stays out of the larger proof above. */
  lemma MulSucc(n: int, p: int)
    ensures (n + 1) * p == n * p + p
  {
  }

  /** The example basket: prices 100 and 250 make a total of 350. */
  lemma TotalExample()
    ensures TotalOf(["a", "b"], [Product("a", "", "", "", "", Some(100)),
                                 Product("b", "", "", "", "", Some(250))]) == Some(350)
  {
    var catalog := [Product("a", "", "", "", "", Some(100)), Product("b", "", "", "", "", Some(250))];
    assert ["a", "b"][..1] == ["a"];
    assert ["a"][..0] == [];
    assert Lookup(catalog, "b") == Some(catalog[1]);
  }

  /** The catalog entries whose id occurs in the basket ids, kept in catalog
      order and with their multiplicity in the catalog. */
  function Selected(catalog: seq<Product>, ids: seq<string>): (r: seq<Product>)
    ensures IsSubseq(r, catalog)
    ensures forall p :: p in r <==> p in catalog && p.id in ids
    ensures forall p :: multiset(r)[p] == if p.id in ids then multiset(catalog)[p] else 0
  {
    if catalog == [] then []
    else
      assert catalog == [catalog[0]] + catalog[1..];
      var rest := Selected(catalog[1..], ids);
      if catalog[0].id in ids then [catalog[0]] + rest else rest
  }

  /** No two catalog entries share an id. */
  ghost predicate UniqueIds(catalog: seq<Product>)
  {
    forall i, j :: 0 <= i < j < |catalog| ==> catalog[i].id != catalog[j].id
  }

  /** The basket ids the catalog has an entry for. */
  ghost function KnownIds(catalog: seq<Product>, ids: seq<string>): set<string>
  {
    set x | x in ids && HasId(catalog, x)
  }

  lemma KnownIdsCons(p: Product, rest: seq<Product>, ids: seq<string>)
    ensures KnownIds([p] + rest, ids) ==
            KnownIds(rest, ids) + (if p.id in ids then {p.id} else {})
  {
    var c := [p] + rest;
    forall x ensures HasId(c, x) <==> p.id == x || HasId(rest, x) {
      if HasId(rest, x) {
        var q :| q in rest && q.id == x;
        assert q in c;
      }
      if HasId(c, x) && p.id != x {
        var q :| q in c && q.id == x;
        assert q in rest;
      }
      if p.id == x {
        assert p in c;
      }
    }
  }

  /** The tail of a catalog with unique ids has unique ids and lacks the head's id. */
  lemma UniqueIdsTail(catalog: seq<Product>)
    requires catalog != [] && UniqueIds(catalog)
    ensures UniqueIds(catalog[1..]) && !HasId(catalog[1..], catalog[0].id)
  {
    var rest := catalog[1..];
    forall i, j | 0 <= i < j < |rest| ensures rest[i].id != rest[j].id {
      assert rest[i] == catalog[i + 1] && rest[j] == catalog[j + 1];
    }
    forall q | q in rest ensures q.id != catalog[0].id {
      var k :| 0 <= k < |rest| && rest[k] == q;
      assert catalog[k + 1] == q;
    }
  }

  /** With unique catalog ids, the selection has one entry per basket id
      that the catalog knows. */
  lemma {:induction false} SelectedCount(catalog: seq<Product>, ids: seq<string>)
    requires UniqueIds(catalog)
    ensures |Selected(catalog, ids)| == |KnownIds(catalog, ids)|
  {
    if catalog != [] {
      var p, rest := catalog[0], catalog[1..];
      assert catalog == [p] + rest;
      UniqueIdsTail(catalog);
      SelectedCount(rest, ids);
      KnownIdsCons(p, rest, ids);
      var known := KnownIds(rest, ids);
      assert p.id !in known;
      if p.id in ids {
        assert Selected(catalog, ids) == [p] + Selected(rest, ids);
        assert |known + {p.id}| == |known| + 1;
      } else {
        assert Selected(catalog, ids) == Selected(rest, ids);
      }
    } else {
      assert KnownIds(catalog, ids) == {};
    }
  }

  // ---------------------------------------------------------------------
  // The order draft and its two validation steps

  /** The delivery step is complete: a payment method is chosen and an address given. */
  predicate DeliveryReady(o: Order)
  {
    o.payment.Some? && o.address != ""
  }

  /** The contact step is complete: both email and phone are given. */
  predicate ContactsReady(o: Order)
  {
    o.email != "" && o.phone != ""
  }

  /** The errors `validateOrder` reports for a draft. */
  function OrderErrors(o: Order): (r: FormErrors)
    ensures Payment in r <==> o.payment.None?
    ensures Address in r <==> o.address == ""
    ensures r.Keys <= {Payment, Address}
    ensures Payment in r ==> r[Payment] == PaymentRequired
    ensures Address in r ==> r[Address] == AddressRequired
    ensures r == map[] <==> DeliveryReady(o)
  {
    var p := if o.payment.None? then map[Payment := PaymentRequired] else map[];
    var a := if o.address == "" then map[Address := AddressRequired] else map[];
    var r := p + a;
    assert o.payment.None? ==> Payment in r;
    assert o.address == "" ==> Address in r;
    r
  }

  /** The errors `validateContacts` reports for a draft. */
  function ContactErrors(o: Order): (r: FormErrors)
    ensures Email in r <==> o.email == ""
    ensures Phone in r <==> o.phone == ""
    ensures r.Keys <= {Email, Phone}
    ensures Email in r ==> r[Email] == EmailRequired
    ensures Phone in r ==> r[Phone] == PhoneRequired
    ensures r == map[] <==> ContactsReady(o)
  {
    var e := if o.email == "" then map[Email := EmailRequired] else map[];
    var p := if o.phone == "" then map[Phone := PhoneRequired] else map[];
    var r := e + p;
    assert o.email == "" ==> Email in r;
    assert o.phone == "" ==> Phone in r;
    r
  }

  /** The value of a text field of the draft. */
  function TextOf(o: Order, f: Field): string
    requires f != Payment
  {
    match f
    case Address => o.address
    case Email => o.email
    case Phone => o.phone
  }

  /** The draft with one text field replaced; the payment is never written this way. */
  function SetText(o: Order, f: Field, v: string): (r: Order)
    ensures r.payment == o.payment && r.items == o.items && r.total == o.total
    ensures f == Payment ==> r == o
    ensures f != Payment ==> TextOf(r, f) == v
    ensures forall g :: g != Payment && g != f ==> TextOf(r, g) == TextOf(o, g)
  {
    match f
    case Payment => o
    case Address => o.(address := v)
    case Email => o.(email := v)
    case Phone => o.(phone := v)
  }

  // ---------------------------------------------------------------------
  // The state

  class AppState {
    /** `undefined` until `setCatalog` runs. */
    var catalog: Option<seq<Product>>
    var order: Order
    /** `undefined` until `setPreview` runs. */
    var preview: Option<string>
    var formErrors: FormErrors
    /** The events emitted so far, oldest first. */
    ghost var events: seq<Emitted>

    /** The basket never holds an id twice. */
    ghost predicate Valid()
      reads this
    {
      NoDup(order.items)
    }

    constructor ()
      ensures Valid()
      ensures catalog == None && order == EmptyOrder && preview == None
      ensures formErrors == map[] && events == []
    {
      catalog := None;
      order := EmptyOrder;
      preview := None;
      formErrors := map[];
      events := [];
    }

    /** Replaces the catalog by the projection of `items` and announces it. */
    method SetCatalog(items: seq<ProductRecord>)
      modifies this
      ensures catalog.Some? && |catalog.value| == |items|
      ensures forall i :: 0 <= i < |items| ==>
                var p := catalog.value[i];
                p.id == items[i].id && p.description == items[i].description &&
                p.image == items[i].image && p.title == items[i].title &&
                p.category == items[i].category && p.price == items[i].price
      ensures events == old(events) + [Emitted(ItemsChanged, CatalogData(catalog.value))]
      ensures order == old(order) && preview == old(preview) && formErrors == old(formErrors)
    {
      catalog := Some(Projected(items));
      events := events + [Emitted(ItemsChanged, CatalogData(catalog.value))];
    }

    /** Marks a product as previewed and announces it with the whole product. */
    method SetPreview(item: Product)
      modifies this
      ensures preview == Some(item.id)
      ensures events == old(events) + [Emitted(PreviewChanged, ProductData(item))]
      ensures catalog == old(catalog) && order == old(order) && formErrors == old(formErrors)
    {
      preview := Some(item.id);
      events := events + [Emitted(PreviewChanged, ProductData(item))];
    }

    /** Includes `id` in the basket (`_.uniq`) or excludes it (`_.without`); emits nothing. */
    method ToggleOrderedItem(id: string, isIncluded: bool)
      modifies this
      ensures order == old(order).(items := order.items)
      ensures isIncluded ==> order.items == Uniq(old(order.items) + [id])
      ensures !isIncluded ==> order.items == Without(old(order.items), id)
      ensures old(Valid()) && isIncluded ==>
                order.items == if id in old(order.items) then old(order.items) else old(order.items) + [id]
      ensures isIncluded || old(Valid()) ==> Valid()
      ensures catalog == old(catalog) && preview == old(preview)
      ensures formErrors == old(formErrors) && events == old(events)
    {
      if isIncluded {
        order := order.(items := Uniq(order.items + [id]));
        if old(Valid()) {
          Include(old(order.items), id);
        }
      } else {
        order := order.(items := Without(order.items, id));
      }
    }

    /** Excludes every id of the basket, one toggle at a time, walking the
        list as it was when the call began. */
    method ClearBasket()
      modifies this
      ensures order == old(order).(items := [])
      ensures Valid()
      ensures catalog == old(catalog) && preview == old(preview)
      ensures formErrors == old(formErrors) && events == old(events)
    {
      var ids := order.items;
      for i := 0 to |ids|
        invariant forall y :: y in order.items ==> y in ids[i..]
        invariant order == old(order).(items := order.items)
        invariant catalog == old(catalog) && preview == old(preview)
        invariant formErrors == old(formErrors) && events == old(events)
      {
        ExcludeFirst(order.items, ids[i..]);
        ToggleOrderedItem(ids[i], false);
      }
      assert ids[|ids|..] == [];
      assert Elements(order.items) == {};
      EmptyElements(order.items);
    }

    /** The basket's total price against the current catalog; `None` where the
        reduce throws because an id has no catalog entry (or there is no
        catalog yet and the basket is not empty). */
    function GetTotal(): (r: Option<int>)
      reads this
      ensures r.Some? <==>
                (order.items == [] ||
                 (catalog.Some? && forall i :: 0 <= i < |order.items| ==> HasId(catalog.value, order.items[i])))
      ensures order.items == [] ==> r == Some(0)
      ensures catalog.Some? ==> r == TotalOf(order.items, catalog.value)
    {
      match catalog
      case None => if order.items == [] then Some(0) else None
      case Some(c) => TotalOfDefined(order.items, c); TotalOf(order.items, c)
    }

    /** The `total` setter. */
    method SetTotal(total: int)
      modifies this
      ensures order == old(order).(total := total)
      ensures catalog == old(catalog) && preview == old(preview)
      ensures formErrors == old(formErrors) && events == old(events)
    {
      order := order.(total := total);
    }

    /** The number of ids in the basket. */
    function ItemCount(): (r: nat)
      reads this
      ensures r == 0 <==> order.items == []
    {
      |order.items|
    }

    /** Since the basket never holds an id twice, the item count is the
        number of distinct products in it. */
    lemma ItemCountIsDistinct()
      requires Valid()
      ensures ItemCount() == |Elements(order.items)|
    {
      NoDupLength(order.items);
    }

    /** The catalog entries whose id is in the basket, in catalog order;
        `None` where `filter` on the undefined catalog throws. */
    function GetSelectedItems(): (r: Option<seq<Product>>)
      reads this
      ensures r.Some? <==> catalog.Some?
      ensures r.Some? ==> IsSubseq(r.value, catalog.value)
      ensures r.Some? ==> forall p :: p in r.value <==> p in catalog.value && p.id in order.items
    {
      match catalog
      case None => None
      case Some(c) => Some(Selected(c, order.items))
    }

    /** When the catalog has unique ids and knows every basket id, the
        selected items are as many as the item count. */
    lemma SelectedItemsMatchCount()
      requires Valid() && catalog.Some? && UniqueIds(catalog.value)
      requires forall i :: 0 <= i < |order.items| ==> HasId(catalog.value, order.items[i])
      ensures GetSelectedItems().Some? && |GetSelectedItems().value| == ItemCount()
    {
      var c, ids := catalog.value, order.items;
      SelectedCount(c, ids);
      assert KnownIds(c, ids) == Elements(ids);
      NoDupLength(ids);
    }

    /** Writes a delivery-form field (never the payment), revalidates the
        delivery step and signals `order:ready` when it passes. */
    method SetOrderField(field: Field, value: string)
      modifies this
      ensures order == SetText(old(order), field, value)
      ensures formErrors == OrderErrors(order)
      ensures events == old(events) + [Emitted(FormErrorsChange, ErrorsData(formErrors))] +
                        (if DeliveryReady(order) then [Emitted(OrderReady, OrderData(order))] else [])
      ensures catalog == old(catalog) && preview == old(preview)
    {
      WriteText(field, value);
      var ok := ValidateOrder();
      if ok {
        events := events + [Emitted(OrderReady, OrderData(order))];
      }
    }

    /** Stores a text field of the draft; a write aimed at the payment is ignored. */
    method WriteText(field: Field, value: string)
      modifies this
      ensures order == SetText(old(order), field, value)
      ensures catalog == old(catalog) && preview == old(preview)
      ensures formErrors == old(formErrors) && events == old(events)
    {
      match field
      case Payment =>
      case Address => order := order.(address := value);
      case Email => order := order.(email := value);
      case Phone => order := order.(phone := value);
    }

    /** Chooses the payment method; revalidates nothing and emits nothing. */
    method SetPaymentField(payment: PaymentMethod)
      modifies this
      ensures order == old(order).(payment := Some(payment))
      ensures catalog == old(catalog) && preview == old(preview)
      ensures formErrors == old(formErrors) && events == old(events)
    {
      order := order.(payment := Some(payment));
    }

    /** Rebuilds the errors of the delivery step, announces them, and reports
        whether there are none. */
    method ValidateOrder() returns (ok: bool)
      modifies this
      ensures ok <==> DeliveryReady(order)
      ensures formErrors == OrderErrors(order)
      ensures ok <==> formErrors == map[]
      ensures events == old(events) + [Emitted(FormErrorsChange, ErrorsData(formErrors))]
      ensures catalog == old(catalog) && order == old(order) && preview == old(preview)
    {
      var errors: FormErrors := map[];
      if order.payment == None {
        errors := errors[Payment := PaymentRequired];
      }
      if order.address == "" {
        errors := errors[Address := AddressRequired];
      }
      assert errors == OrderErrors(order);
      formErrors := errors;
      events := events + [Emitted(FormErrorsChange, ErrorsData(formErrors))];
      ok := |errors| == 0;
      assert ok <==> errors == map[] by {
        if errors != map[] {
          var k :| k in errors;
          assert |errors| > 0;
        }
      }
    }

    /** Writes a contact-form field (never the payment), revalidates the
        contact step and signals `order:ready` when it passes. */
    method SetContactField(field: Field, value: string)
      modifies this
      ensures order == SetText(old(order), field, value)
      ensures formErrors == ContactErrors(order)
      ensures events == old(events) + [Emitted(FormErrorsContactsChange, ErrorsData(formErrors))] +
                        (if ContactsReady(order) then [Emitted(OrderReady, OrderData(order))] else [])
      ensures catalog == old(catalog) && preview == old(preview)
    {
      WriteText(field, value);
      var ok := ValidateContacts();
      if ok {
        events := events + [Emitted(OrderReady, OrderData(order))];
      }
    }

    /** Rebuilds the errors of the contact step, announces them, and reports
        whether there are none. */
    method ValidateContacts() returns (ok: bool)
      modifies this
      ensures ok <==> ContactsReady(order)
      ensures formErrors == ContactErrors(order)
      ensures ok <==> formErrors == map[]
      ensures events == old(events) + [Emitted(FormErrorsContactsChange, ErrorsData(formErrors))]
      ensures catalog == old(catalog) && order == old(order) && preview == old(preview)
    {
      var errors: FormErrors := map[];
      if order.email == "" {
        errors := errors[Email := EmailRequired];
      }
      if order.phone == "" {
        errors := errors[Phone := PhoneRequired];
      }
      assert errors == ContactErrors(order);
      formErrors := errors;
      events := events + [Emitted(FormErrorsContactsChange, ErrorsData(formErrors))];
      ok := |errors| == 0;
      assert ok <==> errors == map[] by {
        if errors != map[] {
          var k :| k in errors;
          assert |errors| > 0;
        }
      }
    }
  }
}
