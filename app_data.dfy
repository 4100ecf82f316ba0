/** The alternative state model `AppData` (src/components/AppApi.ts): the
    basket is a list of card objects compared by reference, the order form has
    four text fields, and the two validators fill one shared error map.
    Emitted events are recorded in a ghost trace. */
module AppDataModel {
  import opened Wrappers
  import opened Prices
  import opened Seqs
  import opened Forms

  /** A product card (`ICardItem`). `AppData` only reads its fields and
      compares cards by identity, so the fields are constants here. */
  class CardItem {
    const id: string
    const title: string
    const category: string
    const description: string
    const image: string
    const price: Option<int>
    const inBasket: bool
    const button: string

    constructor (id: string, title: string, category: string, description: string,
                 image: string, price: Option<int>, inBasket: bool, button: string)
      ensures this.id == id && this.title == title && this.category == category
      ensures this.description == description && this.image == image && this.price == price
      ensures this.inBasket == inBasket && this.button == button
    {
      this.id := id;
      this.title := title;
      this.category := category;
      this.description := description;
      this.image := image;
      this.price := price;
      this.inBasket := inBasket;
      this.button := button;
    }
  }

  /** The order form (`IOrderForm` of this file): four strings, all empty at first. */
  datatype OrderForm = OrderForm(payment: string, address: string, email: string, phone: string)

  const EmptyForm := OrderForm("", "", "", "")

  /** What an event carries; `NoData` where `emitChanges` is given no payload. */
  datatype Data =
    | BasketData(basket: seq<CardItem>)
    | CatalogData(catalog: seq<CardItem>)
    | CardData(item: CardItem)
    | OrderData(order: OrderForm)
    | ErrorsData(errors: FormErrors)
    | NoData

  datatype Emitted = Emitted(name: string, data: Data)

  const CounterChanged := "counter:changed"
  const BasketChanged := "basket:changed"
  const ItemsChanged := "items:changed"
  const PreviewChanged := "preview:changed"
  const FormErrorsChange := "form:errors:change"
  const ContactsReady := "contacts:ready"
  const OrderReady := "order:ready"

  const EmailRequired := "Нужно указать email"
  const PhoneRequired := "Нужно указать телефон"
  const PaymentRequired := "Укажите способ оплаты"
  const AddressRequired := "Укажите адрес"

  // ---------------------------------------------------------------------
  // The basket list

  /** `Array.prototype.indexOf`: the first position of `x`, or -1. */
  function IndexOf(s: seq<CardItem>, x: CardItem): (r: int)
    ensures -1 <= r < |s|
    ensures r < 0 <==> x !in s
    ensures r >= 0 ==> s[r] == x && x !in s[..r]
  {
    if s == [] then -1
    else if s[0] == x then 0
    else
      var k := IndexOf(s[1..], x);
      assert s == [s[0]] + s[1..];
      if k < 0 then -1
      else
        assert s[..k + 1] == [s[0]] + s[1..][..k];
        k + 1
  }

  /** The basket without the cards that carry `id`; the rest keep their order
      and their multiplicity. */
  function RemoveById(s: seq<CardItem>, id: string): (r: seq<CardItem>)
    ensures forall k :: 0 <= k < |r| ==> r[k] in s && r[k].id != id
    ensures forall k :: 0 <= k < |s| && s[k].id != id ==> s[k] in r
    ensures IsSubseq(r, s)
    ensures (forall k :: 0 <= k < |s| ==> s[k].id != id) ==> r == s
    ensures NoDup(s) ==> NoDup(r)
  {
    if s == [] then []
    else
      assert s == [s[0]] + s[1..];
      var rest := RemoveById(s[1..], id);
      NoDupCons(s[0], s[1..]);
      if s[0].id == id then rest
      else
        NoDupCons(s[0], rest);
        [s[0]] + rest
  }

  /** Removing by id drops every copy of each card with that id and keeps
      every copy of the others: the filter does not change multiplicities. */
  lemma {:induction false} RemoveByIdCount(s: seq<CardItem>, id: string, c: CardItem)
    ensures multiset(RemoveById(s, id))[c] == if c.id == id then 0 else multiset(s)[c]
  {
    if s != [] {
      assert s == [s[0]] + s[1..];
      RemoveByIdCount(s[1..], id, c);
    }
  }

  /** The cards of `s` that carry `id`, in order: what `RemoveById` drops. */
  ghost function WithId(s: seq<CardItem>, id: string): seq<CardItem>
  {
    if s == [] then []
    else (if s[0].id == id then [s[0]] else []) + WithId(s[1..], id)
  }

  /** What a card adds to the total price. */
  function PriceOf(item: CardItem): int
  {
    NullAsZero(item.price)
  }

  /** The reduce in `getTotalPrice`, left to right. */
  function PriceSum(s: seq<CardItem>): (r: int)
    ensures s == [] ==> r == 0
    ensures (forall k :: 0 <= k < |s| ==> PriceOf(s[k]) >= 0) ==> r >= 0
  {
    if s == [] then 0 else PriceSum(s[..|s| - 1]) + PriceOf(s[|s| - 1])
  }

  /** The price of two lists put together is the sum of their prices. */
  lemma {:induction false} PriceSumAppend(a: seq<CardItem>, b: seq<CardItem>)
    ensures PriceSum(a + b) == PriceSum(a) + PriceSum(b)
    decreases |b|
  {
    if b == [] {
      assert a + b == a;
    } else {
      var init := b[..|b| - 1];
      assert (a + b)[..|a + b| - 1] == a + init;
      assert (a + b)[|a + b| - 1] == b[|b| - 1];
      PriceSumAppend(a, init);
    }
  }

  /** Removing the cards with an id lowers the price by exactly their prices. */
  lemma {:induction false} PriceSumRemove(s: seq<CardItem>, id: string)
    ensures PriceSum(s) == PriceSum(RemoveById(s, id)) + PriceSum(WithId(s, id))
  {
    if s != [] {
      var t := s[1..];
      assert s == [s[0]] + t;
      PriceSumAppend([s[0]], t);
      assert PriceSum([s[0]]) == PriceOf(s[0]) by {
        assert [s[0]][..0] == [];
      }
      PriceSumRemove(t, id);
      if s[0].id == id {
        PriceSumAppend([s[0]], WithId(t, id));
      } else {
        PriceSumAppend([s[0]], RemoveById(t, id));
        assert WithId(s, id) == WithId(t, id);
      }
    }
  }

  // ---------------------------------------------------------------------
  // The order form and its two validation steps

  /** The delivery step is complete: payment and address are both non-empty. */
  predicate AddressReady(o: OrderForm)
  {
    o.payment != "" && o.address != ""
  }

  /** The contact step is complete: email and phone are both non-empty. */
  predicate ContactReady(o: OrderForm)
  {
    o.email != "" && o.phone != ""
  }

  /** The errors `validateAdress` reports for a form. */
  function AddressErrors(o: OrderForm): (r: FormErrors)
    ensures Payment in r <==> o.payment == ""
    ensures Address in r <==> o.address == ""
    ensures r.Keys <= {Payment, Address}
    ensures Payment in r ==> r[Payment] == PaymentRequired
    ensures Address in r ==> r[Address] == AddressRequired
    ensures r == map[] <==> AddressReady(o)
  {
    var p := if o.payment == "" then map[Payment := PaymentRequired] else map[];
    var a := if o.address == "" then map[Address := AddressRequired] else map[];
    var r := p + a;
    assert o.payment == "" ==> Payment in r;
    assert o.address == "" ==> Address in r;
    r
  }

  /** The errors `validateContact` reports for a form. */
  function ContactErrors(o: OrderForm): (r: FormErrors)
    ensures Email in r <==> o.email == ""
    ensures Phone in r <==> o.phone == ""
    ensures r.Keys <= {Email, Phone}
    ensures Email in r ==> r[Email] == EmailRequired
    ensures Phone in r ==> r[Phone] == PhoneRequired
    ensures r == map[] <==> ContactReady(o)
  {
    var e := if o.email == "" then map[Email := EmailRequired] else map[];
    var p := if o.phone == "" then map[Phone := PhoneRequired] else map[];
    var r := e + p;
    assert o.email == "" ==> Email in r;
    assert o.phone == "" ==> Phone in r;
    r
  }

  /** The value of one form field. */
  function FieldOf(o: OrderForm, f: Field): string
  {
    match f
    case Payment => o.payment
    case Address => o.address
    case Email => o.email
    case Phone => o.phone
  }

  /** The form with one field replaced by a new value. */
  function WithField(o: OrderForm, f: Field, v: string): (r: OrderForm)
    ensures FieldOf(r, f) == v
    ensures forall g :: g != f ==> FieldOf(r, g) == FieldOf(o, g)
  {
    match f
    case Payment => o.(payment := v)
    case Address => o.(address := v)
    case Email => o.(email := v)
    case Phone => o.(phone := v)
  }

  // ---------------------------------------------------------------------
  // The state

  class AppData {
    var basket: seq<CardItem>
    /** The catalog; `undefined` until `setCatalog` runs. */
    var items: Option<seq<CardItem>>
    var order: OrderForm
    /** `undefined` until `setPreview` runs. */
    var preview: Option<string>
    var formErrors: FormErrors
    /** The events emitted so far, oldest first. */
    ghost var events: seq<Emitted>

    /** The basket never holds the same card twice. */
    ghost predicate Valid()
      reads this
    {
      NoDup(basket)
    }

    constructor ()
      ensures Valid()
      ensures basket == [] && items == None && order == EmptyForm
      ensures preview == None && formErrors == map[] && events == []
    {
      basket := [];
      items := None;
      order := EmptyForm;
      preview := None;
      formErrors := map[];
      events := [];
    }

    /** Appends a card not yet in the basket and announces the basket;
        a card already there changes nothing and emits nothing. */
    method AddBasket(item: CardItem)
      modifies this
      ensures item in old(basket) ==> basket == old(basket) && events == old(events)
      ensures item !in old(basket) ==>
                basket == old(basket) + [item] &&
                events == old(events) + [Emitted(CounterChanged, BasketData(basket)),
                                         Emitted(BasketChanged, BasketData(basket))]
      ensures ProductOrder(item)
      ensures old(Valid()) ==> Valid()
      ensures GetTotalPrice() == old(GetTotalPrice()) + (if item in old(basket) then 0 else PriceOf(item))
      ensures items == old(items) && order == old(order)
      ensures preview == old(preview) && formErrors == old(formErrors)
    {
      if IndexOf(basket, item) < 0 {
        NoDupSnoc(basket, item);
        PriceSumAppend(basket, [item]);
        assert PriceSum([item]) == PriceOf(item) by {
          assert [item][..0] == [];
        }
        basket := basket + [item];
        UpdateBasket();
      }
    }

    /** Whether the card is in the basket (`includes`). */
    function ProductOrder(item: CardItem): (r: bool)
      reads this
      ensures r <==> IndexOf(basket, item) >= 0
      ensures r <==> exists k :: 0 <= k < |basket| && basket[k] == item
    {
      item in basket
    }

    /** Empties the basket and announces it. */
    method ClearBasket()
      modifies this
      ensures basket == [] && Valid()
      ensures events == old(events) + [Emitted(CounterChanged, BasketData([])),
                                       Emitted(BasketChanged, BasketData([]))]
      ensures items == old(items) && order == old(order)
      ensures preview == old(preview) && formErrors == old(formErrors)
    {
      basket := [];
      UpdateBasket();
    }

    /** Resets all four form fields to the empty string; emits nothing. */
    method ClearOrder()
      modifies this
      ensures order == EmptyForm
      ensures forall f :: FieldOf(order, f) == ""
      ensures basket == old(basket) && items == old(items) && preview == old(preview)
      ensures formErrors == old(formErrors) && events == old(events)
    {
      order := OrderForm("", "", "", "");
    }

    /** Announces the basket to the counter and to the basket view. */
    method UpdateBasket()
      modifies this
      ensures events == old(events) + [Emitted(CounterChanged, BasketData(basket)),
                                       Emitted(BasketChanged, BasketData(basket))]
      ensures basket == old(basket) && items == old(items) && order == old(order)
      ensures preview == old(preview) && formErrors == old(formErrors)
    {
      events := events + [Emitted(CounterChanged, BasketData(basket))];
      events := events + [Emitted(BasketChanged, BasketData(basket))];
    }

    /** Drops every card with this id, keeping the others in order, and
        announces the change without a payload. */
    method RemoveFromBasket(id: string)
      modifies this
      ensures basket == RemoveById(old(basket), id)
      ensures old(Valid()) ==> Valid()
      ensures GetTotalPrice() == old(GetTotalPrice()) - PriceSum(WithId(old(basket), id))
      ensures events == old(events) + [Emitted(BasketChanged, NoData)]
      ensures items == old(items) && order == old(order)
      ensures preview == old(preview) && formErrors == old(formErrors)
    {
      ghost var before := basket;
      PriceSumRemove(before, id);
      basket := RemoveById(basket, id);
      assert PriceSum(basket) == PriceSum(before) - PriceSum(WithId(before, id));
      assert NoDup(before) ==> NoDup(basket);
      events := events + [Emitted(BasketChanged, NoData)];
    }

    /** The basket itself. */
    function GetOrderProducts(): (r: seq<CardItem>)
      reads this
      ensures |r| == |basket|
      ensures forall k :: 0 <= k < |r| ==> ProductOrder(r[k])
      ensures forall k :: 0 <= k < |basket| ==> r[k] == basket[k]
    {
      basket
    }

    /** The sum of the basket's prices, a null price counting as 0. */
    function GetTotalPrice(): (r: int)
      reads this
      ensures basket == [] ==> r == 0
    {
      PriceSum(basket)
    }

    /** Replaces the catalog and announces it. */
    method SetCatalog(item: seq<CardItem>)
      modifies this
      ensures items == Some(item)
      ensures events == old(events) + [Emitted(ItemsChanged, CatalogData(item))]
      ensures basket == old(basket) && order == old(order)
      ensures preview == old(preview) && formErrors == old(formErrors)
    {
      items := Some(item);
      events := events + [Emitted(ItemsChanged, CatalogData(item))];
    }

    /** Marks a card as previewed and announces it with the whole card. */
    method SetPreview(item: CardItem)
      modifies this
      ensures preview == Some(item.id)
      ensures events == old(events) + [Emitted(PreviewChanged, CardData(item))]
      ensures basket == old(basket) && items == old(items)
      ensures order == old(order) && formErrors == old(formErrors)
    {
      preview := Some(item.id);
      events := events + [Emitted(PreviewChanged, CardData(item))];
    }

    /** Rebuilds the errors of the contact step, announces them, and reports
        whether there are none. */
    method ValidateContact() returns (ok: bool)
      modifies this
      ensures ok <==> ContactReady(order)
      ensures formErrors == ContactErrors(order)
      ensures ok <==> formErrors == map[]
      ensures events == old(events) + [Emitted(FormErrorsChange, ErrorsData(formErrors))]
      ensures basket == old(basket) && items == old(items)
      ensures order == old(order) && preview == old(preview)
    {
      var errors: FormErrors := map[];
      if order.email == "" {
        errors := errors[Email := EmailRequired];
      }
      if order.phone == "" {
        errors := errors[Phone := PhoneRequired];
      }
      assert errors == ContactErrors(order);
      formErrors := errors;
      events := events + [Emitted(FormErrorsChange, ErrorsData(formErrors))];
      ok := |errors| == 0;
      assert ok <==> errors == map[] by {
        if errors != map[] {
          var k :| k in errors;
          assert |errors| > 0;
        }
      }
    }

    /** Writes any form field, revalidates the contact step and signals
        `contacts:ready` when it passes. */
    method SetContactField(field: Field, value: string)
      modifies this
      ensures order == WithField(old(order), field, value)
      ensures formErrors == ContactErrors(order)
      ensures events == old(events) + [Emitted(FormErrorsChange, ErrorsData(formErrors))] +
                        (if ContactReady(order) then [Emitted(ContactsReady, OrderData(order))] else [])
      ensures basket == old(basket) && items == old(items) && preview == old(preview)
    {
      WriteField(field, value);
      var ok := ValidateContact();
      if ok {
        events := events + [Emitted(ContactsReady, OrderData(order))];
      }
    }

    /** Stores any of the four form fields, the payment included, without checking it. */
    method WriteField(field: Field, value: string)
      modifies this
      ensures order == WithField(old(order), field, value)
      ensures basket == old(basket) && items == old(items) && preview == old(preview)
      ensures formErrors == old(formErrors) && events == old(events)
    {
      match field
      case Payment => order := order.(payment := value);
      case Address => order := order.(address := value);
      case Email => order := order.(email := value);
      case Phone => order := order.(phone := value);
    }

    /** Rebuilds the errors of the delivery step, announces them, and reports
        whether there are none. */
    method ValidateAdress() returns (ok: bool)
      modifies this
      ensures ok <==> AddressReady(order)
      ensures formErrors == AddressErrors(order)
      ensures ok <==> formErrors == map[]
      ensures events == old(events) + [Emitted(FormErrorsChange, ErrorsData(formErrors))]
      ensures basket == old(basket) && items == old(items)
      ensures order == old(order) && preview == old(preview)
    {
      var errors: FormErrors := map[];
      if order.payment == "" {
        errors := errors[Payment := PaymentRequired];
      }
      if order.address == "" {
        errors := errors[Address := AddressRequired];
      }
      assert errors == AddressErrors(order);
      formErrors := errors;
      events := events + [Emitted(FormErrorsChange, ErrorsData(errors))];
      ok := |errors| == 0;
      assert ok <==> errors == map[] by {
        if errors != map[] {
          var k :| k in errors;
          assert |errors| > 0;
        }
      }
    }

    /** Writes any form field, revalidates the delivery step and signals
        `order:ready` when it passes. */
    method SetOrderField(field: Field, value: string)
      modifies this
      ensures order == WithField(old(order), field, value)
      ensures formErrors == AddressErrors(order)
      ensures events == old(events) + [Emitted(FormErrorsChange, ErrorsData(formErrors))] +
                        (if AddressReady(order) then [Emitted(OrderReady, OrderData(order))] else [])
      ensures basket == old(basket) && items == old(items) && preview == old(preview)
    {
      WriteField(field, value);
      var ok := ValidateAdress();
      if ok {
        events := events + [Emitted(OrderReady, OrderData(order))];
      }
    }

    /** Sets the payment method and revalidates the delivery step, without
        signalling `order:ready`. */
    method SetPaymentMethod(payment: string)
      modifies this
      ensures order == old(order).(payment := payment)
      ensures formErrors == AddressErrors(order)
      ensures events == old(events) + [Emitted(FormErrorsChange, ErrorsData(formErrors))]
      ensures basket == old(basket) && items == old(items) && preview == old(preview)
    {
      order := order.(payment := payment);
      var valid := ValidateAdress();
    }
  }
}
