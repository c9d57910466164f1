/**
 * The price-collusion kiosk (components/PriceCollusionExperience.tsx): a
 * keyed shopping cart, its total, the "honest" total without the 25%
 * collusion markup, the difference and the comparison it is shown against,
 * and the receipt lines revealed one per tick.
 */
module PriceCollusion {
  import opened Wrappers

  datatype Product = Product(id: string, name: string, price: nat)

  datatype CartItem = CartItem(product: Product, quantity: int)

  const PRODUCTS: seq<Product> := [
    Product("flour", "밀가루 1kg", 2500),
    Product("sugar", "설탕 1kg", 2800),
    Product("bread", "우유 식빵", 3500),
    Product("ramen", "라면 (5개입)", 4500)
  ]

  // ---------------------------------------------------------------------------
  // Totals

  /** `cart.reduce((acc, p) => acc + p.price * p.quantity, 0)`. */
  function Total(cart: seq<CartItem>): (t: int)
    ensures cart == [] ==> t == 0
    ensures (forall i :: 0 <= i < |cart| ==> cart[i].quantity >= 1) ==> t >= 0
  {
    if cart == [] then 0
    else cart[0].product.price * cart[0].quantity + Total(cart[1..])
  }

  lemma {:induction false} TotalAppend(a: seq<CartItem>, b: seq<CartItem>)
    ensures Total(a + b) == Total(a) + Total(b)
  {
    if a != [] {
      assert (a + b)[1..] == a[1..] + b;
      TotalAppend(a[1..], b);
    } else {
      assert a + b == b;
    }
  }

  /** `Math.round(n / d)` for a positive `d`: the nearest integer, halves
      rounded up. */
  function RoundHalfUp(n: int, d: int): (r: int)
    requires d > 0
    ensures 2 * r * d - d <= 2 * n < 2 * r * d + d
  {
    (2 * n + d) / (2 * d)
  }

  /** `Math.round(total * 0.75 / 10) * 10`: three quarters of the total,
      rounded to the nearest multiple of 10 (halves up). */
  function HonestTotal(total: int): (h: int)
    ensures h % 10 == 0
    ensures -20 < 4 * h - 3 * total <= 20
  {
    10 * RoundHalfUp(3 * total, 40)
  }

  function Diff(total: int): int
  {
    total - HonestTotal(total)
  }

  /** The collusion difference is never negative once the total reaches 20
      (every product costs far more), and it is about a quarter of the total. */
  lemma DiffBounds(total: int)
    ensures total >= 20 ==> Diff(total) >= 0
    ensures total - 20 <= 4 * Diff(total) < total + 20
  {
  }

  /** The comparison band a positive difference is shown against. */
  datatype Band = NoBand | Water | Coffee | Burger | Chicken

  function BandOf(diff: int): (b: Band)
    ensures b == NoBand <==> diff <= 0
    ensures b == Water <==> 0 < diff < 2000
    ensures b == Coffee <==> 2000 <= diff < 5000
    ensures b == Burger <==> 5000 <= diff < 15000
    ensures b == Chicken <==> 15000 <= diff
  {
    if diff > 0 then
      if diff < 2000 then Water
      else if diff < 5000 then Coffee
      else if diff < 15000 then Burger
      else Chicken
    else NoBand
  }

  function Rank(b: Band): nat
  {
    match b
    case NoBand => 0
    case Water => 1
    case Coffee => 2
    case Burger => 3
    case Chicken => 4
  }

  /** A larger difference never lands in a cheaper band. */
  lemma BandMonotone(d1: int, d2: int)
    requires d1 <= d2
    ensures Rank(BandOf(d1)) <= Rank(BandOf(d2))
  {
  }

  function Comparison(b: Band): string
  {
    match b
    case NoBand => ""
    case Water => "시원한 생수 한 병을 더 마실 수 있었던 금액입니다."
    case Coffee => "따뜻한 아메리카노 한 잔을 더 즐길 수 있었던 금액입니다."
    case Burger => "든든한 햄버거 세트 하나를 더 먹을 수 있었던 금액입니다."
    case Chicken => "치킨 한 마리를 더 주문하고도 남을 만큼의 소중한 돈입니다."
  }

  function Icon(b: Band): string
  {
    match b
    case NoBand => ""
    case Water => "🥤"
    case Coffee => "☕"
    case Burger => "🍔"
    case Chicken => "🍗"
  }

  datatype Stats = Stats(currentTotal: int, honestTotal: int, diff: int, comparison: string, compIcon: string)

  /** `stats`: the figures the receipt shows for a cart. */
  function CartStats(cart: seq<CartItem>): (s: Stats)
    ensures s.currentTotal == Total(cart)
    ensures s.honestTotal == HonestTotal(s.currentTotal)
    ensures s.diff == s.currentTotal - s.honestTotal && s.honestTotal % 10 == 0
    ensures -20 < 4 * s.honestTotal - 3 * s.currentTotal <= 20
    ensures s.comparison == Comparison(BandOf(s.diff)) && s.compIcon == Icon(BandOf(s.diff))
    ensures s.comparison == "" <==> s.diff <= 0
    ensures s.compIcon == "" <==> s.diff <= 0
  {
    var total := Total(cart);
    var band := BandOf(Diff(total));
    Stats(total, HonestTotal(total), Diff(total), Comparison(band), Icon(band))
  }

  // ---------------------------------------------------------------------------
  // The cart updater

  /** Ids are unique and every quantity is at least 1. */
  predicate ValidCart(cart: seq<CartItem>)
  {
    (forall i :: 0 <= i < |cart| ==> cart[i].quantity >= 1) &&
    (forall i, j :: 0 <= i < j < |cart| ==> cart[i].product.id != cart[j].product.id)
  }

  /** `prev.find(item => item.id === id)`, as an index. */
  function ItemIndex(cart: seq<CartItem>, id: string): (r: Option<nat>)
    ensures r.Some? ==> r.value < |cart| && cart[r.value].product.id == id &&
                        forall j :: 0 <= j < r.value ==> cart[j].product.id != id
    ensures r.None? ==> forall j :: 0 <= j < |cart| ==> cart[j].product.id != id
  {
    if cart == [] then None
    else if cart[0].product.id == id then Some(0)
    else
      match ItemIndex(cart[1..], id)
      case None => None
      case Some(i) => Some(i + 1)
  }

  /** `prev.filter(item => item.id !== id)`. */
  function Remove(cart: seq<CartItem>, id: string): (r: seq<CartItem>)
    ensures |r| <= |cart|
  {
    if cart == [] then []
    else if cart[0].product.id == id then Remove(cart[1..], id)
    else [cart[0]] + Remove(cart[1..], id)
  }

  /** Removing keeps exactly the lines of other products. */
  lemma {:induction false} RemoveMembers(cart: seq<CartItem>, id: string)
    ensures forall i :: 0 <= i < |Remove(cart, id)| ==>
              Remove(cart, id)[i] in cart && Remove(cart, id)[i].product.id != id
    ensures forall i :: 0 <= i < |cart| && cart[i].product.id != id ==> cart[i] in Remove(cart, id)
  {
    if cart != [] {
      RemoveMembers(cart[1..], id);
      forall i | 0 <= i < |cart| && cart[i].product.id != id
        ensures cart[i] in Remove(cart, id)
      {
        if i > 0 { assert cart[i] == cart[1..][i - 1]; }
      }
    }
  }

  /** `prev.map(item => item.id === id ? { ...item, quantity: q } : item)`. */
  function SetQuantity(cart: seq<CartItem>, id: string, q: int): (r: seq<CartItem>)
    ensures |r| == |cart|
  {
    if cart == [] then []
    else [if cart[0].product.id == id then cart[0].(quantity := q) else cart[0]] +
         SetQuantity(cart[1..], id, q)
  }

  /** Setting a quantity changes the lines of that product, and only them. */
  lemma {:induction false} SetQuantityLines(cart: seq<CartItem>, id: string, q: int)
    ensures forall i :: 0 <= i < |cart| ==>
              SetQuantity(cart, id, q)[i] == if cart[i].product.id == id then cart[i].(quantity := q) else cart[i]
  {
    if cart != [] {
      SetQuantityLines(cart[1..], id, q);
      var r := SetQuantity(cart, id, q);
      forall i | 0 < i < |cart|
        ensures r[i] == SetQuantity(cart[1..], id, q)[i - 1] && cart[i] == cart[1..][i - 1]
      {
      }
    }
  }

  /** The `updateQuantity` updater: a product already in the cart has its
      quantity moved by `delta` and is dropped when that reaches 0 or less; a
      product not in the cart is added with quantity 1 (not `delta`) when
      `delta` is positive and ignored otherwise. */
  function UpdateCart(cart: seq<CartItem>, product: Product, delta: int): seq<CartItem>
  {
    var found := ItemIndex(cart, product.id);
    if found.Some? then
      if cart[found.value].quantity + delta <= 0 then Remove(cart, product.id)
      else SetQuantity(cart, product.id, cart[found.value].quantity + delta)
    else if delta > 0 then cart + [CartItem(product, 1)]
    else cart
  }

  /** What the updater does: lines of other products are kept; the line of
      `product` is dropped when its quantity falls to 0 or less and moved by
      `delta` otherwise; a new product is appended with quantity 1 when
      `delta` is positive. */
  lemma UpdateCartEffect(cart: seq<CartItem>, product: Product, delta: int)
    ensures var r := UpdateCart(cart, product, delta);
            forall i :: 0 <= i < |r| && r[i].product.id != product.id ==> r[i] in cart
    ensures var r := UpdateCart(cart, product, delta);
            match ItemIndex(cart, product.id)
            case Some(i) =>
              if cart[i].quantity + delta <= 0 then
                forall j :: 0 <= j < |r| ==> r[j].product.id != product.id
              else
                |r| == |cart| &&
                forall j :: 0 <= j < |r| ==>
                  r[j] == if cart[j].product.id == product.id
                          then cart[j].(quantity := cart[i].quantity + delta) else cart[j]
            case None =>
              r == if delta > 0 then cart + [CartItem(product, 1)] else cart
  {
    var found := ItemIndex(cart, product.id);
    if found.Some? {
      var i := found.value;
      if cart[i].quantity + delta <= 0 {
        RemoveMembers(cart, product.id);
      } else {
        var q := cart[i].quantity + delta;
        UpdateCartIncrement(cart, product, delta, i);
        SetQuantityLines(cart, product.id, q);
        var r := SetQuantity(cart, product.id, q);
        forall j | 0 <= j < |r| && r[j].product.id != product.id
          ensures r[j] in cart
        {
          assert r[j] == cart[j];
        }
      }
    }
  }

  lemma ValidTail(cart: seq<CartItem>)
    requires ValidCart(cart) && cart != []
    ensures ValidCart(cart[1..])
    ensures forall j :: 0 <= j < |cart[1..]| ==> cart[1..][j].product.id != cart[0].product.id
  {
    var t := cart[1..];
    forall a, b | 0 <= a < b < |t|
      ensures t[a].product.id != t[b].product.id
    {
      assert t[a] == cart[a + 1] && t[b] == cart[b + 1];
    }
    forall j | 0 <= j < |t|
      ensures t[j].product.id != cart[0].product.id
    {
      assert t[j] == cart[j + 1];
    }
  }

  lemma {:induction false} RemoveUnique(cart: seq<CartItem>, i: nat)
    requires ValidCart(cart) && i < |cart|
    ensures Remove(cart, cart[i].product.id) == cart[..i] + cart[i + 1..]
  {
    var id := cart[i].product.id;
    var t := cart[1..];
    ValidTail(cart);
    if i == 0 {
      assert Remove(cart, id) == Remove(t, id);
      NotPresentRemove(t, id);
      assert cart[..0] + cart[1..] == t;
    } else {
      assert cart[0].product.id != id;
      assert Remove(cart, id) == [cart[0]] + Remove(t, id);
      assert t[i - 1] == cart[i];
      RemoveUnique(t, i - 1);
      assert t[..i - 1] == cart[1..i];
      assert t[i..] == cart[i + 1..];
      assert cart[..i] == [cart[0]] + cart[1..i];
      Regroup3([cart[0]], cart[1..i], cart[i + 1..]);
    }
  }

  lemma Regroup3(a: seq<CartItem>, b: seq<CartItem>, c: seq<CartItem>)
    ensures a + (b + c) == (a + b) + c
  {
  }

  lemma {:induction false} NotPresentRemove(cart: seq<CartItem>, id: string)
    requires forall j :: 0 <= j < |cart| ==> cart[j].product.id != id
    ensures Remove(cart, id) == cart
  {
    if cart != [] {
      NotPresentRemove(cart[1..], id);
    }
  }

  /** With a valid cart, removing a product deletes exactly its one line and
      keeps the others in order. */
  lemma UpdateRemovesOneLine(cart: seq<CartItem>, product: Product, delta: int)
    requires ValidCart(cart)
    requires ItemIndex(cart, product.id).Some?
    requires cart[ItemIndex(cart, product.id).value].quantity + delta <= 0
    ensures var i := ItemIndex(cart, product.id).value;
            UpdateCart(cart, product, delta) == cart[..i] + cart[i + 1..]
  {
    RemoveUnique(cart, ItemIndex(cart, product.id).value);
  }

  /** The updater keeps the cart valid: ids stay unique and quantities stay
      at least 1. */
  lemma ValidAfterRemove(cart: seq<CartItem>, i: nat)
    requires ValidCart(cart) && i < |cart|
    ensures ValidCart(cart[..i] + cart[i + 1..])
  {
    var r := cart[..i] + cart[i + 1..];
    forall a, b | 0 <= a < b < |r|
      ensures r[a].product.id != r[b].product.id
    {
      var a', b' := if a < i then a else a + 1, if b < i then b else b + 1;
      assert r[a] == cart[a'] && r[b] == cart[b'];
    }
    forall a | 0 <= a < |r|
      ensures r[a].quantity >= 1
    {
      assert r[a] == cart[if a < i then a else a + 1];
    }
  }

  lemma ValidAfterSetQuantity(cart: seq<CartItem>, id: string, q: int)
    requires ValidCart(cart) && q >= 1
    ensures ValidCart(SetQuantity(cart, id, q))
  {
    SetQuantityLines(cart, id, q);
    var r := SetQuantity(cart, id, q);
    assert forall a :: 0 <= a < |r| ==> r[a].product.id == cart[a].product.id;
  }

  lemma ValidAfterAppend(cart: seq<CartItem>, product: Product)
    requires ValidCart(cart)
    requires forall j :: 0 <= j < |cart| ==> cart[j].product.id != product.id
    ensures ValidCart(cart + [CartItem(product, 1)])
  {
    var r := cart + [CartItem(product, 1)];
    forall a, b | 0 <= a < b < |r|
      ensures r[a].product.id != r[b].product.id
    {
      assert r[a] == cart[a];
    }
  }

  /** The updater keeps the cart valid: ids stay unique and quantities stay
      at least 1. */
  lemma UpdateKeepsValid(cart: seq<CartItem>, product: Product, delta: int)
    requires ValidCart(cart)
    ensures ValidCart(UpdateCart(cart, product, delta))
  {
    match ItemIndex(cart, product.id)
    case Some(i) =>
      if cart[i].quantity + delta <= 0 {
        RemoveUnique(cart, i);
        ValidAfterRemove(cart, i);
      } else {
        ValidAfterSetQuantity(cart, product.id, cart[i].quantity + delta);
      }
    case None =>
      if delta > 0 {
        ValidAfterAppend(cart, product);
      }
  }

  lemma {:induction false} TotalSetQuantity(cart: seq<CartItem>, i: nat, q: int)
    requires ValidCart(cart) && i < |cart|
    ensures Total(SetQuantity(cart, cart[i].product.id, q)) ==
            Total(cart) + cart[i].product.price * (q - cart[i].quantity)
  {
    ValidTail(cart);
    if i == 0 {
      TotalSetQuantityHead(cart, q);
    } else {
      var id := cart[i].product.id;
      var t := cart[1..];
      var change := cart[i].product.price * (q - cart[i].quantity);
      var first := cart[0].product.price * cart[0].quantity;
      assert cart[0].product.id != id;
      assert t[i - 1] == cart[i];
      TotalSetQuantity(t, i - 1, q);
      assert Total(SetQuantity(t, id, q)) == Total(t) + change;
      SetQuantityCons(cart, id, q);
      TotalCons(cart[0], SetQuantity(t, id, q));
      assert Total(SetQuantity(cart, id, q)) == first + Total(SetQuantity(t, id, q));
      assert Total(cart) == first + Total(t);
    }
  }

  /** The first line's case of `TotalSetQuantity`. */
  lemma TotalSetQuantityHead(cart: seq<CartItem>, q: int)
    requires cart != []
    requires forall j :: 0 <= j < |cart[1..]| ==> cart[1..][j].product.id != cart[0].product.id
    ensures Total(SetQuantity(cart, cart[0].product.id, q)) ==
            Total(cart) + cart[0].product.price * (q - cart[0].quantity)
  {
    var id := cart[0].product.id;
    var t := cart[1..];
    var head := cart[0].(quantity := q);
    NotPresentSetQuantity(t, id, q);
    assert SetQuantity(cart, id, q) == [head] + t;
    TotalCons(head, t);
    Scale(cart[0].product.price, cart[0].quantity, q);
  }

  /** Setting the quantity of another product leaves the first line alone. */
  lemma SetQuantityCons(cart: seq<CartItem>, id: string, q: int)
    requires cart != [] && cart[0].product.id != id
    ensures SetQuantity(cart, id, q) == [cart[0]] + SetQuantity(cart[1..], id, q)
  {
  }

  lemma TotalCons(item: CartItem, rest: seq<CartItem>)
    ensures Total([item] + rest) == item.product.price * item.quantity + Total(rest)
  {
    assert ([item] + rest)[1..] == rest;
  }

  lemma {:induction false} NotPresentSetQuantity(cart: seq<CartItem>, id: string, q: int)
    requires forall j :: 0 <= j < |cart| ==> cart[j].product.id != id
    ensures SetQuantity(cart, id, q) == cart
  {
    if cart != [] {
      NotPresentSetQuantity(cart[1..], id, q);
    }
  }

  lemma Scale(p: int, a: int, b: int)
    ensures p * b == p * a + p * (b - a)
  {
  }

  /** A line that stays positive is updated in place. */
  lemma UpdateCartIncrement(cart: seq<CartItem>, product: Product, delta: int, i: nat)
    requires ItemIndex(cart, product.id) == Some(i) && cart[i].quantity + delta > 0
    ensures UpdateCart(cart, product, delta) == SetQuantity(cart, product.id, cart[i].quantity + delta)
  {
  }

  /** Pressing "+" on a catalogue product raises the total by exactly its
      price, whether or not it was in the cart. */
  lemma AddOneRaisesTotal(cart: seq<CartItem>, product: Product)
    requires ValidCart(cart)
    requires forall j :: 0 <= j < |cart| && cart[j].product.id == product.id ==> cart[j].product == product
    ensures Total(UpdateCart(cart, product, 1)) == Total(cart) + product.price
  {
    var found := ItemIndex(cart, product.id);
    if found.Some? {
      AddOneToLine(cart, product, found.value);
    } else {
      AddOneNewLine(cart, product);
    }
  }

  lemma AddOneToLine(cart: seq<CartItem>, product: Product, i: nat)
    requires ValidCart(cart) && ItemIndex(cart, product.id) == Some(i) && cart[i].product == product
    ensures Total(UpdateCart(cart, product, 1)) == Total(cart) + product.price
  {
    UpdateCartIncrement(cart, product, 1, i);
    TotalSetQuantity(cart, i, cart[i].quantity + 1);
    assert product.price * ((cart[i].quantity + 1) - cart[i].quantity) == product.price;
  }

  lemma AddOneNewLine(cart: seq<CartItem>, product: Product)
    requires ItemIndex(cart, product.id).None?
    ensures Total(UpdateCart(cart, product, 1)) == Total(cart) + product.price
  {
    var line := CartItem(product, 1);
    assert UpdateCart(cart, product, 1) == cart + [line];
    TotalAppend(cart, [line]);
    TotalCons(line, []);
    assert [line] + [] == [line];
  }

  // ---------------------------------------------------------------------------
  // The kiosk state

  class Kiosk {
    var cart: seq<CartItem>
    var lineReveal: nat
    var report: string
    var showAnalysis: bool
    var showWhy: bool

    predicate Valid()
      reads this
    {
      ValidCart(cart)
    }

    constructor ()
      ensures Valid() && cart == [] && lineReveal == 0 && report == ""
      ensures !showAnalysis && !showWhy
    {
      cart := [];
      lineReveal := 0;
      report := "";
      showAnalysis := false;
      showWhy := false;
    }

    /** `updateQuantity`: update the cart, drop the report and hide the
        explanation. */
    method UpdateQuantity(product: Product, delta: int)
      requires Valid()
      modifies this`cart, this`report, this`showWhy
      ensures Valid()
      ensures cart == UpdateCart(old(cart), product, delta)
      ensures report == "" && !showWhy
    {
      UpdateKeepsValid(cart, product, delta);
      cart := UpdateCart(cart, product, delta);
      report := "";
      showWhy := false;
    }

    /** `resetCart`. */
    method ResetCart()
      modifies this
      ensures Valid() && cart == [] && lineReveal == 0 && report == ""
      ensures !showAnalysis && !showWhy
    {
      cart := [];
      report := "";
      lineReveal := 0;
      showAnalysis := false;
      showWhy := false;
    }

    /** The receipt timer: one more line is revealed while fewer lines are
        revealed than the cart holds. */
    method RevealTick()
      modifies this`lineReveal
      ensures lineReveal == if old(lineReveal) < |cart| then old(lineReveal) + 1 else old(lineReveal)
      ensures old(lineReveal) <= |cart| ==> lineReveal <= |cart|
    {
      if |cart| > lineReveal {
        lineReveal := lineReveal + 1;
      }
    }
  }
}
