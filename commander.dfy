/** The ordering page of src/pages/Commander.tsx: a dish catalogue filtered by weekday, a
    basket of order lines (`panier`), its total, and `validerCommande`, which refuses an
    incomplete order and otherwise sends it and clears the form. Prices are whole cents. */
module Commander {
  import opened Wrappers
  import opened Seqs
  import opened Calendar

  type DishId = int

  /** A catalogue entry. `columns` holds its per-weekday availability columns, keyed
      "lundi_dispo" … "dimanche_dispo", each "oui" or "non". */
  datatype CatalogueDish = CatalogueDish(
    id: DishId, name: string, description: string, price: int, image: string,
    columns: map<string, string>)

  /** One basket line (`PlatPanier`). */
  datatype CartLine = CartLine(id: DishId, name: string, price: int, quantity: int)

  // ---------------------------------------------------------------------------------------
  // Dishes offered on a weekday (`platsDisponibles`)

  /** The column read for a weekday: `${jourSelectionne}_dispo`. */
  function AvailabilityColumn(day: string): string {
    day + "_dispo"
  }

  /** The entry's column for `day` holds exactly "oui" (a missing column is `undefined`). */
  predicate MarkedAvailable(d: CatalogueDish, day: string) {
    AvailabilityColumn(day) in d.columns && d.columns[AvailabilityColumn(day)] == "oui"
  }

  /** The filter callback of `platsDisponibles`: an empty day selection offers nothing. */
  function OfferedOn(day: string): CatalogueDish -> bool {
    (d: CatalogueDish) => day != "" && MarkedAvailable(d, day)
  }

  /** The dishes shown for the selected day. */
  function AvailableDishes(catalogue: seq<CatalogueDish>, day: string): (r: seq<CatalogueDish>)
    ensures day == "" ==> r == []
    ensures forall i :: 0 <= i < |r| ==> r[i] in catalogue && MarkedAvailable(r[i], day)
    ensures forall i :: 0 <= i < |catalogue| && day != "" && MarkedAvailable(catalogue[i], day) ==>
      catalogue[i] in r
  {
    var r := Filter(catalogue, OfferedOn(day));
    assert |r| > 0 ==> OfferedOn(day)(r[0]);
    r
  }

  /** The offered dishes keep catalogue order: they form a subsequence of the catalogue, and
      the selection is computed entry by entry (it distributes over concatenation). */
  lemma AvailableDishesInCatalogueOrder(a: seq<CatalogueDish>, b: seq<CatalogueDish>, day: string)
    ensures IsSubsequence(AvailableDishes(a, day), a)
    ensures AvailableDishes(a + b, day) == AvailableDishes(a, day) + AvailableDishes(b, day)
  {
    FilterIsSubsequence(a, OfferedOn(day));
    FilterConcat(a, b, OfferedOn(day));
  }

  // ---------------------------------------------------------------------------------------
  // Basket invariants

  /** Some line of the basket is for dish `id`. */
  predicate HasLine(cart: seq<CartLine>, id: DishId) {
    exists i :: 0 <= i < |cart| && cart[i].id == id
  }

  /** No dish appears on two lines. */
  predicate UniqueIds(cart: seq<CartLine>) {
    forall i, j :: 0 <= i < j < |cart| ==> cart[i].id != cart[j].id
  }

  /** Every line orders at least one portion. */
  predicate AllPositive(cart: seq<CartLine>) {
    forall i :: 0 <= i < |cart| ==> cart[i].quantity >= 1
  }

  /** `prev.find(p => p.id === id)`: the first line for dish `id`, if any. */
  function Find(cart: seq<CartLine>, id: DishId): (r: Option<CartLine>)
    ensures r.Some? <==> HasLine(cart, id)
    ensures r.Some? ==> r.value in cart && r.value.id == id
  {
    if |cart| == 0 then None
    else if cart[0].id == id then Some(cart[0])
    else
      var r := Find(cart[1..], id);
      assert HasLine(cart, id) ==> HasLine(cart[1..], id) by {
        if HasLine(cart, id) {
          var i :| 0 <= i < |cart| && cart[i].id == id;
          assert cart[1..][i - 1].id == id;
        }
      }
      r
  }

  // ---------------------------------------------------------------------------------------
  // Basket operations (`ajouterAuPanier`, `modifierQuantite`)

  /** `prev.map(p => p.id === id ? { ...p, quantite: f(p.quantite) } : p)`. */
  function MapQuantity(cart: seq<CartLine>, id: DishId, f: int -> int): (r: seq<CartLine>)
    ensures |r| == |cart|
    ensures forall i :: 0 <= i < |cart| ==>
      r[i].id == cart[i].id && r[i].name == cart[i].name && r[i].price == cart[i].price
    ensures forall i :: 0 <= i < |cart| && cart[i].id != id ==> r[i] == cart[i]
    ensures forall i :: 0 <= i < |cart| && cart[i].id == id ==> r[i].quantity == f(cart[i].quantity)
  {
    if |cart| == 0 then []
    else
      [if cart[0].id == id then cart[0].(quantity := f(cart[0].quantity)) else cart[0]]
      + MapQuantity(cart[1..], id, f)
  }

  /** The quantity update of `ajouterAuPanier`. */
  function Increment(q: int): int {
    q + 1
  }

  /** The quantity update of `modifierQuantite` with a non-zero quantity. */
  function SetTo(q: int): int -> int {
    _ => q
  }

  /** The filter callback of `modifierQuantite` with quantity 0. */
  function OtherThan(id: DishId): CartLine -> bool {
    (l: CartLine) => l.id != id
  }

  /** `ajouterAuPanier`: a dish already in the basket gets one more portion on its line(s);
      any other dish is appended as a new line with quantity 1. */
  function AddDish(cart: seq<CartLine>, dish: CatalogueDish): (r: seq<CartLine>)
    ensures !HasLine(cart, dish.id) ==> r == cart + [CartLine(dish.id, dish.name, dish.price, 1)]
    ensures HasLine(cart, dish.id) ==> (
      && |r| == |cart|
      && forall i :: 0 <= i < |cart| ==>
           r[i] == if cart[i].id == dish.id then cart[i].(quantity := cart[i].quantity + 1) else cart[i])
  {
    if Find(cart, dish.id).Some? then MapQuantity(cart, dish.id, Increment)
    else cart + [CartLine(dish.id, dish.name, dish.price, 1)]
  }

  /** `modifierQuantite`: quantity 0 drops every line for the dish and keeps the others;
      any other quantity is written on the dish's line(s) and changes nothing else. */
  function ChangeQuantity(cart: seq<CartLine>, id: DishId, q: int): (r: seq<CartLine>)
    ensures !HasLine(cart, id) ==> r == cart
    ensures q == 0 ==> (
      && !HasLine(r, id)
      && (forall i :: 0 <= i < |r| ==> r[i] in cart)
      && (forall i :: 0 <= i < |cart| && cart[i].id != id ==> cart[i] in r))
    ensures q != 0 ==> (
      && |r| == |cart|
      && forall i :: 0 <= i < |cart| ==>
           r[i] == if cart[i].id == id then cart[i].(quantity := q) else cart[i])
  {
    if q == 0 then
      var r := Filter(cart, OtherThan(id));
      FilterKeepsAll(cart, OtherThan(id));
      r
    else
      var r := MapQuantity(cart, id, SetTo(q));
      assert !HasLine(cart, id) ==> r == cart;
      r
  }

  /** Removing a dish keeps the relative order of the remaining lines. */
  lemma RemovalKeepsOrder(a: seq<CartLine>, b: seq<CartLine>, id: DishId)
    ensures IsSubsequence(ChangeQuantity(a, id, 0), a)
    ensures ChangeQuantity(a + b, id, 0) == ChangeQuantity(a, id, 0) + ChangeQuantity(b, id, 0)
  {
    FilterIsSubsequence(a, OtherThan(id));
    FilterConcat(a, b, OtherThan(id));
  }

  /** Adding a dish keeps dish ids unique. */
  lemma AddDishKeepsUnique(cart: seq<CartLine>, dish: CatalogueDish)
    requires UniqueIds(cart)
    ensures UniqueIds(AddDish(cart, dish))
  {
  }

  /** Dropping a dish keeps dish ids unique. */
  lemma {:induction false} RemovalKeepsUnique(cart: seq<CartLine>, id: DishId)
    requires UniqueIds(cart)
    ensures UniqueIds(Filter(cart, OtherThan(id)))
  {
    if |cart| > 0 {
      var tail := cart[1..];
      HeadIdNotInTail(cart);
      RemovalKeepsUnique(tail, id);
      var rest := Filter(tail, OtherThan(id));
      FilterStep(cart, OtherThan(id));
      if cart[0].id != id {
        forall k | 0 <= k < |rest| ensures rest[k].id != cart[0].id {
          var j :| 0 <= j < |tail| && tail[j] == rest[k];
        }
        PrependKeepsUnique(cart[0], rest);
      }
    }
  }

  /** A line whose dish is not yet in a basket with unique ids can go in front of it. */
  lemma PrependKeepsUnique(line: CartLine, cart: seq<CartLine>)
    requires UniqueIds(cart)
    requires forall k :: 0 <= k < |cart| ==> cart[k].id != line.id
    ensures UniqueIds([line] + cart)
  {
    forall i, j | 0 <= i < j < |cart| + 1 ensures ([line] + cart)[i].id != ([line] + cart)[j].id {
      assert ([line] + cart)[j] == cart[j - 1];
      if i > 0 {
        assert ([line] + cart)[i] == cart[i - 1];
      }
    }
  }

  /** Changing a quantity keeps dish ids unique. */
  lemma ChangeQuantityKeepsUnique(cart: seq<CartLine>, id: DishId, q: int)
    requires UniqueIds(cart)
    ensures UniqueIds(ChangeQuantity(cart, id, q))
  {
    if q == 0 {
      RemovalKeepsUnique(cart, id);
      assert ChangeQuantity(cart, id, 0) == Filter(cart, OtherThan(id));
    }
  }

  /** Adding a dish keeps every quantity at least 1. */
  lemma AddDishKeepsPositive(cart: seq<CartLine>, dish: CatalogueDish)
    requires AllPositive(cart)
    ensures AllPositive(AddDish(cart, dish))
  {
  }

  /** The basket's − and + buttons call `modifierQuantite(line.id, line.quantite ∓ 1)`: when every
      quantity is at least 1 beforehand it still is afterwards, since reaching 0 drops the line. */
  lemma StepKeepsPositive(cart: seq<CartLine>, k: nat, increase: bool)
    requires AllPositive(cart)
    requires k < |cart|
    ensures var q := if increase then cart[k].quantity + 1 else cart[k].quantity - 1;
      AllPositive(ChangeQuantity(cart, cart[k].id, q))
  {
    var q := if increase then cart[k].quantity + 1 else cart[k].quantity - 1;
    var r := ChangeQuantity(cart, cart[k].id, q);
    if q == 0 {
      forall i | 0 <= i < |r| ensures r[i].quantity >= 1 {
        var j :| 0 <= j < |cart| && cart[j] == r[i];
      }
    }
  }

  // ---------------------------------------------------------------------------------------
  // Total (`calculerTotal`)

  /** The sum of price × quantity over the lines, in cents; never negative when no price or
      quantity is. */
  function Total(cart: seq<CartLine>): (t: int)
    ensures (forall i :: 0 <= i < |cart| ==> cart[i].price >= 0 && cart[i].quantity >= 0) ==> t >= 0
  {
    if |cart| == 0 then 0 else cart[0].price * cart[0].quantity + Total(cart[1..])
  }

  /** The total is additive; with `Total([]) == 0` and the step for one more line `l` this is
      the `reduce` from 0 that adds price × quantity line by line. */
  lemma {:induction false} TotalConcat(a: seq<CartLine>, b: seq<CartLine>, l: CartLine)
    ensures Total(a + b) == Total(a) + Total(b)
    ensures Total([]) == 0
    ensures Total(a + [l]) == Total(a) + l.price * l.quantity
  {
    if |a| == 0 {
      assert a + b == b;
      assert a + [l] == [l];
      assert [l][1..] == [];
    } else {
      assert (a + b)[1..] == a[1..] + b;
      assert (a + [l])[1..] == a[1..] + [l];
      TotalConcat(a[1..], b, l);
    }
  }

  /** With unique ids, rewriting the one line for `id` moves the total by exactly that
      line's change. */
  lemma {:induction false} MapQuantityTotal(cart: seq<CartLine>, id: DishId, f: int -> int)
    requires UniqueIds(cart)
    requires HasLine(cart, id)
    ensures var l := Find(cart, id).value;
      Total(MapQuantity(cart, id, f)) == Total(cart) - l.price * l.quantity + l.price * f(l.quantity)
  {
    var tail := cart[1..];
    HeadIdNotInTail(cart);
    assert MapQuantity(cart, id, f)[1..] == MapQuantity(tail, id, f);
    if cart[0].id == id {
      assert MapQuantity(tail, id, f) == tail;
    } else {
      LineInTail(cart, id);
      MapQuantityTotal(tail, id, f);
    }
  }

  /** No line after the first is for the first line's dish. */
  lemma HeadIdNotInTail(cart: seq<CartLine>)
    requires UniqueIds(cart)
    requires |cart| > 0
    ensures !HasLine(cart[1..], cart[0].id)
    ensures UniqueIds(cart[1..])
  {
    forall j | 0 <= j < |cart| - 1 ensures cart[1..][j].id != cart[0].id {
      assert cart[1..][j] == cart[j + 1];
    }
  }

  /** A line for `id` that is not the first is in the tail. */
  lemma LineInTail(cart: seq<CartLine>, id: DishId)
    requires HasLine(cart, id)
    requires cart[0].id != id
    ensures HasLine(cart[1..], id)
    ensures Find(cart, id) == Find(cart[1..], id)
  {
    var i :| 0 <= i < |cart| && cart[i].id == id;
    assert cart[1..][i - 1].id == id;
  }

  /** With unique ids, dropping the line for `id` lowers the total by that line's subtotal. */
  lemma {:induction false} RemovalTotal(cart: seq<CartLine>, id: DishId)
    requires UniqueIds(cart)
    requires HasLine(cart, id)
    ensures var l := Find(cart, id).value;
      Total(Filter(cart, OtherThan(id))) == Total(cart) - l.price * l.quantity
  {
    var tail := cart[1..];
    FilterStep(cart, OtherThan(id));
    HeadIdNotInTail(cart);
    if cart[0].id == id {
      forall x | x in tail ensures OtherThan(id)(x) {
        var j :| 0 <= j < |tail| && tail[j] == x;
      }
      FilterKeepsAll(tail, OtherThan(id));
      assert Filter(cart, OtherThan(id)) == tail;
      assert Find(cart, id).value == cart[0];
    } else {
      LineInTail(cart, id);
      RemovalTotal(tail, id);
    }
  }

  /** One more portion costs one price more. */
  lemma OnePortionMore(price: int, quantity: int)
    ensures price * Increment(quantity) == price * quantity + price
  {
  }

  /** Adding a dish raises the total by one portion: the price stored on its line, or the
      catalogue price for a new line. */
  lemma AddDishTotal(cart: seq<CartLine>, dish: CatalogueDish)
    requires UniqueIds(cart)
    ensures Total(AddDish(cart, dish)) ==
      Total(cart) + if HasLine(cart, dish.id) then Find(cart, dish.id).value.price else dish.price
  {
    if HasLine(cart, dish.id) {
      var l := Find(cart, dish.id).value;
      MapQuantityTotal(cart, dish.id, Increment);
      assert AddDish(cart, dish) == MapQuantity(cart, dish.id, Increment);
      OnePortionMore(l.price, l.quantity);
    } else {
      var line := CartLine(dish.id, dish.name, dish.price, 1);
      TotalConcat(cart, [], line);
    }
  }

  /** Setting the quantity of a present dish to `q` replaces that line's subtotal by price × q
      (for q = 0 the line disappears); an absent dish leaves the total alone. */
  lemma ChangeQuantityTotal(cart: seq<CartLine>, id: DishId, q: int)
    requires UniqueIds(cart)
    ensures !HasLine(cart, id) ==> Total(ChangeQuantity(cart, id, q)) == Total(cart)
    ensures HasLine(cart, id) ==> var l := Find(cart, id).value;
      Total(ChangeQuantity(cart, id, q)) == Total(cart) - l.price * l.quantity + l.price * q
  {
    if HasLine(cart, id) {
      if q == 0 {
        RemovalTotal(cart, id);
        assert ChangeQuantity(cart, id, 0) == Filter(cart, OtherThan(id));
      } else {
        MapQuantityTotal(cart, id, SetTo(q));
      }
    }
  }

  // ---------------------------------------------------------------------------------------
  // The page state and `validerCommande`

  /** The order `validerCommande` sends (its `timestamp` is left out). */
  datatype Order = Order(
    lines: seq<CartLine>, pickupDate: Date, pickupTime: string, specialRequests: string,
    total: int)

  /** How `validerCommande` ends: one of its two refusals, or the order it sent. */
  datatype Submission = EmptyCart | MissingPickup | Confirmed(order: Order)

  /** The React state of the ordering page. */
  class OrderPage {
    var selectedDay: string
    var cart: seq<CartLine>
    var pickupDate: Option<Date>
    var pickupTime: string
    var specialRequests: string
    var isLoading: bool

    /** What every basket operation keeps: one line per dish. */
    ghost predicate Valid()
      reads this
    {
      UniqueIds(cart)
    }

    /** The initial `useState` values. */
    constructor ()
      ensures Valid()
      ensures selectedDay == "" && cart == [] && pickupDate == None && pickupTime == ""
      ensures specialRequests == "" && !isLoading
    {
      selectedDay := "";
      cart := [];
      pickupDate := None;
      pickupTime := "";
      specialRequests := "";
      isLoading := false;
    }

    /** `ajouterAuPanier(plat)`. */
    method AddToCart(dish: CatalogueDish)
      requires Valid()
      modifies this
      ensures Valid()
      ensures cart == AddDish(old(cart), dish)
      ensures old(AllPositive(cart)) ==> AllPositive(cart)
      ensures selectedDay == old(selectedDay) && pickupDate == old(pickupDate)
      ensures pickupTime == old(pickupTime) && specialRequests == old(specialRequests)
      ensures isLoading == old(isLoading)
    {
      AddDishKeepsUnique(cart, dish);
      if AllPositive(cart) {
        AddDishKeepsPositive(cart, dish);
      }
      cart := AddDish(cart, dish);
    }

    /** `modifierQuantite(id, nouvelleQuantite)`. */
    method ModifyQuantity(id: DishId, q: int)
      requires Valid()
      modifies this
      ensures Valid()
      ensures cart == ChangeQuantity(old(cart), id, q)
      ensures old(AllPositive(cart)) && q >= 0 ==> AllPositive(cart)
      ensures selectedDay == old(selectedDay) && pickupDate == old(pickupDate)
      ensures pickupTime == old(pickupTime) && specialRequests == old(specialRequests)
      ensures isLoading == old(isLoading)
    {
      ChangeQuantityKeepsUnique(cart, id, q);
      var r := ChangeQuantity(cart, id, q);
      if AllPositive(cart) && q == 0 {
        forall i | 0 <= i < |r| ensures r[i].quantity >= 1 {
          var j :| 0 <= j < |cart| && cart[j] == r[i];
        }
      }
      cart := r;
    }

    /** `validerCommande`: an empty basket, then a missing pickup date or time, is refused
        with nothing changed; otherwise the order is sent with its total and the basket,
        pickup date, pickup time and special requests are cleared. */
    method Submit() returns (outcome: Submission)
      requires Valid()
      modifies this
      ensures Valid()
      ensures old(cart) == [] ==> outcome == EmptyCart
      ensures old(cart) != [] && (old(pickupDate).None? || old(pickupTime) == "") ==>
        outcome == MissingPickup
      ensures !outcome.Confirmed? ==>
        cart == old(cart) && pickupDate == old(pickupDate) && pickupTime == old(pickupTime) &&
        specialRequests == old(specialRequests) && isLoading == old(isLoading)
      ensures old(cart) != [] && old(pickupDate).Some? && old(pickupTime) != "" ==>
        outcome == Confirmed(Order(old(cart), old(pickupDate).value, old(pickupTime),
                                   old(specialRequests), Total(old(cart)))) &&
        cart == [] && pickupDate == None && pickupTime == "" && specialRequests == "" &&
        !isLoading
      ensures selectedDay == old(selectedDay)
    {
      if |cart| == 0 {
        return EmptyCart;
      }
      if pickupDate.None? || pickupTime == "" {
        return MissingPickup;
      }
      isLoading := true;
      var order := Order(cart, pickupDate.value, pickupTime, specialRequests, Total(cart));
      cart := [];
      pickupDate := None;
      pickupTime := "";
      specialRequests := "";
      isLoading := false;
      outcome := Confirmed(order);
    }
  }
}
