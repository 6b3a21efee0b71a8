/**
  The shopping cart behind `POST /api/cart` and the empty-cart gate of
  `/checkout`. There is one cart for the whole process: a table of lines, each
  with a store-assigned id, a product id and a quantity. A request names a
  product and one of three actions:

  - "add" (also when the request names no action) adds one to the product's
    line, or appends a new line with quantity 1;
  - "remove" takes one off the line, or deletes it when its quantity is 1 or
    less; a product without a line is left alone;
  - "set" with a quantity replaces the line's quantity when the new one is
    positive and deletes the line otherwise; it does nothing to a product
    without a line, or when the request carries no quantity.

  Any other action leaves the cart as it is. The product id is not checked
  against the catalogue.

  The pure functions `Added`, `Removed`, `QuantitySet` and `Applied` describe
  each request on a `CartState` value; the class `Cart` holds the lines and
  changes them in place, and each of its methods is proved to do what the
  matching function describes.
 */
module CartService {
  import opened Wrappers
  import opened CheckoutForm
  import opened Luhn

  /** A cart row: its id in the store, the product it holds, how many. */
  datatype Line = Line(id: int, productId: int, quantity: int)

  /** The lines in store order (the order a full query returns them), and the
      id the store hands to the next line it creates. */
  datatype CartState = CartState(lines: seq<Line>, nextId: int)

  /** A JSON body posted to the cart. `action` is `None` when the key is
      absent; `quantity` is `None` when the key is absent and otherwise the
      value after conversion to an integer. */
  datatype Request = Request(productId: int, action: Option<string>, quantity: Option<int>)

  /** What `/checkout` answers: a redirect back to the cart page, a redirect
      to the catalogue after a successful order, or the checkout page again
      with the error validation appended, if any. */
  datatype CheckoutOutcome = RedirectToCart | OrderPlaced | ShowForm(error: Option<FieldError>)

  const ADD: string := "add"
  const REMOVE: string := "remove"
  const SET: string := "set"

  /** The first line holding `productId`, the row a query filtered by product
      returns first. */
  function Find(lines: seq<Line>, productId: int): (r: Option<nat>)
    ensures r.Some? ==> r.value < |lines| && lines[r.value].productId == productId
    ensures r.Some? ==> forall j :: 0 <= j < r.value ==> lines[j].productId != productId
    ensures r.None? <==> forall j :: 0 <= j < |lines| ==> lines[j].productId != productId
    decreases |lines|
  {
    if lines == [] then None
    else if lines[0].productId == productId then Some(0)
    else match Find(lines[1..], productId)
      case None => None
      case Some(k) => Some(k + 1)
  }

  /** How many of the product the cart holds: the quantity of its line, 0
      when it has none. */
  function QuantityOf(lines: seq<Line>, productId: int): int {
    match Find(lines, productId)
    case None => 0
    case Some(k) => lines[k].quantity
  }

  predicate UniqueProducts(lines: seq<Line>) {
    forall i, j :: 0 <= i < j < |lines| ==> lines[i].productId != lines[j].productId
  }

  predicate PositiveQuantities(lines: seq<Line>) {
    forall i :: 0 <= i < |lines| ==> lines[i].quantity >= 1
  }

  /** Ids grow along the table and are all below the next one to be handed
      out; so ids are distinct and the table is in creation order. */
  predicate IdsAscending(lines: seq<Line>, nextId: int) {
    (forall i, j :: 0 <= i < j < |lines| ==> lines[i].id < lines[j].id) &&
    (forall i :: 0 <= i < |lines| ==> lines[i].id < nextId)
  }

  /** The cart invariant: at most one line per product, every quantity at
      least 1, ids in creation order. */
  predicate Inv(s: CartState) {
    UniqueProducts(s.lines) && PositiveQuantities(s.lines) && IdsAscending(s.lines, s.nextId)
  }

  /** The table with line `k` deleted. */
  function Delete(lines: seq<Line>, k: nat): seq<Line>
    requires k < |lines|
  {
    lines[..k] + lines[k + 1..]
  }

  /** The table with the quantity of line `k` replaced. */
  function WithQuantity(lines: seq<Line>, k: nat, quantity: int): seq<Line>
    requires k < |lines|
  {
    lines[k := lines[k].(quantity := quantity)]
  }

  /** The lines of every product other than `productId`, in table order. */
  function OtherLines(lines: seq<Line>, productId: int): seq<Line>
    decreases |lines|
  {
    if lines == [] then []
    else (if lines[0].productId == productId then [] else [lines[0]]) + OtherLines(lines[1..], productId)
  }

  /** The "add" action. The lines of other products stay exactly as they
      were, in the same order, and the id counter never goes back. */
  function Added(s: CartState, productId: int): (r: CartState)
    ensures OtherLines(r.lines, productId) == OtherLines(s.lines, productId)
    ensures r.nextId >= s.nextId
  {
    match Find(s.lines, productId)
    case Some(k) =>
      OtherLinesWithQuantity(s.lines, k, s.lines[k].quantity + 1);
      CartState(WithQuantity(s.lines, k, s.lines[k].quantity + 1), s.nextId)
    case None =>
      OtherLinesAppend(s.lines, [Line(s.nextId, productId, 1)], productId);
      CartState(s.lines + [Line(s.nextId, productId, 1)], s.nextId + 1)
  }

  /** The "remove" action. The lines of other products stay exactly as they
      were, in the same order, and no line is added. */
  function Removed(s: CartState, productId: int): (r: CartState)
    ensures OtherLines(r.lines, productId) == OtherLines(s.lines, productId)
    ensures |r.lines| <= |s.lines| && r.nextId == s.nextId
  {
    match Find(s.lines, productId)
    case None => s
    case Some(k) =>
      if s.lines[k].quantity > 1 then
        OtherLinesWithQuantity(s.lines, k, s.lines[k].quantity - 1);
        CartState(WithQuantity(s.lines, k, s.lines[k].quantity - 1), s.nextId)
      else
        OtherLinesDelete(s.lines, k);
        CartState(Delete(s.lines, k), s.nextId)
  }

  /** The "set" action with a quantity. The lines of other products stay
      exactly as they were, in the same order, and no line is added. */
  function QuantitySet(s: CartState, productId: int, quantity: int): (r: CartState)
    ensures OtherLines(r.lines, productId) == OtherLines(s.lines, productId)
    ensures |r.lines| <= |s.lines| && r.nextId == s.nextId
  {
    match Find(s.lines, productId)
    case None => s
    case Some(k) =>
      if quantity > 0 then
        OtherLinesWithQuantity(s.lines, k, quantity);
        CartState(WithQuantity(s.lines, k, quantity), s.nextId)
      else
        OtherLinesDelete(s.lines, k);
        CartState(Delete(s.lines, k), s.nextId)
  }

  /** One posted request: the action defaults to "add"; "set" needs a
      quantity; anything else changes nothing. Whatever the action, the
      request touches only the lines of the product it names. */
  function Applied(s: CartState, request: Request): (r: CartState)
    ensures OtherLines(r.lines, request.productId) == OtherLines(s.lines, request.productId)
    ensures r.nextId >= s.nextId
  {
    var action := if request.action.None? then ADD else request.action.value;
    if action == ADD then Added(s, request.productId)
    else if action == REMOVE then Removed(s, request.productId)
    else if action == SET && request.quantity.Some? then QuantitySet(s, request.productId, request.quantity.value)
    else s
  }

  /** `n` "add" requests for the same product, one after the other. */
  function AddedTimes(s: CartState, productId: int, n: nat): CartState
    decreases n
  {
    if n == 0 then s else AddedTimes(Added(s, productId), productId, n - 1)
  }

  // ---------------------------------------------------------------------
  // Facts about OtherLines

  /** The other products' lines of a concatenation are those of each part. */
  lemma {:induction false} OtherLinesAppend(a: seq<Line>, b: seq<Line>, productId: int)
    ensures OtherLines(a + b, productId) == OtherLines(a, productId) + OtherLines(b, productId)
    decreases |a|
  {
    if a == [] {
      assert a + b == b;
    } else {
      assert (a + b)[1..] == a[1..] + b;
      OtherLinesAppend(a[1..], b, productId);
    }
  }

  /** Changing the quantity of a line leaves the other products' lines as
      they were. */
  lemma {:induction false} OtherLinesWithQuantity(lines: seq<Line>, k: nat, quantity: int)
    requires k < |lines|
    ensures OtherLines(WithQuantity(lines, k, quantity), lines[k].productId) ==
            OtherLines(lines, lines[k].productId)
    decreases k
  {
    var w := WithQuantity(lines, k, quantity);
    if k == 0 {
      assert w[1..] == lines[1..];
    } else {
      assert w[1..] == WithQuantity(lines[1..], k - 1, quantity);
      OtherLinesWithQuantity(lines[1..], k - 1, quantity);
    }
  }

  /** Deleting a line leaves the other products' lines as they were. */
  lemma {:induction false} OtherLinesDelete(lines: seq<Line>, k: nat)
    requires k < |lines|
    ensures OtherLines(Delete(lines, k), lines[k].productId) == OtherLines(lines, lines[k].productId)
    decreases k
  {
    var d := Delete(lines, k);
    if k == 0 {
      assert d == lines[1..];
    } else {
      assert d[0] == lines[0] && d[1..] == Delete(lines[1..], k - 1);
      OtherLinesDelete(lines[1..], k - 1);
    }
  }

  // ---------------------------------------------------------------------
  // Facts about Find

  /** A line holding the product with none before it is the one Find picks. */
  lemma FindFirstMatch(lines: seq<Line>, productId: int, j: nat)
    requires j < |lines| && lines[j].productId == productId
    requires forall i :: 0 <= i < j ==> lines[i].productId != productId
    ensures Find(lines, productId) == Some(j)
  {
  }

  /** Changing a quantity does not change which line holds which product. */
  lemma FindWithQuantity(lines: seq<Line>, k: nat, quantity: int, productId: int)
    requires k < |lines|
    ensures Find(WithQuantity(lines, k, quantity), productId) == Find(lines, productId)
  {
    var w := WithQuantity(lines, k, quantity);
    match Find(lines, productId)
    case None =>
      assert forall j :: 0 <= j < |w| ==> w[j].productId == lines[j].productId;
    case Some(j) =>
      FindFirstMatch(w, productId, j);
  }

  /** Appending a line does not change the answer for a product that already
      has one, and the new line is found for its product otherwise. */
  lemma FindAppend(lines: seq<Line>, x: Line, productId: int)
    ensures Find(lines + [x], productId) ==
      if Find(lines, productId).Some? then Find(lines, productId)
      else if x.productId == productId then Some(|lines|)
      else None
  {
    var a := lines + [x];
    match Find(lines, productId)
    case Some(j) =>
      FindFirstMatch(a, productId, j);
    case None =>
      if x.productId == productId {
        FindFirstMatch(a, productId, |lines|);
      } else {
        assert forall j :: 0 <= j < |a| ==> a[j].productId != productId;
      }
  }

  /** Deleting a line of another product does not change how many of this
      product the cart holds. */
  lemma QuantityOfDelete(lines: seq<Line>, k: nat, productId: int)
    requires k < |lines| && lines[k].productId != productId
    ensures QuantityOf(Delete(lines, k), productId) == QuantityOf(lines, productId)
  {
    var d := Delete(lines, k);
    assert forall j :: 0 <= j < |d| ==> d[j] == if j < k then lines[j] else lines[j + 1];
    match Find(lines, productId)
    case None =>
      assert forall j :: 0 <= j < |d| ==> d[j].productId != productId;
    case Some(j) =>
      if j < k {
        FindFirstMatch(d, productId, j);
      } else {
        FindFirstMatch(d, productId, j - 1);
      }
  }

  /** Deleting the only line of a product leaves the cart without one. */
  lemma FindDeleteOnly(lines: seq<Line>, k: nat)
    requires UniqueProducts(lines) && k < |lines|
    ensures Find(Delete(lines, k), lines[k].productId).None?
  {
    var d := Delete(lines, k);
    assert forall j :: 0 <= j < |d| ==> d[j] == if j < k then lines[j] else lines[j + 1];
  }

  // ---------------------------------------------------------------------
  // The invariant is kept

  lemma DeleteKeepsInv(s: CartState, k: nat)
    requires Inv(s) && k < |s.lines|
    ensures Inv(CartState(Delete(s.lines, k), s.nextId))
  {
    var d := Delete(s.lines, k);
    assert forall j :: 0 <= j < |d| ==> d[j] == if j < k then s.lines[j] else s.lines[j + 1];
    forall i, j | 0 <= i < j < |d|
      ensures d[i].productId != d[j].productId && d[i].id < d[j].id
    {
      var i', j' := if i < k then i else i + 1, if j < k then j else j + 1;
      assert d[i] == s.lines[i'] && d[j] == s.lines[j'] && i' < j';
    }
  }

  lemma WithQuantityKeepsInv(s: CartState, k: nat, quantity: int)
    requires Inv(s) && k < |s.lines| && quantity >= 1
    ensures Inv(CartState(WithQuantity(s.lines, k, quantity), s.nextId))
  {
  }

  lemma AddedKeepsInv(s: CartState, productId: int)
    requires Inv(s)
    ensures Inv(Added(s, productId))
  {
    match Find(s.lines, productId)
    case Some(k) =>
      WithQuantityKeepsInv(s, k, s.lines[k].quantity + 1);
    case None =>
  }

  lemma RemovedKeepsInv(s: CartState, productId: int)
    requires Inv(s)
    ensures Inv(Removed(s, productId))
  {
    match Find(s.lines, productId)
    case None =>
    case Some(k) =>
      if s.lines[k].quantity > 1 {
        WithQuantityKeepsInv(s, k, s.lines[k].quantity - 1);
      } else {
        DeleteKeepsInv(s, k);
      }
  }

  lemma QuantitySetKeepsInv(s: CartState, productId: int, quantity: int)
    requires Inv(s)
    ensures Inv(QuantitySet(s, productId, quantity))
  {
    match Find(s.lines, productId)
    case None =>
    case Some(k) =>
      if quantity > 0 {
        WithQuantityKeepsInv(s, k, quantity);
      } else {
        DeleteKeepsInv(s, k);
      }
  }

  /** Every request keeps one line per product, quantities at least 1 and ids
      in creation order. */
  lemma AppliedKeepsInv(s: CartState, request: Request)
    requires Inv(s)
    ensures Inv(Applied(s, request))
  {
    AddedKeepsInv(s, request.productId);
    RemovedKeepsInv(s, request.productId);
    if request.quantity.Some? {
      QuantitySetKeepsInv(s, request.productId, request.quantity.value);
    }
  }

  // ---------------------------------------------------------------------
  // What each action does

  /** "add": one more of the product and no change to any other product. A
      product without a line gets exactly one new line, with quantity 1 and
      the next id, appended after the unchanged existing lines; a product with
      a line keeps that line and its place, with the quantity raised by one. */
  lemma AddedEffect(s: CartState, productId: int)
    ensures QuantityOf(Added(s, productId).lines, productId) == QuantityOf(s.lines, productId) + 1
    ensures forall other :: other != productId ==>
      QuantityOf(Added(s, productId).lines, other) == QuantityOf(s.lines, other)
    ensures Find(s.lines, productId).None? ==>
      var r := Added(s, productId).lines;
      |r| == |s.lines| + 1 && r[..|s.lines|] == s.lines && r[|s.lines|] == Line(s.nextId, productId, 1)
    ensures Find(s.lines, productId).Some? ==>
      var k, r := Find(s.lines, productId).value, Added(s, productId).lines;
      |r| == |s.lines| &&
      (forall j :: 0 <= j < |r| && j != k ==> r[j] == s.lines[j]) &&
      r[k].id == s.lines[k].id && r[k].productId == productId && r[k].quantity == s.lines[k].quantity + 1
  {
    var r := Added(s, productId).lines;
    match Find(s.lines, productId)
    case Some(k) =>
      forall p {
        FindWithQuantity(s.lines, k, s.lines[k].quantity + 1, p);
      }
    case None =>
      forall p {
        FindAppend(s.lines, Line(s.nextId, productId, 1), p);
      }
      assert r[..|s.lines|] == s.lines;
  }

  /** `n` "add" requests for one product raise its quantity by exactly `n`. */
  lemma {:induction false} AddedTimesEffect(s: CartState, productId: int, n: nat)
    ensures QuantityOf(AddedTimes(s, productId, n).lines, productId) == QuantityOf(s.lines, productId) + n
    decreases n
  {
    if n > 0 {
      AddedEffect(s, productId);
      AddedTimesEffect(Added(s, productId), productId, n - 1);
    }
  }

  /** Starting from a cart without the product, `n` "add" requests leave
      quantity `n`. */
  lemma AddedTimesFromAbsent(s: CartState, productId: int, n: nat)
    requires Find(s.lines, productId).None?
    ensures QuantityOf(AddedTimes(s, productId, n).lines, productId) == n
  {
    AddedTimesEffect(s, productId, n);
  }

  /** "remove": a quantity above 1 goes down by exactly 1, a line at 1 (or
      below) is deleted, a product without a line is left alone; no other
      product changes. */
  lemma RemovedEffect(s: CartState, productId: int)
    requires Inv(s)
    ensures QuantityOf(Removed(s, productId).lines, productId) ==
      if QuantityOf(s.lines, productId) > 1 then QuantityOf(s.lines, productId) - 1 else 0
    ensures forall other :: other != productId ==>
      QuantityOf(Removed(s, productId).lines, other) == QuantityOf(s.lines, other)
    ensures Find(s.lines, productId).None? ==> Removed(s, productId) == s
    ensures QuantityOf(s.lines, productId) == 1 ==>
      |Removed(s, productId).lines| == |s.lines| - 1 && Find(Removed(s, productId).lines, productId).None?
    ensures QuantityOf(s.lines, productId) > 1 ==>
      |Removed(s, productId).lines| == |s.lines| && Find(Removed(s, productId).lines, productId) == Find(s.lines, productId)
    ensures Find(s.lines, productId).Some? && QuantityOf(s.lines, productId) > 1 ==>
      var k, r := Find(s.lines, productId).value, Removed(s, productId).lines;
      |r| == |s.lines| &&
      (forall j :: 0 <= j < |r| && j != k ==> r[j] == s.lines[j]) &&
      r[k].id == s.lines[k].id && r[k].productId == productId && r[k].quantity == s.lines[k].quantity - 1
  {
    match Find(s.lines, productId)
    case None =>
    case Some(k) =>
      var q := s.lines[k].quantity;
      if q > 1 {
        forall p {
          FindWithQuantity(s.lines, k, q - 1, p);
        }
      } else {
        FindDeleteOnly(s.lines, k);
        forall p | p != productId {
          QuantityOfDelete(s.lines, k, p);
        }
      }
  }

  /** "set q" on a product with a line: a positive q becomes its quantity
      exactly, any other q deletes the line; a product without a line is
      left alone; no other product changes. */
  lemma QuantitySetEffect(s: CartState, productId: int, quantity: int)
    requires Inv(s)
    ensures Find(s.lines, productId).None? ==> QuantitySet(s, productId, quantity) == s
    ensures Find(s.lines, productId).Some? ==>
      QuantityOf(QuantitySet(s, productId, quantity).lines, productId) == if quantity > 0 then quantity else 0
    ensures Find(s.lines, productId).Some? && quantity > 0 ==>
      var k, r := Find(s.lines, productId).value, QuantitySet(s, productId, quantity).lines;
      |r| == |s.lines| &&
      (forall j :: 0 <= j < |r| && j != k ==> r[j] == s.lines[j]) &&
      r[k].id == s.lines[k].id && r[k].productId == productId && r[k].quantity == quantity
    ensures Find(s.lines, productId).Some? && quantity <= 0 ==>
      |QuantitySet(s, productId, quantity).lines| == |s.lines| - 1 &&
      Find(QuantitySet(s, productId, quantity).lines, productId).None?
    ensures forall other :: other != productId ==>
      QuantityOf(QuantitySet(s, productId, quantity).lines, other) == QuantityOf(s.lines, other)
  {
    match Find(s.lines, productId)
    case None =>
    case Some(k) =>
      if quantity > 0 {
        forall p {
          FindWithQuantity(s.lines, k, quantity, p);
        }
      } else {
        FindDeleteOnly(s.lines, k);
        forall p | p != productId {
          QuantityOfDelete(s.lines, k, p);
        }
      }
  }

  /** A request whose action is none of "add", "remove", "set", or a "set"
      without a quantity, leaves the cart unchanged. */
  lemma OtherRequestsChangeNothing(s: CartState, request: Request)
    requires request.action.Some?
    requires request.action.value != ADD && request.action.value != REMOVE
    requires request.action.value != SET || request.quantity.None?
    ensures Applied(s, request) == s
  {
  }

  /** "add" followed by "remove" of the same product gives back the lines the
      cart had, whether or not the product had a line before. */
  lemma AddThenRemove(s: CartState, productId: int)
    requires Inv(s)
    ensures Removed(Added(s, productId), productId).lines == s.lines
  {
    var a := Added(s, productId);
    match Find(s.lines, productId)
    case Some(k) =>
      FindWithQuantity(s.lines, k, s.lines[k].quantity + 1, productId);
      assert WithQuantity(a.lines, k, s.lines[k].quantity) == s.lines;
    case None =>
      FindAppend(s.lines, Line(s.nextId, productId, 1), productId);
      assert Delete(a.lines, |s.lines|) == s.lines;
  }

  // ---------------------------------------------------------------------
  // The cart held in place

  /** The process-wide cart. Its methods change the lines in place, as the
      request handler does through the store. */
  class Cart {
    var lines: seq<Line>
    var nextId: int

    function State(): CartState
      reads this
    {
      CartState(lines, nextId)
    }

    ghost predicate Valid()
      reads this
    {
      Inv(State())
    }

    /** An empty cart table; the store numbers rows from 1. */
    constructor ()
      ensures Valid() && lines == [] && nextId == 1
    {
      lines := [];
      nextId := 1;
    }

    method Add(productId: int)
      requires Valid()
      modifies this
      ensures Valid()
      ensures State() == Added(old(State()), productId)
    {
      AddedKeepsInv(State(), productId);
      var found := Find(lines, productId);
      match found {
        case Some(k) =>
          lines := lines[k := lines[k].(quantity := lines[k].quantity + 1)];
        case None =>
          lines := lines + [Line(nextId, productId, 1)];
          nextId := nextId + 1;
      }
    }

    method Remove(productId: int)
      requires Valid()
      modifies this
      ensures Valid()
      ensures State() == Removed(old(State()), productId)
    {
      RemovedKeepsInv(State(), productId);
      var found := Find(lines, productId);
      match found {
        case Some(k) =>
          if lines[k].quantity > 1 {
            lines := lines[k := lines[k].(quantity := lines[k].quantity - 1)];
          } else {
            lines := lines[..k] + lines[k + 1..];
          }
        case None =>
      }
    }

    method Set(productId: int, quantity: int)
      requires Valid()
      modifies this
      ensures Valid()
      ensures State() == QuantitySet(old(State()), productId, quantity)
    {
      QuantitySetKeepsInv(State(), productId, quantity);
      var found := Find(lines, productId);
      match found {
        case Some(k) =>
          if quantity > 0 {
            lines := lines[k := lines[k].(quantity := quantity)];
          } else {
            lines := lines[..k] + lines[k + 1..];
          }
        case None =>
      }
    }

    /** `POST /api/cart`: dispatches on the action. */
    method Apply(request: Request)
      requires Valid()
      modifies this
      ensures Valid()
      ensures State() == Applied(old(State()), request)
    {
      var action := if request.action.None? then ADD else request.action.value;
      if action == ADD {
        Add(request.productId);
      } else if action == REMOVE {
        Remove(request.productId);
      } else if action == SET && request.quantity.Some? {
        Set(request.productId, request.quantity.value);
      }
    }

    /** `/checkout`: an empty cart is sent back to the cart page before the
        form is validated; otherwise a submitted form that validates places
        the order, and anything else shows the form again, with the error
        validation appended. The cart is only read. */
    method Checkout(form: Form, submitted: bool) returns (outcome: CheckoutOutcome)
      ensures outcome == RedirectToCart <==> lines == []
      ensures outcome == OrderPlaced <==> lines != [] && submitted && Accepted(form)
      ensures outcome.ShowForm? && outcome.error.Some? ==> submitted && !Accepted(form)
      // a failure of the library's own validators adds no custom error
      ensures lines != [] && submitted && !form.baseValid ==> outcome == ShowForm(None)
      // a blank card field is reported with its own message
      ensures (lines != [] && submitted && form.baseValid && form.paymentMethod == CREDIT &&
               FirstBlank(CardEntries(form)).Some?) ==>
        var e := CardEntries(form)[FirstBlank(CardEntries(form)).value];
        outcome == ShowForm(Some(FieldError(e.field, e.message)))
      // with all card fields filled, a bad length and then a bad checksum are reported on the card number
      ensures (lines != [] && submitted && form.baseValid && form.paymentMethod == CREDIT &&
               FirstBlank(CardEntries(form)).None?) ==>
        var ds := Digits(form.cardNumber.value);
        outcome == (if !LengthOk(ds) then ShowForm(Some(FieldError(CardNumber, LENGTH_MESSAGE)))
                    else if !LuhnValid(ds) then ShowForm(Some(FieldError(CardNumber, CHECKSUM_MESSAGE)))
                    else OrderPlaced)
    {
      if lines == [] {
        return RedirectToCart;
      }
      if !submitted {
        return ShowForm(None);
      }
      var ok, error := Validate(form);
      if ok {
        return OrderPlaced;
      }
      return ShowForm(error);
    }
  }
}
