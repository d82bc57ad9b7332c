/**
 * The checkout screen: a cart of ornaments filled by scanning an id or by
 * picking from a type's list, its bill summary, and the sale request sent
 * when the sale is completed.
 *
 * The lookup's answer and whether the sale endpoint reported success are
 * parameters of the handlers; a request that throws leaves the state as an
 * unsuccessful answer does. The pure functions below specify the handlers of
 * class `Checkout` and carry the lemmas.
 */
module Billing {
  import opened Wrappers
  import opened Inventory
  import opened Text
  import opened ScanItem

  /** An entry of the cart: the looked-up fields and the price locked in when it was added. */
  datatype CartItem = CartItem(
    ornamentId: string,
    itemType: string,
    weight: real,
    purity: string,
    costPrice: real,
    merchantCode: string,
    sellingPrice: real)

  datatype Client = Client(id: int, name: string, phone: string)

  datatype ScanOutcome =
    | Skipped         // blank input: no request is made
    | Added
    | AlreadyInCart   // "Item already added"
    | Rejected        // "Invalid QR code"

  datatype PayloadItem = PayloadItem(ornamentId: string, sellingPrice: real)

  /** The body posted to the sale endpoint. */
  datatype SalePayload = SalePayload(
    clientName: string,
    clientPhone: string,
    items: seq<PayloadItem>,
    subtotal: real,
    tax: int,
    total: real,
    paymentMethod: string)

  datatype SaleRequest =
    | NeedsClient     // the client dialog is opened instead
    | NoItems         // "No items added"
    | Send(payload: SalePayload)

  /** The client slot as the screen starts and as a completed sale leaves it. */
  function NoClient(): Client
  {
    Client(0, "", "")
  }

  /** `data.item`, the found ornament with its rounded selling price. */
  function FromFound(p: PricedOrnament): (r: CartItem)
    ensures r.ornamentId == p.ornament.ornamentId && r.sellingPrice == p.sellingPrice as real
  {
    var o := p.ornament;
    CartItem(o.ornamentId, o.itemType, o.weight, o.purity, o.costPrice, o.merchantCode, p.sellingPrice as real)
  }

  /** `{ ...selectedItem, sellingPrice: selectedItem.costPrice * 1.03 }`: the price is not rounded. */
  function FromListing(l: Listing): (r: CartItem)
    ensures r.ornamentId == l.ornamentId && r.sellingPrice == Markup(l.costPrice)
  {
    CartItem(l.ornamentId, l.itemType, l.weight, l.purity, l.costPrice, l.merchantCode, Markup(l.costPrice))
  }

  predicate InCart(cart: seq<CartItem>, id: string)
  {
    exists i | 0 <= i < |cart| :: cart[i].ornamentId == id
  }

  /** No ornament appears twice in the cart. */
  predicate DistinctIds(cart: seq<CartItem>)
  {
    forall i, j :: 0 <= i < j < |cart| ==> cart[i].ornamentId != cart[j].ornamentId
  }

  // ---------------------------------------------------------------- scanning

  /** What `handleScanQR` does with the current input, cart and lookup answer. */
  function ScanOutcomeOf(qrInput: string, cart: seq<CartItem>, reply: LookupResponse): (r: ScanOutcome)
    ensures r == Skipped <==> forall i :: 0 <= i < |qrInput| ==> IsWhitespace(qrInput[i])
    ensures r == Added <==> Trim(qrInput) != "" && reply.Found? && !InCart(cart, reply.item.ornament.ornamentId)
    ensures r == AlreadyInCart <==> Trim(qrInput) != "" && reply.Found? && InCart(cart, reply.item.ornament.ornamentId)
  {
    if Trim(qrInput) == "" then Skipped
    else if !reply.Found? then Rejected
    else if InCart(cart, reply.item.ornament.ornamentId) then AlreadyInCart
    else Added
  }

  /** The cart after `handleScanQR`. */
  function CartAfterScan(cart: seq<CartItem>, qrInput: string, reply: LookupResponse): (r: seq<CartItem>)
    ensures ScanOutcomeOf(qrInput, cart, reply) != Added ==> r == cart
    ensures ScanOutcomeOf(qrInput, cart, reply) == Added ==>
              |r| == |cart| + 1 && r[..|cart|] == cart && r[|cart|] == FromFound(reply.item)
    ensures DistinctIds(cart) ==> DistinctIds(r)
  {
    if ScanOutcomeOf(qrInput, cart, reply) == Added then cart + [FromFound(reply.item)] else cart
  }

  /**
   * Scanning against the lookup endpoint adds an item exactly when the store
   * holds an unsold ornament whose id is the input as typed (the input is
   * sent untrimmed) and no entry of the cart has that id.
   */
  lemma ScanAddsExactlyAvailable(store: seq<Ornament>, cart: seq<CartItem>, qrInput: string)
    requires Trim(qrInput) != ""
    ensures var reply := Lookup(store, LookupRequest(qrInput, ""));
            ScanOutcomeOf(qrInput, cart, reply) == Added
            <==> (exists i :: 0 <= i < |store| && store[i].ornamentId == qrInput && !store[i].isSold)
                 && !InCart(cart, qrInput)
  {
    FoundIffAvailable(store, qrInput);
  }

  // ---------------------------------------------------------------- the dropdown

  /** `typeItems.find(item => item.ornamentId === value)`: the first listing with that id. */
  function FirstWithId(items: seq<Listing>, id: string): (r: Option<Listing>)
    ensures r.None? <==> forall k :: 0 <= k < |items| ==> items[k].ornamentId != id
    ensures r.Some? ==> exists k :: 0 <= k < |items| && items[k] == r.value && r.value.ornamentId == id
                                    && forall j :: 0 <= j < k ==> items[j].ornamentId != id
  {
    if items == [] then None
    else if items[0].ornamentId == id then Some(items[0])
    else
      var r := FirstWithId(items[1..], id);
      assert r.Some? ==> exists k :: 0 < k < |items| && items[k] == r.value && r.value.ornamentId == id
                                     && forall j :: 0 <= j < k ==> items[j].ornamentId != id by {
        if r.Some? {
          var k :| 0 <= k < |items[1..]| && items[1..][k] == r.value
                   && forall j :: 0 <= j < k ==> items[1..][j].ornamentId != id;
          assert items[k + 1] == r.value;
        }
      }
      r
  }

  /** The cart after choosing `value` in the item dropdown: no duplicate check, unrounded price. */
  function CartAfterDropdown(cart: seq<CartItem>, typeItems: seq<Listing>, value: string): (r: seq<CartItem>)
    ensures FirstWithId(typeItems, value).None? ==> r == cart
    ensures FirstWithId(typeItems, value).Some? ==>
              |r| == |cart| + 1 && r[..|cart|] == cart && r[|cart|].ornamentId == value
              && r[|cart|].sellingPrice == Markup(FirstWithId(typeItems, value).value.costPrice)
  {
    match FirstWithId(typeItems, value)
    case None => cart
    case Some(item) => cart + [FromListing(item)]
  }

  /** The dropdown can add an ornament that is already in the cart, breaking `DistinctIds`. */
  lemma DropdownMayDuplicate()
    ensures var l := Listing("R-001", "ring", 5.0, "22K", 1000.0, "M1", 1030);
            var cart := [FromListing(l)];
            DistinctIds(cart) && !DistinctIds(CartAfterDropdown(cart, [l], "R-001"))
  {
    var l := Listing("R-001", "ring", 5.0, "22K", 1000.0, "M1", 1030);
    var r := CartAfterDropdown([FromListing(l)], [l], "R-001");
    assert r[0].ornamentId == r[1].ornamentId;
  }

  /** The two ways of adding price the same ornament differently when `cost * 1.03` is not whole. */
  lemma DropdownPriceIsUnrounded(o: Ornament)
    requires o.costPrice == 50.0
    ensures FromFound(PricedOrnament(o, SellingPrice(o.costPrice))).sellingPrice == 52.0
    ensures FromListing(ToListing(o)).sellingPrice == 103.0 / 2.0
  {
    SellingPriceExamples();
  }

  // ---------------------------------------------------------------- removal

  /** `scannedItems.filter(item => item.ornamentId !== id)` */
  function Without(cart: seq<CartItem>, id: string): (r: seq<CartItem>)
    ensures |r| <= |cart|
    ensures forall i :: 0 <= i < |r| ==> r[i].ornamentId != id
    ensures !InCart(cart, id) ==> r == cart
  {
    if cart == [] then []
    else
      (if cart[0].ornamentId == id then [] else [cart[0]]) + Without(cart[1..], id)
  }

  /** Every entry with another id is kept, as often as it occurs. */
  lemma {:induction false} WithoutKeepsOthers(cart: seq<CartItem>, id: string, x: CartItem)
    requires x.ornamentId != id
    ensures multiset(Without(cart, id))[x] == multiset(cart)[x]
  {
    if cart != [] {
      WithoutKeepsOthers(cart[1..], id, x);
      assert cart == [cart[0]] + cart[1..];
    }
  }

  /** Removal keeps the order of what it keeps: it distributes over concatenation. */
  lemma {:induction false} WithoutConcat(a: seq<CartItem>, b: seq<CartItem>, id: string)
    ensures Without(a + b, id) == Without(a, id) + Without(b, id)
  {
    if a == [] {
      assert a + b == b;
    } else {
      var ab := a + b;
      assert ab[0] == a[0] && ab[1..] == a[1..] + b;
      WithoutConcat(a[1..], b, id);
      assert Without(ab, id) == (if a[0].ornamentId == id then [] else [a[0]]) + Without(a[1..] + b, id);
    }
  }

  // ---------------------------------------------------------------- the bill summary

  /** `calculateSubtotal`: the selling prices summed from the first entry on. */
  function Subtotal(cart: seq<CartItem>): real
  {
    if cart == [] then 0.0 else Subtotal(cart[..|cart| - 1]) + cart[|cart| - 1].sellingPrice
  }

  /** `calculateTax`: 3% of the subtotal, rounded to the nearest unit. */
  function Tax(cart: seq<CartItem>): (r: int)
    ensures Subtotal(cart) * 3.0 / 100.0 - 1.0 / 2.0 < r as real <= Subtotal(cart) * 3.0 / 100.0 + 1.0 / 2.0
  {
    Round(Subtotal(cart) * 3.0 / 100.0)
  }

  /** `calculateTotal`: within half a unit of 103% of the subtotal. */
  function Total(cart: seq<CartItem>): (r: real)
    ensures Subtotal(cart) * 103.0 / 100.0 - 1.0 / 2.0 < r <= Subtotal(cart) * 103.0 / 100.0 + 1.0 / 2.0
    ensures r - Subtotal(cart) == Tax(cart) as real
  {
    Subtotal(cart) + Tax(cart) as real
  }

  /** An empty cart shows 0, 0 and 0. */
  lemma EmptySummary()
    ensures Subtotal([]) == 0.0 && Tax([]) == 0 && Total([]) == 0.0
  {
  }

  /** The subtotal of a joined cart is the sum of the parts' subtotals. */
  lemma {:induction false} SubtotalConcat(a: seq<CartItem>, b: seq<CartItem>)
    ensures Subtotal(a + b) == Subtotal(a) + Subtotal(b)
  {
    if b == [] {
      assert a + b == a;
    } else {
      SubtotalConcat(a, b[..|b| - 1]);
      assert (a + b)[..|a + b| - 1] == a + b[..|b| - 1];
    }
  }

  /** With non-negative prices the subtotal, tax and total are non-negative and total >= subtotal. */
  lemma {:induction false} SummaryNonNegative(cart: seq<CartItem>)
    requires forall i :: 0 <= i < |cart| ==> cart[i].sellingPrice >= 0.0
    ensures Subtotal(cart) >= 0.0 && Tax(cart) >= 0 && Total(cart) >= Subtotal(cart)
  {
    if cart != [] {
      SummaryNonNegative(cart[..|cart| - 1]);
    }
  }

  /** Removing an entry of a cart without duplicates lowers the subtotal by exactly its price. */
  lemma {:induction false} SubtotalAfterRemove(cart: seq<CartItem>, k: nat)
    requires DistinctIds(cart) && k < |cart|
    ensures Subtotal(Without(cart, cart[k].ornamentId)) == Subtotal(cart) - cart[k].sellingPrice
  {
    var pre, post := cart[..k], cart[k + 1..];
    var upto := pre + [cart[k]];
    RemoveFromDistinct(cart, k);
    assert cart == upto + post;
    SubtotalConcat(upto, post);
    SubtotalConcat(pre, post);
    assert Subtotal(upto) == Subtotal(pre) + cart[k].sellingPrice by {
      assert upto[..|upto| - 1] == pre;
    }
  }

  /** In a cart without duplicates, removing the id of entry `k` removes that entry alone. */
  lemma {:induction false} RemoveFromDistinct(cart: seq<CartItem>, k: nat)
    requires DistinctIds(cart) && k < |cart|
    ensures Without(cart, cart[k].ornamentId) == cart[..k] + cart[k + 1..]
  {
    var id := cart[k].ornamentId;
    var pre, post := cart[..k], cart[k + 1..];
    IdOccursOnce(cart, k);
    var tail := [cart[k]] + post;
    assert cart == pre + tail;
    assert Without(tail, id) == post by {
      assert tail[0] == cart[k] && tail[1..] == post;
    }
    WithoutConcat(pre, tail, id);
  }

  /** In a cart without duplicates, no entry before or after entry `k` has its id. */
  lemma {:induction false} IdOccursOnce(cart: seq<CartItem>, k: nat)
    requires DistinctIds(cart) && k < |cart|
    ensures !InCart(cart[..k], cart[k].ornamentId)
    ensures !InCart(cart[k + 1..], cart[k].ornamentId)
  {
    var post := cart[k + 1..];
    forall i | 0 <= i < |post| ensures post[i].ornamentId != cart[k].ornamentId {
      assert post[i] == cart[k + 1 + i];
    }
  }

  /**
   * The 3% is applied twice: once per item when it is looked up and again on
   * the subtotal, so one scanned ornament costs about 106.09% of its cost.
   */
  lemma DoubleMarkup(o: Ornament)
    ensures var cart := [FromFound(PricedOrnament(o, SellingPrice(o.costPrice)))];
            var exact := o.costPrice * 10609.0 / 10000.0;
            exact - 203.0 / 200.0 < Total(cart) <= exact + 203.0 / 200.0
  {
    var cart := [FromFound(PricedOrnament(o, SellingPrice(o.costPrice)))];
    assert cart[..0] == [];
    assert Subtotal(cart) == SellingPrice(o.costPrice) as real;
  }

  // ---------------------------------------------------------------- completing the sale

  /** `scannedItems.map(item => ({ ornamentId, sellingPrice }))` */
  function PayloadItems(cart: seq<CartItem>): (r: seq<PayloadItem>)
    ensures |r| == |cart|
    ensures forall i :: 0 <= i < |cart| ==>
              r[i].ornamentId == cart[i].ornamentId && r[i].sellingPrice == cart[i].sellingPrice
  {
    seq(|cart|, i requires 0 <= i < |cart| => PayloadItem(cart[i].ornamentId, cart[i].sellingPrice))
  }

  /** What a receiver of the payload would recompute: the sum of its line prices. */
  function LinesSum(items: seq<PayloadItem>): real
  {
    if items == [] then 0.0 else LinesSum(items[..|items| - 1]) + items[|items| - 1].sellingPrice
  }

  /** The guards of `completeSale` and the request it then sends. */
  function PrepareSale(client: Client, cart: seq<CartItem>, paymentMethod: string): (r: SaleRequest)
    ensures r.NeedsClient? <==> client.name == "" || client.phone == ""
    ensures r.NoItems? <==> client.name != "" && client.phone != "" && cart == []
    ensures r.Send? ==>
              && r.payload.clientName == client.name && r.payload.clientPhone == client.phone
              && r.payload.items == PayloadItems(cart)
              && r.payload.subtotal == Subtotal(cart) && r.payload.tax == Tax(cart)
              && r.payload.total == Total(cart) && r.payload.paymentMethod == paymentMethod
  {
    if client.name == "" || client.phone == "" then NeedsClient
    else if cart == [] then NoItems
    else Send(SalePayload(client.name, client.phone, PayloadItems(cart), Subtotal(cart), Tax(cart),
                          Total(cart), paymentMethod))
  }

  lemma {:induction false} LinesSumOfCart(cart: seq<CartItem>)
    ensures LinesSum(PayloadItems(cart)) == Subtotal(cart)
  {
    if cart != [] {
      LinesSumOfCart(cart[..|cart| - 1]);
      assert PayloadItems(cart)[..|cart| - 1] == PayloadItems(cart[..|cart| - 1]);
    }
  }

  /** The request is self-consistent: its lines sum to its subtotal, and total is subtotal plus tax. */
  lemma SaleRequestConsistent(client: Client, cart: seq<CartItem>, paymentMethod: string)
    requires PrepareSale(client, cart, paymentMethod).Send?
    ensures var p := PrepareSale(client, cart, paymentMethod).payload;
            LinesSum(p.items) == p.subtotal && p.total == p.subtotal + p.tax as real && |p.items| >= 1
  {
    LinesSumOfCart(cart);
  }

  /** Worked example, first half: ornament R-001 of cost 1000 scanned into an empty cart is locked in at 1030. */
  lemma ScanExampleCart(o: Ornament)
    requires o == Ornament("R-001", "ring", 5.0, "22K", 1000.0, "M1", false, 0)
    ensures CartAfterScan([], "R-001", Lookup([o], LookupRequest("R-001", "")))
            == [CartItem("R-001", "ring", 5.0, "22K", 1000.0, "M1", 1030.0)]
  {
    SellingPriceExamples();
    var reply := Lookup([o], LookupRequest("R-001", ""));
    assert reply == Found(PricedOrnament(o, 1030));
    assert Trim("R-001") != "" by {
      assert !IsWhitespace("R-001"[0]);
    }
    assert ScanOutcomeOf("R-001", [], reply) == Added;
  }

  /** Worked example, second half: selling that cart to Asha sends subtotal 1030, tax 31, total 1061. */
  lemma SellExample(cart: seq<CartItem>)
    requires cart == [CartItem("R-001", "ring", 5.0, "22K", 1000.0, "M1", 1030.0)]
    ensures PrepareSale(Client(0, "Asha", "9990000000"), cart, "cash")
            == Send(SalePayload("Asha", "9990000000", [PayloadItem("R-001", 1030.0)], 1030.0, 31, 1061.0, "cash"))
  {
    SummaryExample(cart);
    assert PayloadItems(cart) == [PayloadItem("R-001", 1030.0)];
  }

  lemma SummaryExample(cart: seq<CartItem>)
    requires cart == [CartItem("R-001", "ring", 5.0, "22K", 1000.0, "M1", 1030.0)]
    ensures Subtotal(cart) == 1030.0 && Tax(cart) == 31 && Total(cart) == 1061.0
  {
    assert cart[..0] == [];
    RoundIsNearest(1030.0 * 3.0 / 100.0, 31);
  }

  // ---------------------------------------------------------------- the screen's state

  /** The checkout screen's state: the cart, the id field, the client and the payment method. */
  class Checkout {
    var cart: seq<CartItem>
    var qrInput: string
    var client: Client
    var paymentMethod: string

    constructor ()
      ensures cart == [] && qrInput == "" && client == NoClient() && paymentMethod == "cash"
    {
      cart := [];
      qrInput := "";
      client := NoClient();
      paymentMethod := "cash";
    }

    /** Typing in the id field. */
    method SetQrInput(text: string)
      modifies this`qrInput
      ensures qrInput == text
    {
      qrInput := text;
    }

    /** Editing the client dialog's name field. */
    method SetClientName(name: string)
      modifies this`client
      ensures client == old(client).(name := name)
    {
      client := client.(name := name);
    }

    /** Editing the client dialog's phone field. */
    method SetClientPhone(phone: string)
      modifies this`client
      ensures client == old(client).(phone := phone)
    {
      client := client.(phone := phone);
    }

    /** Choosing a payment method. */
    method SetPaymentMethod(choice: string)
      modifies this`paymentMethod
      ensures paymentMethod == choice
    {
      paymentMethod := choice;
    }

    /**
     * `handleScanQR`, given the lookup's answer for the current input: a new
     * found item is appended and the input cleared; a blank input, a failed
     * lookup or an item already in the cart change nothing.
     */
    method HandleScanQR(reply: LookupResponse) returns (outcome: ScanOutcome)
      modifies this`cart, this`qrInput
      ensures outcome == ScanOutcomeOf(old(qrInput), old(cart), reply)
      ensures cart == CartAfterScan(old(cart), old(qrInput), reply)
      ensures qrInput == if outcome == Added then "" else old(qrInput)
    {
      if Trim(qrInput) == "" {
        return Skipped;
      }
      if !reply.Found? {
        return Rejected;
      }
      if InCart(cart, reply.item.ornament.ornamentId) {
        return AlreadyInCart;
      }
      cart := cart + [FromFound(reply.item)];
      qrInput := "";
      outcome := Added;
    }

    /** Choosing `value` in the item dropdown filled by a type lookup. */
    method SelectFromDropdown(typeItems: seq<Listing>, value: string) returns (added: bool)
      modifies this`cart
      ensures added <==> exists k :: 0 <= k < |typeItems| && typeItems[k].ornamentId == value
      ensures cart == CartAfterDropdown(old(cart), typeItems, value)
    {
      var selected := FirstWithId(typeItems, value);
      added := selected.Some?;
      if added {
        cart := cart + [FromListing(selected.value)];
      }
    }

    /** `removeItem(id)` */
    method RemoveItem(id: string)
      modifies this`cart
      ensures cart == Without(old(cart), id)
    {
      cart := Without(cart, id);
    }

    /**
     * `completeSale`, given whether the sale endpoint reported success: the
     * guards send nothing; a sent request that succeeds resets the cart, the
     * client and the payment method, one that fails changes nothing.
     */
    method CompleteSale(saleSucceeded: bool) returns (request: SaleRequest)
      modifies this`cart, this`client, this`paymentMethod
      ensures request == PrepareSale(old(client), old(cart), old(paymentMethod))
      ensures if request.Send? && saleSucceeded
              then cart == [] && client == NoClient() && paymentMethod == "cash"
              else cart == old(cart) && client == old(client) && paymentMethod == old(paymentMethod)
    {
      if client.name == "" || client.phone == "" {
        return NeedsClient;
      }
      if |cart| == 0 {
        return NoItems;
      }
      request := Send(SalePayload(client.name, client.phone, PayloadItems(cart), Subtotal(cart),
                                  Tax(cart), Total(cart), paymentMethod));
      if saleSucceeded {
        cart := [];
        client := NoClient();
        paymentMethod := "cash";
      }
    }
  }
}
