/**
 * The item lookup endpoint (`POST /api/scan-item`): find an unsold ornament
 * by its exact id, or list the unsold ornaments of one type, each with its
 * selling price attached. The store is an in-memory sequence of ornaments in
 * the store's own order; nothing here changes it.
 *
 * A string field that the request leaves out and an empty string are both
 * falsy in the source, so both are the empty string here.
 */
module ScanItem {
  import opened Wrappers
  import opened Inventory

  datatype LookupRequest = LookupRequest(qrCode: string, itemType: string)

  /** A found ornament with every stored field, plus `sellingPrice`. */
  datatype PricedOrnament = PricedOrnament(ornament: Ornament, sellingPrice: int)

  /** The fields the type lookup selects, plus `sellingPrice`. */
  datatype Listing = Listing(
    ornamentId: string,
    itemType: string,
    weight: real,
    purity: string,
    costPrice: real,
    merchantCode: string,
    sellingPrice: int)

  datatype LookupResponse =
    | Found(item: PricedOrnament)      // 200 { success: true, item }
    | Items(items: seq<Listing>)       // 200 { success: true, items }
    | NotFound                         // 404 "Item not found or already sold"
    | ScanFailed                       // 500 "Failed to scan item"

  /** `findFirst({ ornamentId: id, isSold: false })`: the first such ornament in store order. */
  function FindAvailable(store: seq<Ornament>, id: string): (r: Option<Ornament>)
    ensures r.Some? ==> r.value in store && r.value.ornamentId == id && !r.value.isSold
    ensures r.None? ==> forall i :: 0 <= i < |store| ==> store[i].ornamentId != id || store[i].isSold
  {
    if store == [] then None
    else if store[0].ornamentId == id && !store[0].isSold then Some(store[0])
    else FindAvailable(store[1..], id)
  }

  /** The `select` of the type lookup with the price attached by `.map`. */
  function ToListing(o: Ornament): Listing
  {
    Listing(o.ornamentId, o.itemType, o.weight, o.purity, o.costPrice, o.merchantCode,
            SellingPrice(o.costPrice))
  }

  /** `findMany({ type: t, isSold: false })`: exactly the unsold ornaments of type `t`, in store order. */
  function AvailableOfType(store: seq<Ornament>, t: string): (r: seq<Ornament>)
    ensures |r| <= |store|
    ensures forall o :: o in r <==> o in store && o.itemType == t && !o.isSold
  {
    if store == [] then []
    else if store[0].itemType == t && !store[0].isSold then [store[0]] + AvailableOfType(store[1..], t)
    else AvailableOfType(store[1..], t)
  }

  /**
   * The filter keeps store order: on a store split in two, it lists the first
   * part's matches, then the second part's.
   */
  lemma {:induction false} AvailableOfTypeConcat(a: seq<Ornament>, b: seq<Ornament>, t: string)
    ensures AvailableOfType(a + b, t) == AvailableOfType(a, t) + AvailableOfType(b, t)
  {
    if a == [] {
      assert a + b == b;
    } else {
      AvailableOfTypeConcat(a[1..], b, t);
      assert (a + b)[0] == a[0] && (a + b)[1..] == a[1..] + b;
    }
  }

  /** The type lookup's answer: the available ornaments of the type, each priced by `.map`. */
  function ListAvailable(store: seq<Ornament>, t: string): (r: seq<Listing>)
    ensures |r| == |AvailableOfType(store, t)|
    ensures forall k :: 0 <= k < |r| ==> r[k] == ToListing(AvailableOfType(store, t)[k])
  {
    var found := AvailableOfType(store, t);
    seq(|found|, k requires 0 <= k < |found| => ToListing(found[k]))
  }

  /**
   * The lookup as intended: a present `qrCode` wins over `type`; with neither,
   * the hoisted `ornament` stays undefined and the answer is the 404.
   */
  function Lookup(store: seq<Ornament>, req: LookupRequest): (r: LookupResponse)
    ensures r.Found? || r.Items? || r.NotFound?
    ensures r.Items? <==> req.qrCode == "" && req.itemType != ""
    ensures r.Found? ==> req.qrCode != ""
                         && r.item.ornament in store
                         && r.item.ornament.ornamentId == req.qrCode
                         && !r.item.ornament.isSold
                         && r.item.sellingPrice == SellingPrice(r.item.ornament.costPrice)
  {
    if req.qrCode != "" then
      match FindAvailable(store, req.qrCode)
      case Some(o) => Found(PricedOrnament(o, SellingPrice(o.costPrice)))
      case None => NotFound
    else if req.itemType != "" then
      Items(ListAvailable(store, req.itemType))
    else
      NotFound
  }

  /**
   * The lookup as the source is written: `const ornament` is declared inside
   * the `qrCode` branch, so the later `if (!ornament)` names a variable that
   * does not exist there; the resulting error is caught and answered with the
   * 500. Only the type path can succeed.
   */
  function LookupAsWritten(store: seq<Ornament>, req: LookupRequest): (r: LookupResponse)
    ensures r.Items? || r.ScanFailed?
    ensures r.ScanFailed? <==> req.qrCode != "" || req.itemType == ""
  {
    if req.qrCode != "" then ScanFailed
    else if req.itemType != "" then Items(ListAvailable(store, req.itemType))
    else ScanFailed
  }

  /** Both versions agree on every request that only names a type. */
  lemma AsWrittenAgreesOnTypeLookups(store: seq<Ornament>, t: string)
    requires t != ""
    ensures LookupAsWritten(store, LookupRequest("", t)) == Lookup(store, LookupRequest("", t))
  {
  }

  /** The discrepancy: an unsold ornament scanned by its id is found, but the code as written answers 500. */
  lemma AsWrittenLosesIdLookup()
    ensures var o := Ornament("R-001", "ring", 5.0, "22K", 1000.0, "M1", false, 0);
            Lookup([o], LookupRequest("R-001", "")) == Found(PricedOrnament(o, 1030))
            && LookupAsWritten([o], LookupRequest("R-001", "")) == ScanFailed
  {
    SellingPriceExamples();
  }

  /** An id lookup succeeds exactly when the store holds an unsold ornament with that id. */
  lemma {:induction false} FoundIffAvailable(store: seq<Ornament>, code: string)
    requires code != ""
    ensures Lookup(store, LookupRequest(code, "")).Found?
            <==> exists i :: 0 <= i < |store| && store[i].ornamentId == code && !store[i].isSold
  {
    if Lookup(store, LookupRequest(code, "")).Found? {
      var o := FindAvailable(store, code).value;
      var i :| 0 <= i < |store| && store[i] == o;
    }
  }

  /** A present `qrCode` takes precedence: the `type` field is not looked at. */
  lemma QrCodeTakesPrecedence(store: seq<Ornament>, code: string, t1: string, t2: string)
    requires code != ""
    ensures Lookup(store, LookupRequest(code, t1)) == Lookup(store, LookupRequest(code, t2))
    ensures !Lookup(store, LookupRequest(code, t1)).Items?
  {
  }

  /** A sold ornament and a missing one give the same answer, the 404. */
  lemma SoldAndAbsentLookAlike(store: seq<Ornament>, code: string)
    requires code != ""
    requires forall i :: 0 <= i < |store| ==> store[i].ornamentId == code ==> store[i].isSold
    ensures Lookup(store, LookupRequest(code, "")) == NotFound
    ensures Lookup(store, LookupRequest(code, "")) == Lookup([], LookupRequest(code, ""))
  {
  }

  /**
   * The type lookup lists an unsold ornament of the type, with its selected
   * fields copied and its selling price attached, and nothing sold or of
   * another type; an empty list is still a success.
   */
  lemma TypeLookupExact(store: seq<Ornament>, t: string, o: Ornament)
    requires t != ""
    ensures Lookup(store, LookupRequest("", t)).Items?
    ensures ToListing(o) in Lookup(store, LookupRequest("", t)).items
            <== o in store && o.itemType == t && !o.isSold
    ensures forall l :: l in Lookup(store, LookupRequest("", t)).items ==>
              exists a :: a in store && a.itemType == t && !a.isSold && l == ToListing(a)
  {
    var found := AvailableOfType(store, t);
    var items := ListAvailable(store, t);
    if o in store && o.itemType == t && !o.isSold {
      var k :| 0 <= k < |found| && found[k] == o;
      assert items[k] == ToListing(o);
    }
    forall l | l in items
      ensures exists a :: a in store && a.itemType == t && !a.isSold && l == ToListing(a)
    {
      var k :| 0 <= k < |items| && items[k] == l;
      assert found[k] in found;
    }
  }
}
