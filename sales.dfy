/**
 * The sales history endpoint (`GET /api/sales`): the committed bills that
 * pass the query's filters, newest first, each flattened into the view the
 * history screen shows. Bills carry their client and their lines with the
 * joined ornament and merchant, as the store's `include` returns them.
 */
module Sales {
  import opened Wrappers
  import opened Text
  import opened Order

  /** One day, in milliseconds: the width of the date filter's window. */
  const DAY: int := 86_400_000

  /** A bill item joined with its ornament and the ornament's merchant. */
  datatype BillLine = BillLine(
    ornamentId: string,
    itemType: string,
    ornamentSold: bool,
    merchantName: string,
    merchantCode: string,
    sellingPrice: real)

  datatype Bill = Bill(
    id: nat,
    clientName: string,
    clientPhone: string,
    createdAt: int,
    totalAmount: real,
    lines: seq<BillLine>)

  /**
   * The query string: `date` is the start of the requested day, absent when
   * the parameter is; an absent `search` is the empty string. `paymentMethod`
   * is read but never used.
   */
  datatype SalesQuery = SalesQuery(date: Option<int>, paymentMethod: string, search: string)

  datatype ItemDetail = ItemDetail(
    ornamentId: string,
    itemType: string,
    merchantName: string,
    merchantCode: string,
    sellingPrice: real)

  datatype SaleView = SaleView(
    id: nat,
    billId: string,
    clientName: string,
    clientPhone: string,
    date: int,
    items: nat,
    total: real,
    itemDetails: seq<ItemDetail>)

  /** The base filter: some item of the bill refers to a sold ornament. */
  predicate HasSoldItem(b: Bill)
  {
    exists i | 0 <= i < |b.lines| :: b.lines[i].ornamentSold
  }

  /** `gte: date, lt: date + 1 day`: a half-open window. */
  predicate WithinDay(b: Bill, day: int)
  {
    day <= b.createdAt < day + DAY
  }

  /** The `OR` of `contains` on the client's name and phone (case-sensitive here). */
  predicate MatchesSearch(b: Bill, search: string)
  {
    Contains(b.clientName, search) || Contains(b.clientPhone, search)
  }

  /** The whole `where` clause: the base filter and each filter the query sets. */
  predicate Selected(b: Bill, q: SalesQuery)
  {
    && HasSoldItem(b)
    && (q.date.Some? ==> WithinDay(b, q.date.value))
    && (q.search != "" ==> MatchesSearch(b, q.search))
  }

  /** The bills the `where` clause selects, in store order. */
  function Matching(bills: seq<Bill>, q: SalesQuery): (r: seq<Bill>)
    ensures |r| <= |bills|
    ensures forall b :: b in r <==> b in bills && Selected(b, q)
  {
    if bills == [] then []
    else if Selected(bills[0], q) then [bills[0]] + Matching(bills[1..], q)
    else Matching(bills[1..], q)
  }

  function CreatedAt(b: Bill): int
  {
    b.createdAt
  }

  /** `` `BILL-${id.toString().padStart(6, '0')}` `` */
  function BillNumber(id: nat): (r: string)
    ensures |r| == 5 + if |DecimalDigits(id)| >= 6 then |DecimalDigits(id)| else 6
    ensures r[..5] == "BILL-"
    ensures r[|r| - |DecimalDigits(id)|..] == DecimalDigits(id)
    ensures forall i :: 5 <= i < |r| - |DecimalDigits(id)| ==> r[i] == '0'
  {
    "BILL-" + PadStart(DecimalDigits(id), 6, '0')
  }

  /** Reads a bill number back: the prefix, then decimal digits. */
  function ParseBillNumber(s: string): Option<nat>
  {
    if |s| >= 5 && s[..5] == "BILL-" && AllDigits(s[5..]) then Some(ParseDecimal(s[5..]))
    else None
  }

  /** Bill numbers identify their bills: the number reads back as the id. */
  lemma BillNumberRoundTrip(id: nat)
    ensures ParseBillNumber(BillNumber(id)) == Some(id)
  {
    var digits := DecimalDigits(id);
    var k := if |digits| >= 6 then 0 else 6 - |digits|;
    assert PadStart(digits, 6, '0') == Repeat('0', k) + digits;
    assert BillNumber(id)[5..] == Repeat('0', k) + digits;
    ParseDecimalLeadingZeros(k, digits);
    ParseDecimalDigits(id);
  }

  /** Different bills get different numbers. */
  lemma BillNumberInjective(id1: nat, id2: nat)
    requires id1 != id2
    ensures BillNumber(id1) != BillNumber(id2)
  {
    BillNumberRoundTrip(id1);
    BillNumberRoundTrip(id2);
  }

  /** A short id is padded to six digits. */
  lemma BillNumberPadded()
    ensures BillNumber(42) == "BILL-000042"
  {
    assert DecimalDigits(4) == "4";
    assert DecimalDigits(42) == "42";
    assert Repeat('0', 4) == "0000";
  }

  /** An id of more than six digits is kept whole, not truncated. */
  lemma BillNumberNotTruncated()
    ensures BillNumber(1234567) == "BILL-1234567"
  {
    assert DecimalDigits(1234567) == "1234567" by {
      assert DecimalDigits(1) == "1";
      assert DecimalDigits(12) == "12";
      assert DecimalDigits(123) == "123";
      assert DecimalDigits(1234) == "1234";
      assert DecimalDigits(12345) == "12345";
      assert DecimalDigits(123456) == "123456";
    }
  }

  function Detail(line: BillLine): ItemDetail
  {
    ItemDetail(line.ornamentId, line.itemType, line.merchantName, line.merchantCode, line.sellingPrice)
  }

  /** The `transformedSales` mapping of one bill. */
  function View(b: Bill): (v: SaleView)
    ensures v.id == b.id && v.billId == BillNumber(b.id) && v.date == b.createdAt
    ensures v.clientName == b.clientName && v.clientPhone == b.clientPhone
    ensures v.items == |b.lines| == |v.itemDetails|
    ensures v.total == b.totalAmount
    ensures forall i :: 0 <= i < |b.lines| ==>
              v.itemDetails[i].ornamentId == b.lines[i].ornamentId
              && v.itemDetails[i].sellingPrice == b.lines[i].sellingPrice
  {
    SaleView(b.id, BillNumber(b.id), b.clientName, b.clientPhone, b.createdAt, |b.lines|,
             b.totalAmount, seq(|b.lines|, i requires 0 <= i < |b.lines| => Detail(b.lines[i])))
  }

  /** `sales.map(...)`: each bill as its view, in the same order. */
  function Views(bills: seq<Bill>): (r: seq<SaleView>)
    ensures |r| == |bills|
    ensures forall i :: 0 <= i < |bills| ==> r[i] == View(bills[i])
  {
    seq(|bills|, i requires 0 <= i < |bills| => View(bills[i]))
  }

  /** The endpoint's answer: the matching bills, newest first, each as its view. */
  function SalesHistory(bills: seq<Bill>, q: SalesQuery): (r: seq<SaleView>)
    ensures |r| == |Matching(bills, q)|
    ensures forall i, j :: 0 <= i < j < |r| ==> r[i].date >= r[j].date
    ensures forall v :: v in r ==> exists b :: b in bills && Selected(b, q) && v == View(b)
  {
    var ordered := SortNewestFirst(Matching(bills, q), CreatedAt);
    ViewsOfSelected(Matching(bills, q), ordered, bills, q);
    Views(ordered)
  }

  lemma ViewsOfSelected(matching: seq<Bill>, ordered: seq<Bill>, bills: seq<Bill>, q: SalesQuery)
    requires matching == Matching(bills, q) && ordered == SortNewestFirst(matching, CreatedAt)
    ensures forall v :: v in Views(ordered) ==> exists b :: b in bills && Selected(b, q) && v == View(b)
  {
    forall v | v in Views(ordered) ensures exists b :: b in bills && Selected(b, q) && v == View(b) {
      var i :| 0 <= i < |ordered| && Views(ordered)[i] == v;
      SortKeepsMembers(matching, CreatedAt, ordered[i]);
    }
  }

  /** Every bill the filters select is listed. */
  lemma SalesHistoryComplete(bills: seq<Bill>, q: SalesQuery, b: Bill)
    requires b in bills && Selected(b, q)
    ensures View(b) in SalesHistory(bills, q)
  {
    var ordered := SortNewestFirst(Matching(bills, q), CreatedAt);
    SortKeepsMembers(Matching(bills, q), CreatedAt, b);
    var i :| 0 <= i < |ordered| && ordered[i] == b;
    assert SalesHistory(bills, q) == Views(ordered);
  }

  /**
   * What every listed sale satisfies: at least one item, the day window when
   * a date is given, the search on name or phone when one is given.
   */
  lemma SalesHistorySound(bills: seq<Bill>, q: SalesQuery, v: SaleView)
    requires v in SalesHistory(bills, q)
    ensures v.items >= 1
    ensures q.date.Some? ==> q.date.value <= v.date < q.date.value + DAY
    ensures q.search != "" ==> Contains(v.clientName, q.search) || Contains(v.clientPhone, q.search)
  {
    var b :| b in bills && Selected(b, q) && v == View(b);
  }

  /** A bill without items is never listed, whatever the query. */
  lemma EmptyBillNeverListed(bills: seq<Bill>, q: SalesQuery, b: Bill)
    requires b.lines == []
    ensures View(b) !in SalesHistory(bills, q)
  {
    if View(b) in SalesHistory(bills, q) {
      SalesHistorySound(bills, q, View(b));
    }
  }

  /** The `paymentMethod` parameter has no effect on the answer. */
  lemma PaymentMethodIgnored(bills: seq<Bill>, date: Option<int>, search: string, pm1: string, pm2: string)
    ensures SalesHistory(bills, SalesQuery(date, pm1, search))
            == SalesHistory(bills, SalesQuery(date, pm2, search))
  {
    assert forall b :: Selected(b, SalesQuery(date, pm1, search)) == Selected(b, SalesQuery(date, pm2, search));
    assert Matching(bills, SalesQuery(date, pm1, search)) == Matching(bills, SalesQuery(date, pm2, search)) by {
      MatchingIgnoresPaymentMethod(bills, date, search, pm1, pm2);
    }
  }

  lemma {:induction false} MatchingIgnoresPaymentMethod(bills: seq<Bill>, date: Option<int>, search: string,
                                                        pm1: string, pm2: string)
    ensures Matching(bills, SalesQuery(date, pm1, search)) == Matching(bills, SalesQuery(date, pm2, search))
  {
    if bills != [] {
      MatchingIgnoresPaymentMethod(bills[1..], date, search, pm1, pm2);
    }
  }
}
