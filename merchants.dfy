/**
 * The merchant endpoint (`/api/merchant`): one merchant with its inventory
 * statistics and per-ornament status, every merchant with its statistics,
 * and the statistics reported for a merchant just created.
 */
module Merchants {
  import opened Wrappers
  import opened Inventory
  import opened Order

  datatype Merchant = Merchant(merchantCode: string, name: string, phone: string, ornaments: seq<Ornament>)

  datatype Stats = Stats(totalOrnaments: nat, inStock: nat, sold: nat, totalValue: real)

  datatype StatusOrnament = StatusOrnament(ornament: Ornament, status: string)

  datatype MerchantSummary = MerchantSummary(merchant: Merchant, stats: Stats)

  datatype MerchantResponse =
    | Detail(merchant: Merchant, stats: Stats, ornaments: seq<StatusOrnament>)
    | AllMerchants(summaries: seq<MerchantSummary>)
    | MerchantNotFound                 // 404 "Merchant not found"

  /** `filter(o => !o.isSold)` */
  function InStock(os: seq<Ornament>): (r: seq<Ornament>)
    ensures |r| <= |os|
    ensures forall i :: 0 <= i < |r| ==> !r[i].isSold
  {
    if os == [] then []
    else if !os[0].isSold then [os[0]] + InStock(os[1..])
    else InStock(os[1..])
  }

  /** `filter(o => o.isSold)` */
  function SoldOnes(os: seq<Ornament>): (r: seq<Ornament>)
    ensures |r| <= |os|
    ensures forall i :: 0 <= i < |r| ==> r[i].isSold
  {
    if os == [] then []
    else if os[0].isSold then [os[0]] + SoldOnes(os[1..])
    else SoldOnes(os[1..])
  }

  /** `reduce((sum, o) => sum + o.costPrice, 0)`, sold and unsold ornaments alike. */
  function TotalCost(os: seq<Ornament>): real
  {
    if os == [] then 0.0 else TotalCost(os[..|os| - 1]) + os[|os| - 1].costPrice
  }

  /** The four statistics, computed the same way in both `GET` branches. */
  function StatsOf(os: seq<Ornament>): (r: Stats)
    ensures r.inStock + r.sold == r.totalOrnaments == |os|
  {
    InStockPlusSold(os);
    Stats(|os|, |InStock(os)|, |SoldOnes(os)|, TotalCost(os))
  }

  /** Every ornament is counted exactly once: in stock or sold. */
  lemma {:induction false} InStockPlusSold(os: seq<Ornament>)
    ensures |InStock(os)| + |SoldOnes(os)| == |os|
  {
    if os != [] {
      InStockPlusSold(os[1..]);
    }
  }

  /** `inStock` counts exactly the unsold ornaments and `sold` exactly the sold ones. */
  lemma {:induction false} FiltersExact(os: seq<Ornament>, o: Ornament)
    ensures o in InStock(os) <==> o in os && !o.isSold
    ensures o in SoldOnes(os) <==> o in os && o.isSold
  {
    if os != [] {
      FiltersExact(os[1..], o);
      assert o in os <==> o == os[0] || o in os[1..];
    }
  }

  /** With every cost non-negative, the total value is non-negative and bounds each cost. */
  lemma {:induction false} TotalCostBounds(os: seq<Ornament>, k: nat)
    requires forall i :: 0 <= i < |os| ==> os[i].costPrice >= 0.0
    requires k < |os|
    ensures TotalCost(os) >= os[k].costPrice >= 0.0
  {
    var init := os[..|os| - 1];
    if k < |os| - 1 {
      TotalCostBounds(init, k);
    } else if init != [] {
      TotalCostBounds(init, 0);
    }
  }

  function Status(o: Ornament): string
  {
    if o.isSold then "sold" else "in_stock"
  }

  /** `ornament.map(o => ({ ...o, status }))`: same length, same order. */
  function WithStatus(os: seq<Ornament>): (r: seq<StatusOrnament>)
    ensures |r| == |os|
    ensures forall i :: 0 <= i < |os| ==> r[i].ornament == os[i]
    ensures forall i :: 0 <= i < |os| ==>
              (r[i].status == "sold" <==> os[i].isSold) && (r[i].status == "in_stock" <==> !os[i].isSold)
  {
    seq(|os|, i requires 0 <= i < |os| => StatusOrnament(os[i], Status(os[i])))
  }

  /** The number of entries with the given status. */
  function CountStatus(xs: seq<StatusOrnament>, status: string): nat
  {
    if xs == [] then 0
    else (if xs[0].status == status then 1 else 0) + CountStatus(xs[1..], status)
  }

  /** The statuses agree with the statistics: as many "sold" as `sold`, as many "in_stock" as `inStock`. */
  lemma {:induction false} StatusCountsMatchStats(os: seq<Ornament>)
    ensures CountStatus(WithStatus(os), "sold") == StatsOf(os).sold
    ensures CountStatus(WithStatus(os), "in_stock") == StatsOf(os).inStock
  {
    if os != [] {
      StatusCountsMatchStats(os[1..]);
      assert WithStatus(os)[1..] == WithStatus(os[1..]);
    }
  }

  /** Splitting the ornament list splits every statistic. */
  lemma {:induction false} StatsOfConcat(x: seq<Ornament>, y: seq<Ornament>)
    ensures InStock(x + y) == InStock(x) + InStock(y)
    ensures SoldOnes(x + y) == SoldOnes(x) + SoldOnes(y)
    ensures TotalCost(x + y) == TotalCost(x) + TotalCost(y)
  {
    FiltersConcat(x, y);
    TotalCostConcat(x, y);
  }

  lemma {:induction false} FiltersConcat(x: seq<Ornament>, y: seq<Ornament>)
    ensures InStock(x + y) == InStock(x) + InStock(y)
    ensures SoldOnes(x + y) == SoldOnes(x) + SoldOnes(y)
  {
    InStockConcat(x, y);
    SoldOnesConcat(x, y);
  }

  lemma {:induction false} InStockConcat(x: seq<Ornament>, y: seq<Ornament>)
    ensures InStock(x + y) == InStock(x) + InStock(y)
  {
    if x == [] {
      assert x + y == y;
    } else {
      var xy := x + y;
      assert xy[0] == x[0] && xy[1..] == x[1..] + y;
      InStockConcat(x[1..], y);
      assert InStock(xy) == (if x[0].isSold then [] else [x[0]]) + InStock(x[1..] + y);
    }
  }

  lemma {:induction false} SoldOnesConcat(x: seq<Ornament>, y: seq<Ornament>)
    ensures SoldOnes(x + y) == SoldOnes(x) + SoldOnes(y)
  {
    if x == [] {
      assert x + y == y;
    } else {
      var xy := x + y;
      assert xy[0] == x[0] && xy[1..] == x[1..] + y;
      SoldOnesConcat(x[1..], y);
      assert SoldOnes(xy) == (if x[0].isSold then [x[0]] else []) + SoldOnes(x[1..] + y);
    }
  }

  lemma {:induction false} TotalCostConcat(x: seq<Ornament>, y: seq<Ornament>)
    ensures TotalCost(x + y) == TotalCost(x) + TotalCost(y)
  {
    if y == [] {
      assert x + y == x;
    } else {
      TotalCostConcat(x, y[..|y| - 1]);
      assert (x + y)[..|x + y| - 1] == x + y[..|y| - 1];
    }
  }

  /** The statistics do not depend on the order of the ornaments. */
  lemma StatsOfPermutation(a: seq<Ornament>, b: seq<Ornament>)
    requires multiset(a) == multiset(b)
    ensures StatsOf(a) == StatsOf(b)
  {
    PermutationKeepsTallies(a, b);
    assert |a| == |multiset(a)| == |multiset(b)| == |b|;
  }

  lemma {:induction false} PermutationKeepsTallies(a: seq<Ornament>, b: seq<Ornament>)
    requires multiset(a) == multiset(b)
    ensures |InStock(a)| == |InStock(b)| && |SoldOnes(a)| == |SoldOnes(b)| && TotalCost(a) == TotalCost(b)
  {
    if a == [] {
      assert b == [] by {
        assert |multiset(b)| == 0;
      }
    } else {
      assert a[0] in b by {
        assert a[0] in multiset(b);
      }
      var j :| 0 <= j < |b| && b[j] == a[0];
      MultisetWithout(a, b, j);
      PermutationKeepsTallies(a[1..], b[..j] + b[j + 1..]);
      StatsWithout(a, 0);
      StatsWithout(b, j);
      assert a[..0] + a[1..] == a[1..];
    }
  }

  lemma MultisetWithout(a: seq<Ornament>, b: seq<Ornament>, j: nat)
    requires multiset(a) == multiset(b) && a != [] && j < |b| && b[j] == a[0]
    ensures multiset(b[..j] + b[j + 1..]) == multiset(a[1..])
  {
    assert b == b[..j] + [b[j]] + b[j + 1..];
    assert a == [a[0]] + a[1..];
    assert multiset(b) == multiset(b[..j]) + multiset{b[j]} + multiset(b[j + 1..]);
    assert multiset(a) == multiset{a[0]} + multiset(a[1..]);
    assert multiset(b[..j] + b[j + 1..]) == multiset(b[..j]) + multiset(b[j + 1..]);
    assert multiset(b[..j] + b[j + 1..]) == multiset(b) - multiset{a[0]};
  }

  /** Taking one ornament out of the list takes its share out of each statistic. */
  lemma {:induction false} StatsWithout(s: seq<Ornament>, j: nat)
    requires j < |s|
    ensures var rest := s[..j] + s[j + 1..];
            && |InStock(s)| == |InStock(rest)| + (if s[j].isSold then 0 else 1)
            && |SoldOnes(s)| == |SoldOnes(rest)| + (if s[j].isSold then 1 else 0)
            && TotalCost(s) == TotalCost(rest) + s[j].costPrice
  {
    var pre, post := s[..j], s[j + 1..];
    assert s == pre + [s[j]] + post;
    StatsOfConcat(pre + [s[j]], post);
    StatsOfConcat(pre, [s[j]]);
    StatsOfConcat(pre, post);
    assert [s[j]][1..] == [] && [s[j]][..0] == [];
  }

  /** `findUnique({ merchantCode })`: the merchant with that code. */
  function FindMerchant(store: seq<Merchant>, code: string): (r: Option<Merchant>)
    ensures r.Some? ==> r.value in store && r.value.merchantCode == code
    ensures r.None? ==> forall i :: 0 <= i < |store| ==> store[i].merchantCode != code
  {
    if store == [] then None
    else if store[0].merchantCode == code then Some(store[0])
    else FindMerchant(store[1..], code)
  }

  function OrnamentCreatedAt(o: Ornament): int
  {
    o.createdAt
  }

  function Summarize(m: Merchant): MerchantSummary
  {
    MerchantSummary(m, StatsOf(m.ornaments))
  }

  /**
   * `GET`: with a merchant code, that merchant with its ornaments newest first,
   * its statistics and each ornament's status, or the 404; without one, every
   * merchant in store order with its statistics.
   */
  function GetMerchants(store: seq<Merchant>, code: string): (r: MerchantResponse)
    ensures r.MerchantNotFound? <==> code != "" && forall i :: 0 <= i < |store| ==> store[i].merchantCode != code
    ensures r.AllMerchants? <==> code == ""
    ensures r.AllMerchants? ==> |r.summaries| == |store|
                                && forall i :: 0 <= i < |store| ==> r.summaries[i].merchant == store[i]
    ensures r.AllMerchants? ==> forall i :: 0 <= i < |store| ==> r.summaries[i].stats == StatsOf(store[i].ornaments)
    ensures r.Detail? ==> var found := FindMerchant(store, code).value;
                          && r.merchant.merchantCode == code
                          && r.merchant.name == found.name && r.merchant.phone == found.phone
                          && multiset(r.merchant.ornaments) == multiset(found.ornaments)
                          && NewestFirst(r.merchant.ornaments, OrnamentCreatedAt)
                          && r.stats == StatsOf(r.merchant.ornaments)
                          && r.ornaments == WithStatus(r.merchant.ornaments)
  {
    if code != "" then
      match FindMerchant(store, code)
      case None => MerchantNotFound
      case Some(m) =>
        var ordered := SortNewestFirst(m.ornaments, OrnamentCreatedAt);
        Detail(m.(ornaments := ordered), StatsOf(ordered), WithStatus(ordered))
    else
      AllMerchants(seq(|store|, i requires 0 <= i < |store| => Summarize(store[i])))
  }

  /** Both branches report the same statistics for the same merchant. */
  lemma BranchesAgree(store: seq<Merchant>, code: string, k: nat)
    requires code != "" && k < |store| && store[k].merchantCode == code
    requires forall i, j :: 0 <= i < j < |store| ==> store[i].merchantCode != store[j].merchantCode
    ensures GetMerchants(store, code).Detail?
    ensures GetMerchants(store, code).stats == GetMerchants(store, "").summaries[k].stats
  {
    var m := FindMerchant(store, code).value;
    assert m == store[k];
    StatsOfPermutation(SortNewestFirst(m.ornaments, OrnamentCreatedAt), m.ornaments);
  }

  /** `POST`: the created merchant is reported with all four statistics at zero. */
  function CreatedMerchant(code: string, name: string, phone: string): (r: MerchantSummary)
    ensures r.merchant == Merchant(code, name, phone, [])
    ensures r.stats.totalOrnaments == r.stats.inStock == r.stats.sold == 0 && r.stats.totalValue == 0.0
  {
    MerchantSummary(Merchant(code, name, phone, []), Stats(0, 0, 0, 0.0))
  }

  /** The zeroed statistics are those a merchant without ornaments has. */
  lemma CreatedMerchantStatsConsistent(code: string, name: string, phone: string)
    ensures CreatedMerchant(code, name, phone) == Summarize(Merchant(code, name, phone, []))
  {
  }
}
