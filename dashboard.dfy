/** dashboard.js: the admin dashboard. Its module body runs once per window;
    it fills four KPI cards, one small chart per top product and an
    inventory heat map, and refuses to start a refresh while one runs. */
module Dashboard {
  import opened Js

  // ---------------------------------------------------------------------------
  // The heat map

  /** `heatColor(n)`: red up to 10, orange up to 50, yellow up to 100, green
      above. */
  function HeatColor(n: int): string {
    if n <= 10 then "#eb5757"
    else if n <= 50 then "#f2994a"
    else if n <= 100 then "#f2c94c"
    else "#27ae60"
  }

  /** The position of a colour on the scale, from scarce (0) to plentiful (3). */
  function Band(color: string): nat {
    if color == "#eb5757" then 0
    else if color == "#f2994a" then 1
    else if color == "#f2c94c" then 2
    else 3
  }

  /** The bands are the four ranges with inclusive upper bounds 10, 50 and
      100, and more stock never shows a scarcer colour. */
  lemma HeatColorBands(a: int, b: int)
    ensures Band(HeatColor(a)) == (if a <= 10 then 0 else if a <= 50 then 1 else if a <= 100 then 2 else 3)
    ensures a <= b ==> Band(HeatColor(a)) <= Band(HeatColor(b))
    ensures a <= 10 ==> HeatColor(a) == "#eb5757"
    ensures 10 < a <= 50 ==> HeatColor(a) == "#f2994a"
    ensures 50 < a <= 100 ==> HeatColor(a) == "#f2c94c"
    ensures 100 < a ==> HeatColor(a) == "#27ae60"
  {
  }

  /** A row of the inventory heat map; `counts` is `None` when the row has no
      array there. */
  datatype HeatRow = HeatRow(category: Val, counts: Option<seq<int>>)

  /** A rendered cell: its background and its number. */
  datatype Cell = Cell(background: string, count: int)

  datatype RenderedRow = RenderedRow(category: Val, cells: seq<Cell>)

  function RenderRow(row: HeatRow): RenderedRow
    requires row.counts.Some?
  {
    var counts := row.counts.value;
    RenderedRow(row.category, seq(|counts|, j requires 0 <= j < |counts| => Cell(HeatColor(counts[j]), counts[j])))
  }

  /** `renderInventoryHeatmap(rows)`: one row per category, one cell per
      count in order, coloured by `HeatColor`. The markup is built in full
      before it is written, so a row without counts (`r.counts.map` throws)
      leaves the table as it was: `None`. */
  function RenderHeatmap(rows: seq<HeatRow>): (r: Option<seq<RenderedRow>>)
    ensures r.Some? <==> forall i :: 0 <= i < |rows| ==> rows[i].counts.Some?
    ensures r.Some? ==> |r.value| == |rows|
    ensures r.Some? ==> forall i :: 0 <= i < |rows| ==>
      var counts := rows[i].counts.value;
      r.value[i].category == rows[i].category && |r.value[i].cells| == |counts|
      && forall j :: 0 <= j < |counts| ==> r.value[i].cells[j] == Cell(HeatColor(counts[j]), counts[j])
  {
    if forall i :: 0 <= i < |rows| ==> rows[i].counts.Some? then
      Some(seq(|rows|, i requires 0 <= i < |rows| => RenderRow(rows[i])))
    else None
  }

  // ---------------------------------------------------------------------------
  // KPI cards

  datatype Kpis = Kpis(sales: string, orders: string, staff: string, reviews: string)

  /** `fetchDashboardKpis()` on the four parsed bodies: null or undefined
      reads as 0; the sales figure is prefixed with "$" and formatted by
      `localeString` (`toLocaleString`, a parameter here). */
  function KpisOf(sales: Val, orders: Val, staff: Val, reviews: Val, localeString: Val -> string): Kpis {
    Kpis("$" + localeString(Coalesce(sales, Num(0))),
         StringOf(Coalesce(orders, Num(0))),
         StringOf(Coalesce(staff, Num(0))),
         StringOf(Coalesce(reviews, Num(0))))
  }

  /** Missing figures show as zero, present counts as their decimal text,
      and the sales card always starts with "$". */
  lemma KpisOfContract(sales: Val, orders: Val, staff: Val, reviews: Val, localeString: Val -> string)
    ensures var k := KpisOf(sales, orders, staff, reviews, localeString);
      && k.sales[0] == '$'
      && (IsNullish(sales) ==> k.sales == "$" + localeString(Num(0)))
      && (IsNullish(orders) ==> k.orders == "0")
      && (IsNullish(staff) ==> k.staff == "0")
      && (IsNullish(reviews) ==> k.reviews == "0")
      && (orders.Num? ==> ParseInt(k.orders) == Some(orders.n))
      && (staff.Num? ==> ParseInt(k.staff) == Some(staff.n))
      && (reviews.Num? ==> ParseInt(k.reviews) == Some(reviews.n))
  {
    CountText(orders);
    CountText(staff);
    CountText(reviews);
  }

  /** `String(v ?? 0)` for one count. */
  lemma CountText(v: Val)
    ensures IsNullish(v) ==> StringOf(Coalesce(v, Num(0))) == "0"
    ensures v.Num? ==> ParseInt(StringOf(Coalesce(v, Num(0)))) == Some(v.n)
  {
    if v.Num? {
      ParseIntOfIntToString(v.n);
    }
    assert IntToString(0) == "0";
  }

  // ---------------------------------------------------------------------------
  // Top products

  /** A top product; `spark` holds its recent figures, `None` when the
      product has no array there. */
  datatype TopProduct = TopProduct(imageURL: Val, name: Val, units: Val, spark: Option<seq<Val>>)

  /** The position of the first product without a spark array, or the number
      of products when every one has it: `p.spark.map` throws there. */
  function FirstBadSpark(products: seq<TopProduct>): (k: nat)
    ensures k <= |products|
    ensures forall i :: 0 <= i < k ==> products[i].spark.Some?
    ensures k < |products| ==> products[k].spark.None?
  {
    if products == [] || products[0].spark.None? then 0 else 1 + FirstBadSpark(products[1..])
  }

  /** The chart drawn for a product with a spark array. */
  function SparkChart(p: TopProduct): (seq<string>, seq<Val>)
    requires p.spark.Some?
  {
    (SparkLabels(|p.spark.value|), p.spark.value)
  }

  /** The x labels of a spark chart with `n` points: "1", "2", ..., n. */
  function SparkLabels(n: nat): seq<string> {
    seq(n, i requires 0 <= i < n => IntToString(i + 1))
  }

  /** There is one label per point; they are pairwise different, and label
      `i` reads back as the number `i + 1`. */
  lemma SparkLabelsContract(n: nat)
    ensures |SparkLabels(n)| == n
    ensures forall i :: 0 <= i < n ==> ParseInt(SparkLabels(n)[i]) == Some(i + 1)
    ensures forall i, j :: 0 <= i < j < n ==> SparkLabels(n)[i] != SparkLabels(n)[j]
  {
    forall i | 0 <= i < n
      ensures ParseInt(SparkLabels(n)[i]) == Some(i + 1)
    {
      ParseIntOfIntToString(i + 1);
    }
  }

  /** The data the requests produce together: the four parsed KPI bodies,
      the parsed sales-history body, the top products and the heat-map rows. */
  datatype DashboardData = DashboardData(salesKpi: Val, ordersKpi: Val, staffKpi: Val, reviewsKpi: Val,
                                         sales: Val, topProducts: seq<TopProduct>, heatmap: seq<HeatRow>)

  /** The four cards as `fetchDashboardKpis()` fills them from the data. */
  function CardsOf(d: DashboardData, localeString: Val -> string): Kpis {
    KpisOf(d.salesKpi, d.ordersKpi, d.staffKpi, d.reviewsKpi, localeString)
  }

  // ---------------------------------------------------------------------------
  // The namespace and the guards

  /** `window.__dashboardNS` with the page state the script keeps. */
  class DashboardState {
    var initialized: bool
    /** `dashboardRunning` */
    var running: bool
    var cards: Option<Kpis>
    var salesChart: Option<(Val, Val)>
    /** `NS.charts.productSparks`, each chart by its labels and data. */
    var productSparks: seq<(seq<string>, seq<Val>)>
    var heatmap: seq<RenderedRow>

    constructor ()
      ensures !initialized && !running && cards == None && salesChart == None
      ensures productSparks == [] && heatmap == []
    {
      initialized := false;
      running := false;
      cards := None;
      salesChart := None;
      productSparks := [];
      heatmap := [];
    }

    /** The module body's guard: it runs only if no earlier copy of the
      script ran in this window; afterwards the flag is set. */
    method RunModule() returns (ran: bool)
      modifies this
      ensures ran <==> !old(initialized)
      ensures initialized
      ensures running == old(running) && cards == old(cards) && salesChart == old(salesChart)
      ensures productSparks == old(productSparks) && heatmap == old(heatmap)
    {
      if initialized {
        return false;
      }
      initialized := true;
      ran := true;
    }

    /** The start of `initDashboard()`: refused while a run is in progress. */
    method StartInit() returns (started: bool)
      modifies this
      ensures started <==> !old(running)
      ensures running
      ensures initialized == old(initialized) && cards == old(cards) && salesChart == old(salesChart)
      ensures productSparks == old(productSparks) && heatmap == old(heatmap)
    {
      if running {
        return false;
      }
      running := true;
      started := true;
    }

    /** The end of a started run: `data` is what the four requests gave
      (`None` when one of them threw, and nothing is drawn). The drawing
      steps run in turn, and the first that throws ends the run with what
      was drawn so far: a null sales body stops after the cards, a product
      without a spark array stops the charts at it, and a heat-map row
      without counts leaves the old heat map. The `finally` clears the
      running flag either way. `localeString` is `toLocaleString` of the
      browser. */
    method FinishInit(data: Option<DashboardData>, localeString: Val -> string)
      modifies this
      ensures !running
      ensures data.None? ==> (cards == old(cards) && salesChart == old(salesChart)
        && productSparks == old(productSparks) && heatmap == old(heatmap))
      ensures data.Some? ==> cards == Some(CardsOf(data.value, localeString))
      ensures data.Some? && IsNullish(data.value.sales) ==>
        salesChart == old(salesChart) && productSparks == old(productSparks) && heatmap == old(heatmap)
      ensures data.Some? && !IsNullish(data.value.sales) ==>
        var d := data.value;
        var k := FirstBadSpark(d.topProducts);
        && salesChart == Some((Get(d.sales, "todayCounts"), Get(d.sales, "yesterdayCounts")))
        && |productSparks| == k
        && (forall i :: 0 <= i < k ==> productSparks[i] == SparkChart(d.topProducts[i]))
        && heatmap == (if k == |d.topProducts| && RenderHeatmap(d.heatmap).Some?
                       then RenderHeatmap(d.heatmap).value else old(heatmap))
      ensures initialized == old(initialized)
    {
      if data.Some? {
        var d := data.value;
        cards := Some(CardsOf(d, localeString));
        if !IsNullish(d.sales) {
          salesChart := Some((Get(d.sales, "todayCounts"), Get(d.sales, "yesterdayCounts")));
          var completed := RenderTopProducts(d.topProducts);
          var drawn := RenderHeatmap(d.heatmap);
          if completed && drawn.Some? {
            heatmap := drawn.value;
          }
        }
      }
      running := false;
    }

    /** `renderTopProducts(products)`: the old charts are dropped, then one
      chart per product is pushed, labelled "1".."n" for its n points, until
      a product without a spark array throws. */
    method RenderTopProducts(products: seq<TopProduct>) returns (completed: bool)
      modifies this
      ensures |productSparks| == FirstBadSpark(products)
      ensures forall i :: 0 <= i < |productSparks| ==> productSparks[i] == SparkChart(products[i])
      ensures completed <==> FirstBadSpark(products) == |products|
      ensures initialized == old(initialized) && running == old(running) && cards == old(cards)
      ensures salesChart == old(salesChart) && heatmap == old(heatmap)
    {
      productSparks := [];
      var i := 0;
      while i < |products|
        invariant 0 <= i <= |products|
        invariant i <= FirstBadSpark(products)
        invariant |productSparks| == i
        invariant forall k :: 0 <= k < i ==> productSparks[k] == SparkChart(products[k])
        invariant initialized == old(initialized) && running == old(running) && cards == old(cards)
        invariant salesChart == old(salesChart) && heatmap == old(heatmap)
      {
        if products[i].spark.None? {
          return false;
        }
        productSparks := productSparks + [SparkChart(products[i])];
        i := i + 1;
      }
      completed := true;
    }
  }
}
