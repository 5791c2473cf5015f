/**
 * The reports page: which roles may see which report, how the request's filters become WHERE
 * clauses, and the four queries (current stock, low stock, stock movements, sales by period) with
 * their joins and orderings. Nothing here changes the store.
 */
module Reports {
  import opened Wrappers
  import opened Store
  import Php

  // ---------------------------------------------------------------------------
  // Which roles see which report

  const STOCK_REPORT_ROLES: seq<int> := [1, 3]
  const SALES_REPORT_ROLES: seq<int> := [1, 2]

  /** The keys of `$available_reports`. */
  datatype ReportType = CurrentStock | LowStock | StockMovements | SalesByPeriod

  function Key(rt: ReportType): string {
    match rt
    case CurrentStock => "current_stock"
    case LowStock => "low_stock"
    case StockMovements => "stock_movements"
    case SalesByPeriod => "sales_by_period"
  }

  /** `isset($available_reports[$report_type])`: exactly the four keys name a report. */
  function ParseReportType(s: string): (r: Option<ReportType>)
    ensures r.Some? ==> Key(r.value) == s
    ensures forall rt :: Key(rt) == s ==> r == Some(rt)
  {
    if s == "current_stock" then Some(CurrentStock)
    else if s == "low_stock" then Some(LowStock)
    else if s == "stock_movements" then Some(StockMovements)
    else if s == "sales_by_period" then Some(SalesByPeriod)
    else None
  }

  /** The `roles` entry of each report. */
  function Roles(rt: ReportType): seq<int> {
    if rt == SalesByPeriod then SALES_REPORT_ROLES else STOCK_REPORT_ROLES
  }

  /**
   * The outcome of the type and role checks. An empty type (including "0", which PHP's `empty`
   * also accepts) selects nothing and sets no error; a type that is no key is invalid; a role
   * outside the report's list is refused and the type is reset.
   */
  datatype Access = NoSelection | InvalidReportType | NotPermitted | Granted(report: ReportType)

  /** The check on `$report_type` and `get_current_user_role_id()`; a session without a role is in no list. */
  function Authorize(reportType: string, role: Option<int>): (r: Access)
    ensures r == NoSelection <==> Php.Empty(reportType)
    ensures r == InvalidReportType <==> !Php.Empty(reportType) && ParseReportType(reportType).None?
    ensures r == NotPermitted <==>
      && !Php.Empty(reportType) && ParseReportType(reportType).Some?
      && (role.None? || role.value !in Roles(ParseReportType(reportType).value))
    ensures r.Granted? <==>
      && !Php.Empty(reportType) && ParseReportType(reportType).Some?
      && role.Some? && role.value in Roles(ParseReportType(reportType).value)
    ensures r.Granted? ==> r.report == ParseReportType(reportType).value
  {
    if Php.Empty(reportType) then NoSelection
    else
      match ParseReportType(reportType)
      case None => InvalidReportType
      case Some(rt) => if role.Some? && role.value in Roles(rt) then Granted(rt) else NotPermitted
  }

  /**
   * The role table: the three stock reports are open to the administrator (1) and the stock keeper
   * (3), the sales report to the administrator and the seller (2), and only the administrator sees
   * all four.
   */
  lemma RoleTable(role: int)
    ensures forall rt :: rt != SalesByPeriod ==> (Authorize(Key(rt), Some(role)).Granted? <==> role == 1 || role == 3)
    ensures Authorize(Key(SalesByPeriod), Some(role)).Granted? <==> role == 1 || role == 2
    ensures (forall rt :: Authorize(Key(rt), Some(role)).Granted?) <==> role == 1
  {
    assert Authorize(Key(LowStock), Some(role)).Granted? ==> role == 1 || role == 3;
    assert Authorize(Key(SalesByPeriod), Some(role)).Granted? ==> role == 1 || role == 2;
  }

  /** Without a role in the session no report is ever granted. */
  lemma NoRoleNoReport(reportType: string)
    ensures !Authorize(reportType, None).Granted?
  {
  }

  // ---------------------------------------------------------------------------
  // The filters

  /** The request fields the reports read; a missing field is "". */
  datatype Request = Request(dateStart: string, dateEnd: string, categoryId: string, productId: string, movementType: string, userId: string)

  /** A date filter: absent, or a bound whose text the database could (Some) or could not (None) read as a date. */
  datatype DateBound = Open | Bound(day: Option<int>)

  /** The filters as they reach the queries; None (or Open) is "no filter". */
  datatype ReportFilters = ReportFilters(
    dateStart: DateBound,
    dateEnd: DateBound,
    categoryId: Option<int>,
    productId: Option<int>,
    movementType: Option<string>,
    userId: Option<int>)

  /**
   * How request text is read: `filter_var` for the export path, the database's reading of a date
   * text as a day, and the database's coercion of a text compared with an integer column.
   */
  datatype Parsers = Parsers(filters: Php.Filters, toDay: string -> Option<int>, sqlInt: string -> int)

  /** `filter_var($v, FILTER_VALIDATE_INT) ?: null`: a value that does not parse, or parses to 0, is no filter. */
  function IntFilter(raw: string, filters: Php.Filters): (r: Option<int>)
    ensures r.Some? <==> filters.validateInt(raw).Some? && filters.validateInt(raw).value != 0
    ensures r.Some? ==> r.value == filters.validateInt(raw).value
  {
    var v := filters.validateInt(raw);
    if v.Some? && v.value != 0 then v else None
  }

  /** A raw request value compared with an integer column: a filter exactly when `!empty` holds. */
  function RawIntFilter(raw: string, sqlInt: string -> int): (r: Option<int>)
    ensures r.None? <==> Php.Empty(raw)
  {
    if Php.Empty(raw) then None else Some(sqlInt(raw))
  }

  function DateFilter(raw: string, toDay: string -> Option<int>): (r: DateBound)
    ensures r.Open? <==> Php.Empty(raw)
  {
    if Php.Empty(raw) then Open else Bound(toDay(raw))
  }

  function TextFilter(raw: string): (r: Option<string>)
    ensures r.None? <==> Php.Empty(raw)
    ensures r.Some? ==> r.value == raw
  {
    if Php.Empty(raw) then None else Some(raw)
  }

  /** `$filters`, used by the export path: the three ids go through `filter_var`. */
  function ExportFilters(req: Request, p: Parsers): ReportFilters {
    ReportFilters(DateFilter(req.dateStart, p.toDay), DateFilter(req.dateEnd, p.toDay),
                  IntFilter(req.categoryId, p.filters), IntFilter(req.productId, p.filters),
                  TextFilter(req.movementType), IntFilter(req.userId, p.filters))
  }

  /** `$filters_applied`, used by the page itself: the raw request text is bound as it is. */
  function DisplayFilters(req: Request, p: Parsers): ReportFilters {
    ReportFilters(DateFilter(req.dateStart, p.toDay), DateFilter(req.dateEnd, p.toDay),
                  RawIntFilter(req.categoryId, p.sqlInt), RawIntFilter(req.productId, p.sqlInt),
                  TextFilter(req.movementType), RawIntFilter(req.userId, p.sqlInt))
  }

  /**
   * The two paths disagree on an id that does not parse: the export drops the filter, the page
   * keeps it and compares the column with the database's reading of the text.
   */
  lemma UnparsableIdFilterDiffers(req: Request, p: Parsers)
    requires !Php.Empty(req.productId) && p.filters.validateInt(req.productId).None?
    ensures ExportFilters(req, p).productId.None?
    ensures DisplayFilters(req, p).productId == Some(p.sqlInt(req.productId))
  {
  }

  /** The calendar day of a timestamp, as `DATE(...)` takes it. */
  function Day(timestamp: int): int {
    timestamp / 86400
  }

  // ---------------------------------------------------------------------------
  // WHERE clauses

  /** One entry of `$where_clauses`. */
  datatype Clause =
    | DayFrom(day: Option<int>)
    | DayTo(day: Option<int>)
    | ProductIs(productId: int)
    | TypeIs(movementType: string)
    | UserIs(userId: int)

  /** `$where_clauses` for the movements report: one clause per filter present, in the page's order. */
  function MovementClauses(f: ReportFilters): seq<Clause> {
    (if f.dateStart.Bound? then [DayFrom(f.dateStart.day)] else [])
    + (if f.dateEnd.Bound? then [DayTo(f.dateEnd.day)] else [])
    + (if f.productId.Some? then [ProductIs(f.productId.value)] else [])
    + (if f.movementType.Some? then [TypeIs(f.movementType.value)] else [])
    + (if f.userId.Some? then [UserIs(f.userId.value)] else [])
  }

  /** `$where_clauses` for the sales report. */
  function SaleClauses(f: ReportFilters): seq<Clause> {
    (if f.dateStart.Bound? then [DayFrom(f.dateStart.day)] else [])
    + (if f.dateEnd.Bound? then [DayTo(f.dateEnd.day)] else [])
    + (if f.userId.Some? then [UserIs(f.userId.value)] else [])
  }

  /** A date comparison with a text the database cannot read compares with NULL and holds for no row. */
  predicate OnOrAfter(day: int, bound: Option<int>) {
    bound.Some? && day >= bound.value
  }

  predicate OnOrBefore(day: int, bound: Option<int>) {
    bound.Some? && day <= bound.value
  }

  predicate HoldsForMovement(c: Clause, m: Movement) {
    match c
    case DayFrom(d) => OnOrAfter(Day(m.date), d)
    case DayTo(d) => OnOrBefore(Day(m.date), d)
    case ProductIs(id) => m.productId == id
    case TypeIs(t) => m.movementType == t
    case UserIs(u) => m.userId == u
  }

  /** The sales table has no product or type column; those clauses are never built for it. */
  predicate HoldsForSale(c: Clause, s: Sale) {
    match c
    case DayFrom(d) => OnOrAfter(Day(s.date), d)
    case DayTo(d) => OnOrBefore(Day(s.date), d)
    case UserIs(u) => s.userId == u
    case _ => true
  }

  /** `" WHERE " . implode(" AND ", $where_clauses)`, and no WHERE at all for an empty list. */
  predicate MovementWhere(cs: seq<Clause>, m: Movement) {
    cs == [] || (HoldsForMovement(cs[0], m) && MovementWhere(cs[1..], m))
  }

  predicate SaleWhere(cs: seq<Clause>, s: Sale) {
    cs == [] || (HoldsForSale(cs[0], s) && SaleWhere(cs[1..], s))
  }

  lemma {:induction false} MovementWhereAppend(a: seq<Clause>, b: seq<Clause>, m: Movement)
    ensures MovementWhere(a + b, m) <==> MovementWhere(a, m) && MovementWhere(b, m)
  {
    if a != [] {
      assert (a + b)[1..] == a[1..] + b;
      MovementWhereAppend(a[1..], b, m);
    } else {
      assert a + b == b;
    }
  }

  lemma {:induction false} SaleWhereAppend(a: seq<Clause>, b: seq<Clause>, s: Sale)
    ensures SaleWhere(a + b, s) <==> SaleWhere(a, s) && SaleWhere(b, s)
  {
    if a != [] {
      assert (a + b)[1..] == a[1..] + b;
      SaleWhereAppend(a[1..], b, s);
    } else {
      assert a + b == b;
    }
  }

  /** The movements WHERE is the conjunction of the filters present; an absent filter adds no condition. */
  lemma MovementFiltersAreConjunctive(f: ReportFilters, m: Movement)
    ensures MovementWhere(MovementClauses(f), m) <==>
      && (f.dateStart.Bound? ==> OnOrAfter(Day(m.date), f.dateStart.day))
      && (f.dateEnd.Bound? ==> OnOrBefore(Day(m.date), f.dateEnd.day))
      && (f.productId.Some? ==> m.productId == f.productId.value)
      && (f.movementType.Some? ==> m.movementType == f.movementType.value)
      && (f.userId.Some? ==> m.userId == f.userId.value)
  {
    var c1 := if f.dateStart.Bound? then [DayFrom(f.dateStart.day)] else [];
    var c2 := if f.dateEnd.Bound? then [DayTo(f.dateEnd.day)] else [];
    var c3 := if f.productId.Some? then [ProductIs(f.productId.value)] else [];
    var c4 := if f.movementType.Some? then [TypeIs(f.movementType.value)] else [];
    var c5 := if f.userId.Some? then [UserIs(f.userId.value)] else [];
    MovementWhereAppend(c1 + c2 + c3 + c4, c5, m);
    MovementWhereAppend(c1 + c2 + c3, c4, m);
    MovementWhereAppend(c1 + c2, c3, m);
    MovementWhereAppend(c1, c2, m);
  }

  /** The same for the sales report, over its three filters. */
  lemma SaleFiltersAreConjunctive(f: ReportFilters, s: Sale)
    ensures SaleWhere(SaleClauses(f), s) <==>
      && (f.dateStart.Bound? ==> OnOrAfter(Day(s.date), f.dateStart.day))
      && (f.dateEnd.Bound? ==> OnOrBefore(Day(s.date), f.dateEnd.day))
      && (f.userId.Some? ==> s.userId == f.userId.value)
  {
    var c1 := if f.dateStart.Bound? then [DayFrom(f.dateStart.day)] else [];
    var c2 := if f.dateEnd.Bound? then [DayTo(f.dateEnd.day)] else [];
    var c3 := if f.userId.Some? then [UserIs(f.userId.value)] else [];
    SaleWhereAppend(c1 + c2, c3, s);
    SaleWhereAppend(c1, c2, s);
  }

  // ---------------------------------------------------------------------------
  // Orderings

  /** Byte-wise lexicographic order on names. */
  predicate StrLe(a: string, b: string) {
    a == [] || (b != [] && (a[0] < b[0] || (a[0] == b[0] && StrLe(a[1..], b[1..]))))
  }

  lemma {:induction false} StrLeTotal(a: string, b: string)
    ensures StrLe(a, b) || StrLe(b, a)
  {
    if a != [] && b != [] && a[0] == b[0] {
      StrLeTotal(a[1..], b[1..]);
    }
  }

  /** One row of the two stock reports: the product, joined with its category's name. */
  datatype StockRow = StockRow(id: Id, product: Product, categoryName: string)

  /** `ORDER BY p.name ASC`: each row's name is at most the next one's. */
  predicate NameAscending(s: seq<StockRow>) {
    forall i :: 0 < i < |s| ==> StrLe(s[i - 1].product.name, s[i].product.name)
  }

  function InsertByName(x: StockRow, s: seq<StockRow>): seq<StockRow> {
    if s == [] then [x]
    else if StrLe(x.product.name, s[0].product.name) then [x] + s
    else [s[0]] + InsertByName(x, s[1..])
  }

  function SortByName(s: seq<StockRow>): seq<StockRow> {
    if s == [] then [] else InsertByName(s[0], SortByName(s[1..]))
  }

  lemma PrependByName(y: StockRow, s: seq<StockRow>)
    requires NameAscending(s) && (s != [] ==> StrLe(y.product.name, s[0].product.name))
    ensures NameAscending([y] + s)
  {
    var r := [y] + s;
    forall i | 0 < i < |r|
      ensures StrLe(r[i - 1].product.name, r[i].product.name)
    {
      if i > 1 {
        assert r[i - 1] == s[i - 2] && r[i] == s[i - 1];
      }
    }
  }

  lemma {:induction false} InsertByNameSorted(x: StockRow, s: seq<StockRow>)
    requires NameAscending(s)
    ensures NameAscending(InsertByName(x, s))
    ensures InsertByName(x, s)[0] == x || InsertByName(x, s)[0] == s[0]
  {
    if s == [] {
    } else if StrLe(x.product.name, s[0].product.name) {
      PrependByName(x, s);
    } else {
      var tail := s[1..];
      assert NameAscending(tail) by {
        forall i | 0 < i < |tail|
          ensures StrLe(tail[i - 1].product.name, tail[i].product.name)
        {
          assert tail[i - 1] == s[i] && tail[i] == s[i + 1];
        }
      }
      InsertByNameSorted(x, tail);
      StrLeTotal(x.product.name, s[0].product.name);
      PrependByName(s[0], InsertByName(x, tail));
    }
  }

  lemma {:induction false} InsertByNameCount(x: StockRow, s: seq<StockRow>)
    ensures multiset(InsertByName(x, s)) == multiset(s) + multiset{x}
  {
    if s != [] && !StrLe(x.product.name, s[0].product.name) {
      InsertByNameCount(x, s[1..]);
      assert s == [s[0]] + s[1..];
    }
  }

  /** The sort yields the same rows, ordered by name. */
  lemma {:induction false} SortByNameSpec(s: seq<StockRow>)
    ensures NameAscending(SortByName(s))
    ensures multiset(SortByName(s)) == multiset(s)
  {
    if s != [] {
      SortByNameSpec(s[1..]);
      InsertByNameSorted(s[0], SortByName(s[1..]));
      InsertByNameCount(s[0], SortByName(s[1..]));
      assert s == [s[0]] + s[1..];
    }
  }

  /** `ORDER BY <date> DESC`: each row's date is at least the next one's. */
  predicate DateDescending<T>(s: seq<T>, date: T -> int) {
    forall i :: 0 < i < |s| ==> date(s[i - 1]) >= date(s[i])
  }

  function InsertByDate<T>(x: T, s: seq<T>, date: T -> int): seq<T> {
    if s == [] then [x]
    else if date(x) >= date(s[0]) then [x] + s
    else [s[0]] + InsertByDate(x, s[1..], date)
  }

  function SortByDate<T>(s: seq<T>, date: T -> int): seq<T> {
    if s == [] then [] else InsertByDate(s[0], SortByDate(s[1..], date), date)
  }

  lemma PrependByDate<T>(y: T, s: seq<T>, date: T -> int)
    requires DateDescending(s, date) && (s != [] ==> date(y) >= date(s[0]))
    ensures DateDescending([y] + s, date)
  {
    var r := [y] + s;
    forall i | 0 < i < |r|
      ensures date(r[i - 1]) >= date(r[i])
    {
      if i > 1 {
        assert r[i - 1] == s[i - 2] && r[i] == s[i - 1];
      }
    }
  }

  lemma {:induction false} InsertByDateSorted<T>(x: T, s: seq<T>, date: T -> int)
    requires DateDescending(s, date)
    ensures DateDescending(InsertByDate(x, s, date), date)
    ensures InsertByDate(x, s, date)[0] == x || InsertByDate(x, s, date)[0] == s[0]
  {
    if s == [] {
    } else if date(x) >= date(s[0]) {
      PrependByDate(x, s, date);
    } else {
      var tail := s[1..];
      assert DateDescending(tail, date) by {
        forall i | 0 < i < |tail|
          ensures date(tail[i - 1]) >= date(tail[i])
        {
          assert tail[i - 1] == s[i] && tail[i] == s[i + 1];
        }
      }
      InsertByDateSorted(x, tail, date);
      PrependByDate(s[0], InsertByDate(x, tail, date), date);
    }
  }

  lemma {:induction false} InsertByDateCount<T>(x: T, s: seq<T>, date: T -> int)
    ensures multiset(InsertByDate(x, s, date)) == multiset(s) + multiset{x}
  {
    if s != [] && date(x) < date(s[0]) {
      InsertByDateCount(x, s[1..], date);
      assert s == [s[0]] + s[1..];
    }
  }

  /** The sort yields the same rows, newest first. */
  lemma {:induction false} SortByDateSpec<T>(s: seq<T>, date: T -> int)
    ensures DateDescending(SortByDate(s, date), date)
    ensures multiset(SortByDate(s, date)) == multiset(s)
  {
    if s != [] {
      SortByDateSpec(s[1..], date);
      InsertByDateSorted(s[0], SortByDate(s[1..], date), date);
      InsertByDateCount(s[0], SortByDate(s[1..], date), date);
      assert s == [s[0]] + s[1..];
    }
  }

  // ---------------------------------------------------------------------------
  // The stock reports

  /** `p.current_stock <= p.alert_threshold AND p.alert_threshold > 0`. */
  predicate IsLowStock(p: Product) {
    p.currentStock <= p.alertThreshold && p.alertThreshold > 0
  }

  /** A threshold of 0 (or below) never raises an alert, however low the stock. */
  lemma ZeroThresholdNeverAlerts(p: Product)
    requires p.alertThreshold <= 0
    ensures !IsLowStock(p)
  {
  }

  /** `JOIN categories c ON p.category_id = c.id`: the name of the category with that id (ids are the table's key). */
  function CategoryName(categories: seq<Category>, id: Id): (r: Option<string>)
    ensures r.Some? <==> id in CategoryIds(categories)
  {
    if categories == [] then None
    else if categories[0].id == id then Some(categories[0].name)
    else CategoryName(categories[1..], id)
  }

  /** Whether a row belongs to a stock report: a stored product with a category, passing the filters. */
  predicate InStockReport(t: Tables, category: Option<int>, low: bool, row: StockRow) {
    && row.id in t.products && row.product == t.products[row.id]
    && CategoryName(t.categories, row.product.categoryId) == Some(row.categoryName)
    && (category.None? || row.product.categoryId == category.value)
    && (low ==> IsLowStock(row.product))
  }

  /** The row of product `id`, when it passes the join and the filters. */
  function StockRowOf(t: Tables, category: Option<int>, low: bool, id: Id): seq<StockRow> {
    if id !in t.products then []
    else
      var p := t.products[id];
      var c := CategoryName(t.categories, p.categoryId);
      if c.Some? && (category.None? || p.categoryId == category.value) && (!low || IsLowStock(p))
      then [StockRow(id, p, c.value)] else []
  }

  /** The unordered result over the ids `lo` up to `hi`. */
  function StockRows(t: Tables, category: Option<int>, low: bool, lo: int, hi: int): seq<StockRow>
    decreases hi - lo
  {
    if lo >= hi then [] else StockRowOf(t, category, low, lo) + StockRows(t, category, low, lo + 1, hi)
  }

  lemma {:induction false} StockRowsCount(t: Tables, category: Option<int>, low: bool, lo: int, hi: int, row: StockRow)
    ensures multiset(StockRows(t, category, low, lo, hi))[row] ==
      if lo <= row.id < hi && InStockReport(t, category, low, row) then 1 else 0
    decreases hi - lo
  {
    if lo < hi {
      StockRowsCount(t, category, low, lo + 1, hi, row);
    }
  }

  /** The current-stock report (`low` false) or the low-stock report (`low` true). */
  function StockReport(t: Tables, category: Option<int>, low: bool): seq<StockRow> {
    SortByName(StockRows(t, category, low, 1, t.nextProductId))
  }

  /**
   * A stock report lists every stored product that has a category and passes the filters exactly
   * once, and nothing else, ordered by name.
   */
  lemma StockReportSpec(t: Tables, category: Option<int>, low: bool, row: StockRow)
    requires KeysBelow(t.products, t.nextProductId)
    ensures multiset(StockReport(t, category, low))[row] == if InStockReport(t, category, low, row) then 1 else 0
    ensures NameAscending(StockReport(t, category, low))
  {
    SortByNameSpec(StockRows(t, category, low, 1, t.nextProductId));
    StockRowsCount(t, category, low, 1, t.nextProductId, row);
  }

  /** Every row of the low-stock report is a row of the current-stock report under the same filter. */
  lemma LowStockIsPartOfCurrentStock(t: Tables, category: Option<int>, row: StockRow)
    requires KeysBelow(t.products, t.nextProductId)
    requires row in StockReport(t, category, true)
    ensures row in StockReport(t, category, false) && IsLowStock(row.product)
  {
    StockReportSpec(t, category, true, row);
    StockReportSpec(t, category, false, row);
  }

  // ---------------------------------------------------------------------------
  // The movements report

  /** One row of the movements report: the movement, joined with its product's name. */
  datatype MovementRow = MovementRow(movement: Movement, productName: string)

  function MovementDate(r: MovementRow): int {
    r.movement.date
  }

  /** The ledger in stored order, inner-joined with products and filtered by the WHERE clauses. */
  function MovementRows(products: map<Id, Product>, movements: seq<Movement>, cs: seq<Clause>): seq<MovementRow> {
    if movements == [] then []
    else
      var m := movements[0];
      (if m.productId in products && MovementWhere(cs, m) then [MovementRow(m, products[m.productId].name)] else [])
      + MovementRows(products, movements[1..], cs)
  }

  lemma {:induction false} MovementRowsSpec(products: map<Id, Product>, movements: seq<Movement>, cs: seq<Clause>, row: MovementRow)
    ensures row in MovementRows(products, movements, cs) <==>
      && row.movement in movements && row.movement.productId in products
      && row.productName == products[row.movement.productId].name && MovementWhere(cs, row.movement)
  {
    if movements != [] {
      MovementRowsSpec(products, movements[1..], cs, row);
      assert movements == [movements[0]] + movements[1..];
    }
  }

  /** Each ledger entry that joins and passes the WHERE gives one row per time it was recorded. */
  lemma {:induction false} MovementRowsCount(products: map<Id, Product>, movements: seq<Movement>, cs: seq<Clause>, row: MovementRow)
    ensures multiset(MovementRows(products, movements, cs))[row] ==
      if row.movement.productId in products && row.productName == products[row.movement.productId].name && MovementWhere(cs, row.movement)
      then multiset(movements)[row.movement] else 0
  {
    if movements != [] {
      MovementRowsCount(products, movements[1..], cs, row);
      assert movements == [movements[0]] + movements[1..];
    }
  }

  function MovementReport(t: Tables, f: ReportFilters): seq<MovementRow> {
    SortByDate(MovementRows(t.products, t.movements, MovementClauses(f)), MovementDate)
  }

  /**
   * The movements report holds the ledger entries of existing products that pass every filter
   * present, each as often as it was recorded, newest first.
   */
  lemma MovementReportSpec(t: Tables, f: ReportFilters, row: MovementRow)
    ensures multiset(MovementReport(t, f)) == multiset(MovementRows(t.products, t.movements, MovementClauses(f)))
    ensures DateDescending(MovementReport(t, f), MovementDate)
    ensures row in MovementReport(t, f) <==>
      && row.movement in t.movements && row.movement.productId in t.products
      && row.productName == t.products[row.movement.productId].name
      && (f.dateStart.Bound? ==> OnOrAfter(Day(row.movement.date), f.dateStart.day))
      && (f.dateEnd.Bound? ==> OnOrBefore(Day(row.movement.date), f.dateEnd.day))
      && (f.productId.Some? ==> row.movement.productId == f.productId.value)
      && (f.movementType.Some? ==> row.movement.movementType == f.movementType.value)
      && (f.userId.Some? ==> row.movement.userId == f.userId.value)
    ensures multiset(MovementReport(t, f))[row] ==
      if && row.movement.productId in t.products
         && row.productName == t.products[row.movement.productId].name
         && (f.dateStart.Bound? ==> OnOrAfter(Day(row.movement.date), f.dateStart.day))
         && (f.dateEnd.Bound? ==> OnOrBefore(Day(row.movement.date), f.dateEnd.day))
         && (f.productId.Some? ==> row.movement.productId == f.productId.value)
         && (f.movementType.Some? ==> row.movement.movementType == f.movementType.value)
         && (f.userId.Some? ==> row.movement.userId == f.userId.value)
      then multiset(t.movements)[row.movement] else 0
  {
    var rows := MovementRows(t.products, t.movements, MovementClauses(f));
    MovementRowsCount(t.products, t.movements, MovementClauses(f), row);
    SortByDateSpec(rows, MovementDate);
    assert row in MovementReport(t, f) <==> row in rows by {
      assert row in MovementReport(t, f) <==> row in multiset(MovementReport(t, f));
    }
    MovementRowsSpec(t.products, t.movements, MovementClauses(f), row);
    MovementFiltersAreConjunctive(f, row.movement);
  }

  // ---------------------------------------------------------------------------
  // The sales report

  datatype SaleRow = SaleRow(id: Id, sale: Sale)

  function SaleDate(r: SaleRow): int {
    r.sale.date
  }

  function SaleRowOf(sales: map<Id, Sale>, cs: seq<Clause>, id: Id): seq<SaleRow> {
    if id in sales && SaleWhere(cs, sales[id]) then [SaleRow(id, sales[id])] else []
  }

  /** The stored sales with ids `lo` up to `hi` that pass the WHERE clauses. */
  function SaleRows(sales: map<Id, Sale>, cs: seq<Clause>, lo: int, hi: int): seq<SaleRow>
    decreases hi - lo
  {
    if lo >= hi then [] else SaleRowOf(sales, cs, lo) + SaleRows(sales, cs, lo + 1, hi)
  }

  /** Whether a row belongs to the sales report: a stored sale passing the WHERE clauses. */
  predicate InSalesReport(sales: map<Id, Sale>, cs: seq<Clause>, row: SaleRow) {
    row.id in sales && row.sale == sales[row.id] && SaleWhere(cs, row.sale)
  }

  lemma SaleRowOfCount(sales: map<Id, Sale>, cs: seq<Clause>, id: Id, row: SaleRow)
    ensures multiset(SaleRowOf(sales, cs, id))[row] == if row.id == id && InSalesReport(sales, cs, row) then 1 else 0
  {
  }

  lemma {:induction false} SaleRowsCount(sales: map<Id, Sale>, cs: seq<Clause>, lo: int, hi: int, row: SaleRow)
    ensures multiset(SaleRows(sales, cs, lo, hi))[row] ==
      if lo <= row.id < hi && InSalesReport(sales, cs, row) then 1 else 0
    decreases hi - lo
  {
    if lo < hi {
      SaleRowsCount(sales, cs, lo + 1, hi, row);
      SaleRowOfCount(sales, cs, lo, row);
      assert SaleRows(sales, cs, lo, hi) == SaleRowOf(sales, cs, lo) + SaleRows(sales, cs, lo + 1, hi);
    }
  }

  function SalesReport(t: Tables, f: ReportFilters): seq<SaleRow> {
    SortByDate(SaleRows(t.sales, SaleClauses(f), 1, t.nextSaleId), SaleDate)
  }

  /** The sales report lists every stored sale that passes every filter present exactly once, newest first. */
  lemma SalesReportSpec(t: Tables, f: ReportFilters, row: SaleRow)
    requires KeysBelow(t.sales, t.nextSaleId)
    ensures multiset(SalesReport(t, f))[row] ==
      if && row.id in t.sales && row.sale == t.sales[row.id]
         && (f.dateStart.Bound? ==> OnOrAfter(Day(row.sale.date), f.dateStart.day))
         && (f.dateEnd.Bound? ==> OnOrBefore(Day(row.sale.date), f.dateEnd.day))
         && (f.userId.Some? ==> row.sale.userId == f.userId.value)
      then 1 else 0
    ensures DateDescending(SalesReport(t, f), SaleDate)
  {
    SortByDateSpec(SaleRows(t.sales, SaleClauses(f), 1, t.nextSaleId), SaleDate);
    SaleRowsCount(t.sales, SaleClauses(f), 1, t.nextSaleId, row);
    SaleFiltersAreConjunctive(f, row.sale);
  }

  // ---------------------------------------------------------------------------
  // The page

  /** `$_GET['action']`: "" shows the report, export_pdf and export_csv export it, anything else does neither. */
  datatype ReportAction = Display | Export | OtherAction

  function ParseAction(action: string): ReportAction {
    if action == "" then Display
    else if action == "export_pdf" || action == "export_csv" then Export
    else OtherAction
  }

  datatype ReportData = NoData | StockData(stock: seq<StockRow>) | MovementData(movements: seq<MovementRow>) | SaleData(sales: seq<SaleRow>)

  /** The `switch ($report_type)` over the four queries. */
  function RunReport(rt: ReportType, f: ReportFilters, t: Tables): ReportData {
    match rt
    case CurrentStock => StockData(StockReport(t, f.categoryId, false))
    case LowStock => StockData(StockReport(t, f.categoryId, true))
    case StockMovements => MovementData(MovementReport(t, f))
    case SalesByPeriod => SaleData(SalesReport(t, f))
  }

  /**
   * The page: the access decision, and the rows of a granted report, read with the export
   * filters when exporting and with the raw request values when displaying.
   */
  function ReportsPage(reportType: string, role: Option<int>, action: string, req: Request, t: Tables, p: Parsers): (r: (Access, ReportData))
    ensures r.0 == Authorize(reportType, role)
    ensures r.1 != NoData <==> r.0.Granted? && ParseAction(action) != OtherAction
    ensures r.0.Granted? && ParseAction(action) == Export ==> r.1 == RunReport(r.0.report, ExportFilters(req, p), t)
    ensures r.0.Granted? && ParseAction(action) == Display ==> r.1 == RunReport(r.0.report, DisplayFilters(req, p), t)
  {
    var access := Authorize(reportType, role);
    if !access.Granted? then (access, NoData)
    else
      match ParseAction(action)
      case Export => (access, RunReport(access.report, ExportFilters(req, p), t))
      case Display => (access, RunReport(access.report, DisplayFilters(req, p), t))
      case OtherAction => (access, NoData)
  }
}
