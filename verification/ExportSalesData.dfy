/**
 * The export form (components/ExportSalesData.tsx): a date range kept in
 * order as in the period selector, and `generateExportText`, which renders
 * a list of sales as plain text grouped by date.
 *
 * The text has one block per date, dates in ascending order; a block is
 * the date on a line of its own, one line `orderId-price-comment` per sale
 * of that date in input order, and an empty line.
 */
module ExportSalesData {
  import opened Sales
  import opened Sorting
  import opened Lex
  import opened Decimal
  import opened Grouping
  import opened DateRange

  /** `x || ''` on an optional text: absent and empty both become "". */
  function OrEmpty(o: Option<string>): string
  {
    match o
    case Some(v) => v
    case None => ""
  }

  /** One sale's line: `${orderId}-${price.toFixed(2)}-${comment}\n`. */
  function SaleLine(s: Sale): string
  {
    OrEmpty(s.orderId) + "-" + CentsToFixed(s.price) + "-" + OrEmpty(s.comment) + "\n"
  }

  /** The lines of a date's sales, in their order. */
  function Lines(group: seq<Sale>): string
  {
    if |group| == 0 then "" else Lines(group[..|group| - 1]) + SaleLine(group[|group| - 1])
  }

  /** A date's block: the date line, its sale lines, an empty line. */
  function Block(date: string, group: seq<Sale>): string
  {
    date + "\n" + Lines(group) + "\n"
  }

  /** The blocks of the dates `ds`, in that order. */
  function Blocks(sales: seq<Sale>, ds: seq<string>): string
  {
    if |ds| == 0 then ""
    else Blocks(sales, ds[..|ds| - 1]) + Block(ds[|ds| - 1], Group(sales, DateOf, ds[|ds| - 1]))
  }

  /** The export text of a list of sales; empty when there are none. */
  function ExportText(sales: seq<Sale>): (text: string)
    ensures |sales| == 0 ==> text == ""
  {
    Blocks(sales, SortedDates(sales))
  }

  /** `groups` holds, under each date that some sale of `xs` carries, that date's sales in input order; `keys` lists those dates in order of first appearance. */
  ghost predicate IsGrouping(groups: map<string, seq<Sale>>, keys: seq<string>, xs: seq<Sale>)
  {
    && keys == KeysInOrder(xs, DateOf)
    && groups.Keys == KeySet(xs, DateOf)
    && forall d :: d in groups ==> groups[d] == Group(xs, DateOf, d)
  }

  /**
   * The first loop of `generateExportText`: each sale is pushed onto the
   * list of its date, the list being created the first time the date is seen.
   */
  method GroupByDate(sales: seq<Sale>) returns (salesByDate: map<string, seq<Sale>>, keys: seq<string>)
    ensures keys == KeysInOrder(sales, DateOf)
    ensures salesByDate.Keys == KeySet(sales, DateOf)
    ensures forall d :: d in salesByDate ==> salesByDate[d] == Group(sales, DateOf, d)
  {
    salesByDate, keys := map[], [];
    for i := 0 to |sales|
      invariant IsGrouping(salesByDate, keys, sales[..i])
    {
      GroupingStepAt(sales, salesByDate, keys, i);
      var sale := sales[i];
      if sale.date !in salesByDate {
        salesByDate := salesByDate[sale.date := []];
        keys := keys + [sale.date];
      }
      salesByDate := salesByDate[sale.date := salesByDate[sale.date] + [sale]];
    }
    assert sales[..|sales|] == sales;
  }

  lemma {:induction false} GroupingStepAt(sales: seq<Sale>, groups: map<string, seq<Sale>>, keys: seq<string>, i: nat)
    requires i < |sales|
    requires IsGrouping(groups, keys, sales[..i])
    ensures var sale := sales[i]; IsGrouping(
      groups[sale.date := (if sale.date in groups then groups[sale.date] else []) + [sale]],
      if sale.date in groups then keys else keys + [sale.date],
      sales[..i + 1])
  {
    TakeSnoc(sales, i);
    GroupingStep(groups, keys, sales[..i], sales[i]);
  }

  /** Pushing one more sale onto the list of its date keeps the record the grouping of the longer input. */
  lemma {:induction false} GroupingStep(groups: map<string, seq<Sale>>, keys: seq<string>, xs: seq<Sale>, sale: Sale)
    requires IsGrouping(groups, keys, xs)
    ensures IsGrouping(
      groups[sale.date := (if sale.date in groups then groups[sale.date] else []) + [sale]],
      if sale.date in groups then keys else keys + [sale.date],
      xs + [sale])
  {
    KeysStep(groups, keys, xs, sale);
    KeySetSnoc(xs, sale, DateOf);
    UpdateKeys(groups, sale.date, (if sale.date in groups then groups[sale.date] else []) + [sale]);
    ListsStep(groups, xs, sale);
  }

  lemma {:induction false} KeysStep(groups: map<string, seq<Sale>>, keys: seq<string>, xs: seq<Sale>, sale: Sale)
    requires keys == KeysInOrder(xs, DateOf)
    requires groups.Keys == KeySet(xs, DateOf)
    ensures (if sale.date in groups then keys else keys + [sale.date]) == KeysInOrder(xs + [sale], DateOf)
  {
    KeysInOrderSnoc(xs, sale, DateOf);
    KeysInOrderMembership(xs, DateOf, sale.date);
  }

  lemma {:induction false} ListsStep(groups: map<string, seq<Sale>>, xs: seq<Sale>, sale: Sale)
    requires groups.Keys == KeySet(xs, DateOf)
    requires forall d :: d in groups ==> groups[d] == Group(xs, DateOf, d)
    ensures var g := groups[sale.date := (if sale.date in groups then groups[sale.date] else []) + [sale]];
      forall d :: d in g ==> g[d] == Group(xs + [sale], DateOf, d)
  {
    if sale.date !in groups {
      GroupOfAbsentKey(xs, DateOf, sale.date);
    }
    forall d | d in groups || d == sale.date
      ensures Group(xs + [sale], DateOf, d) == Group(xs, DateOf, d) + (if sale.date == d then [sale] else [])
    {
      GroupSnoc(xs, sale, DateOf, d);
    }
  }

  /**
   * `generateExportText`: the sales are grouped by date, the dates sorted,
   * and the text grows block by block and line by line.
   */
  method GenerateExportText(sales: seq<Sale>) returns (resultText: string)
    ensures resultText == ExportText(sales)
  {
    var salesByDate, keys := GroupByDate(sales);
    SortStrings(keys);
    var sortedDates := Sort(keys, LessEq);
    assert sortedDates == SortedDates(sales);
    resultText := AppendBlocks(sales, salesByDate, sortedDates);
  }

  /** The outer loop of `generateExportText`: one block per date, in the order of `sortedDates`. */
  method AppendBlocks(sales: seq<Sale>, salesByDate: map<string, seq<Sale>>, sortedDates: seq<string>)
    returns (resultText: string)
    requires salesByDate.Keys == KeySet(sales, DateOf)
    requires forall d :: d in salesByDate ==> salesByDate[d] == Group(sales, DateOf, d)
    requires forall i :: 0 <= i < |sortedDates| ==> sortedDates[i] in KeySet(sales, DateOf)
    ensures resultText == Blocks(sales, sortedDates)
  {
    resultText := "";
    for j := 0 to |sortedDates|
      invariant resultText == Blocks(sales, sortedDates[..j])
    {
      var date := sortedDates[j];
      var group := salesByDate[date];
      var block := AppendLines(date + "\n", group);
      block := block + "\n";
      BlocksAt(sales, sortedDates, j);
      resultText := resultText + block;
    }
    assert sortedDates[..|sortedDates|] == sortedDates;
  }

  /** The inner loop of `generateExportText`: one line per sale of a date, appended in order. */
  method AppendLines(text: string, group: seq<Sale>) returns (r: string)
    ensures r == text + Lines(group)
  {
    r := text;
    for k := 0 to |group|
      invariant r == text + Lines(group[..k])
    {
      TakeSnoc(group, k);
      LinesSnoc(group[..k], group[k]);
      AppendAt(text, Lines(group[..k]), SaleLine(group[k]));
      r := r + SaleLine(group[k]);
    }
    assert group[..|group|] == group;
  }

  /** Appending to a text that ends with a prefix extends that prefix. */
  lemma {:induction false} AppendAt(text: string, done: string, more: string)
    ensures (text + done) + more == text + (done + more)
  {
  }

  /** One more sale of a date adds its line at the end. */
  lemma {:induction false} LinesSnoc(group: seq<Sale>, x: Sale)
    ensures Lines(group + [x]) == Lines(group) + SaleLine(x)
  {
    assert (group + [x])[..|group|] == group;
  }

  lemma {:induction false} BlocksAt(sales: seq<Sale>, ds: seq<string>, j: nat)
    requires j < |ds|
    ensures Blocks(sales, ds[..j + 1]) == Blocks(sales, ds[..j]) + Block(ds[j], Group(sales, DateOf, ds[j]))
  {
    assert ds[..j + 1][..j] == ds[..j];
  }

  /** The sales of the dates `ds`, block after block: the export's order of sales. */
  function Flatten(sales: seq<Sale>, ds: seq<string>): seq<Sale>
  {
    if |ds| == 0 then [] else Flatten(sales, ds[..|ds| - 1]) + Group(sales, DateOf, ds[|ds| - 1])
  }

  /** Over distinct dates, a sale occurs in the flattened groups as often as in the input when its date is listed, and not at all otherwise. */
  lemma {:induction false} FlattenMultiplicity(sales: seq<Sale>, ds: seq<string>, x: Sale)
    requires Distinct(ds)
    ensures multiset(Flatten(sales, ds))[x] == if x.date in ds then multiset(sales)[x] else 0
  {
    if |ds| > 0 {
      var p := ds[..|ds| - 1];
      var d := ds[|ds| - 1];
      assert Distinct(p);
      FlattenMultiplicity(sales, p, x);
      GroupMultiplicity(sales, DateOf, d, x);
      assert ds == p + [d];
      assert x.date in ds <==> x.date in p || x.date == d;
      assert d !in p;
    }
  }

  /** The export lists every sale exactly as often as the input does: its sales are a permutation of the input. */
  lemma {:induction false} ExportIsPermutation(sales: seq<Sale>)
    ensures multiset(Flatten(sales, SortedDates(sales))) == multiset(sales)
  {
    var ds := SortedDates(sales);
    forall x
      ensures multiset(Flatten(sales, ds))[x] == multiset(sales)[x]
    {
      FlattenMultiplicity(sales, ds, x);
      if x in sales {
        var i :| 0 <= i < |sales| && sales[i] == x;
        assert x.date in ds;
      }
    }
  }

  /** The number of line breaks in a text. */
  function NewlineCount(s: string): nat
  {
    if |s| == 0 then 0 else NewlineCount(s[..|s| - 1]) + (if s[|s| - 1] == '\n' then 1 else 0)
  }

  lemma {:induction false} NewlineCountAppend(a: string, b: string)
    ensures NewlineCount(a + b) == NewlineCount(a) + NewlineCount(b)
    decreases |b|
  {
    if |b| == 0 {
      assert a + b == a;
    } else {
      assert (a + b)[..|a + b| - 1] == a + b[..|b| - 1];
      NewlineCountAppend(a, b[..|b| - 1]);
    }
  }

  predicate NoNewline(s: string)
  {
    forall i :: 0 <= i < |s| ==> s[i] != '\n'
  }

  lemma {:induction false} NoNewlineCount(s: string)
    requires NoNewline(s)
    ensures NewlineCount(s) == 0
  {
    if |s| > 0 {
      NoNewlineCount(s[..|s| - 1]);
    }
  }

  /** A sale whose date, order id and comment hold no line break. */
  predicate SingleLine(s: Sale)
  {
    NoNewline(s.date) && NoNewline(OrEmpty(s.orderId)) && NoNewline(OrEmpty(s.comment))
  }

  /** A sale's line holds exactly one line break, the one that ends it. */
  lemma {:induction false} SaleLineIsOneLine(s: Sale)
    requires SingleLine(s)
    ensures NewlineCount(SaleLine(s)) == 1
    ensures SaleLine(s)[|SaleLine(s)| - 1] == '\n'
  {
    var o, p, c := OrEmpty(s.orderId), CentsToFixed(s.price), OrEmpty(s.comment);
    FixedShape(s.price);
    NoNewlineCount(o);
    NoNewlineCount(p);
    NoNewlineCount(c);
    NewlineCountAppend(o, "-");
    NewlineCountAppend(o + "-", p);
    NewlineCountAppend(o + "-" + p, "-");
    NewlineCountAppend(o + "-" + p + "-", c);
    NewlineCountAppend(o + "-" + p + "-" + c, "\n");
    assert NewlineCount("-") == 0 && NewlineCount("\n") == 1;
  }

  /** A date's sale lines: one line per sale. */
  lemma {:induction false} LinesCount(group: seq<Sale>)
    requires forall i :: 0 <= i < |group| ==> SingleLine(group[i])
    ensures NewlineCount(Lines(group)) == |group|
  {
    if |group| > 0 {
      var p := group[..|group| - 1];
      LinesCount(p);
      SaleLineIsOneLine(group[|group| - 1]);
      NewlineCountAppend(Lines(p), SaleLine(group[|group| - 1]));
    }
  }

  /** A block has two lines more than its date has sales: the date line and the empty line. */
  lemma {:induction false} BlockCount(date: string, group: seq<Sale>)
    requires NoNewline(date)
    requires forall i :: 0 <= i < |group| ==> SingleLine(group[i])
    ensures NewlineCount(Block(date, group)) == |group| + 2
  {
    NoNewlineCount(date);
    LinesCount(group);
    NewlineCountAppend(date, "\n");
    NewlineCountAppend(date + "\n", Lines(group));
    NewlineCountAppend(date + "\n" + Lines(group), "\n");
    assert NewlineCount("\n") == 1;
  }

  /** The blocks of dates `ds`: two lines per date plus one per sale of those dates. */
  lemma {:induction false} BlocksCount(sales: seq<Sale>, ds: seq<string>)
    requires forall i :: 0 <= i < |sales| ==> SingleLine(sales[i])
    requires forall i :: 0 <= i < |ds| ==> NoNewline(ds[i])
    ensures NewlineCount(Blocks(sales, ds)) == 2 * |ds| + SumOverKeys(ds, sales, DateOf, One)
  {
    if |ds| > 0 {
      var p := ds[..|ds| - 1];
      var d := ds[|ds| - 1];
      var g := Group(sales, DateOf, d);
      BlocksCount(sales, p);
      forall i | 0 <= i < |g|
        ensures SingleLine(g[i])
      {
        GroupMultiplicity(sales, DateOf, d, g[i]);
        assert g[i] in multiset(g);
        var k :| 0 <= k < |sales| && sales[k] == g[i];
      }
      BlockCount(d, g);
      SumByOneIsLength(g);
      NewlineCountAppend(Blocks(sales, p), Block(d, g));
    }
  }

  /**
   * Lines of the export when no date, order id or comment holds a line
   * break: one per date, one per sale and one empty line per date.
   */
  lemma {:induction false} ExportLineCount(sales: seq<Sale>)
    requires forall i :: 0 <= i < |sales| ==> SingleLine(sales[i])
    ensures NewlineCount(ExportText(sales)) == 2 * |SortedDates(sales)| + |sales|
  {
    var ds := SortedDates(sales);
    forall i | 0 <= i < |ds|
      ensures NoNewline(ds[i])
    {
      var x :| x in sales && x.date == ds[i];
      var k :| 0 <= k < |sales| && sales[k] == x;
    }
    BlocksCount(sales, ds);
    Partition(ds, sales, DateOf, One);
    SumByOneIsLength(sales);
  }

  /*
   * A worked example: a sale of 10.50 with order id "A1" and comment "x"
   * on 2024-01-02, then a sale of 5 without order id or comment on
   * 2024-01-01. The earlier date's block comes first.
   */

  /** The two dates come out in ascending order although the later one is listed first. */
  lemma {:induction false} DatesExample(a: Sale, b: Sale)
    requires a.date == "2024-01-02" && b.date == "2024-01-01"
    ensures SortedDates([a, b]) == ["2024-01-01", "2024-01-02"]
  {
    var sales := [a, b];
    var x, y := "2024-01-01", "2024-01-02";
    assert x[..9] == y[..9];
    LessAt(x, y, 9);
    LessAsymmetric(x, y);
    var ds := SortedDates(sales);
    assert sales[0].date == y && sales[1].date == x;
    PairInOrder(ds, x, y);
  }

  /** At most two strings in strict order that include `x` before `y` are exactly `x` then `y`. */
  lemma {:induction false} PairInOrder(ds: seq<string>, x: string, y: string)
    requires |ds| <= 2 && x in ds && y in ds && x != y
    requires forall i, j :: 0 <= i < j < |ds| ==> Less(ds[i], ds[j])
    requires !Less(y, x)
    ensures ds == [x, y]
  {
    assert |ds| == 2;
    assert Less(ds[0], ds[1]);
  }

  /** `toFixed(2)` of a non-negative amount whose whole part is written `whole`. */
  lemma {:induction false} FixedOfWhole(c: int, whole: string)
    requires c >= 0 && NatToString(c / 100) == whole
    ensures CentsToFixed(c) == whole + "." + [Digit(c % 100 / 10), Digit(c % 100 % 10)]
  {
  }

  /** `toFixed(2)` of 5. */
  lemma {:induction false} FixedFive(c: int)
    requires c == 500
    ensures CentsToFixed(c) == "5.00"
  {
    var zero, five := Digit(0), Digit(5);
    assert zero == '0' && five == '5';
    assert NatToString(5) == [five];
    FixedOfWhole(c, [five]);
  }

  /** `toFixed(2)` of 10.5. */
  lemma {:induction false} FixedTenFifty(c: int)
    requires c == 1050
    ensures CentsToFixed(c) == "10.50"
  {
    var zero, one, five := Digit(0), Digit(1), Digit(5);
    assert zero == '0' && one == '1' && five == '5';
    assert NatToString(1) == [one];
    assert NatToString(10) == [one, zero];
    FixedOfWhole(c, [one, zero]);
  }

  /** Each date groups the one sale that carries it. */
  lemma {:induction false} GroupsExample(a: Sale, b: Sale)
    requires a.date == "2024-01-02" && b.date == "2024-01-01"
    ensures Group([a, b], DateOf, "2024-01-01") == [b]
    ensures Group([a, b], DateOf, "2024-01-02") == [a]
  {
    assert [a, b][..1] == [a];
    assert [a][..0] == [];
  }

  /** A sale's line from the texts of its three fields. */
  lemma {:induction false} SaleLineOf(s: Sale, o: string, f: string, m: string)
    requires OrEmpty(s.orderId) == o && CentsToFixed(s.price) == f && OrEmpty(s.comment) == m
    ensures SaleLine(s) == o + "-" + f + "-" + m + "\n"
  {
  }

  lemma {:induction false} LineTextA()
    ensures "A1" + "-" + "10.50" + "-" + "x" + "\n" == "A1-10.50-x\n"
  {
  }

  lemma {:induction false} LineTextB()
    ensures "" + "-" + "5.00" + "-" + "" + "\n" == "-5.00-\n"
  {
  }

  /** An absent order id or comment leaves its field empty; a present one is written as is. */
  lemma {:induction false} ExampleLineA(a: Sale)
    requires a == Sale(Some("A1"), "s1", 1050, Some("x"), "2024-01-02", "t1")
    ensures SaleLine(a) == "A1-10.50-x\n"
  {
    FixedTenFifty(a.price);
    SaleLineOf(a, "A1", "10.50", "x");
    LineTextA();
  }

  lemma {:induction false} ExampleLineB(b: Sale)
    requires b == Sale(None, "s2", 500, None, "2024-01-01", "t2")
    ensures SaleLine(b) == "-5.00-\n"
  {
    FixedFive(b.price);
    SaleLineOf(b, "", "5.00", "");
    LineTextB();
  }

  lemma {:induction false} LinesExample(a: Sale, b: Sale)
    requires a == Sale(Some("A1"), "s1", 1050, Some("x"), "2024-01-02", "t1")
    requires b == Sale(None, "s2", 500, None, "2024-01-01", "t2")
    ensures Lines([a]) == "A1-10.50-x\n"
    ensures Lines([b]) == "-5.00-\n"
  {
    ExampleLineA(a);
    ExampleLineB(b);
    assert [a][..0] == [];
    assert [b][..0] == [];
  }

  lemma {:induction false} BlocksOfNone(sales: seq<Sale>, ds: seq<string>)
    requires |ds| == 0
    ensures Blocks(sales, ds) == ""
  {
  }

  lemma {:induction false} BlocksOfOne(sales: seq<Sale>, ds: seq<string>)
    requires |ds| == 2
    ensures Blocks(sales, ds[..1]) == Block(ds[0], Group(sales, DateOf, ds[0]))
  {
    BlocksAt(sales, ds, 0);
    assert ds[..0] == [];
    BlocksOfNone(sales, ds[..0]);
  }

  lemma {:induction false} BlocksOfTwo(sales: seq<Sale>, ds: seq<string>)
    requires |ds| == 2
    ensures Blocks(sales, ds) == Block(ds[0], Group(sales, DateOf, ds[0])) + Block(ds[1], Group(sales, DateOf, ds[1]))
  {
    BlocksOfOne(sales, ds);
    BlocksAt(sales, ds, 1);
    assert ds[..2] == ds;
  }

  /** The text of two dates: their two blocks, one after the other. */
  lemma {:induction false} TextOfTwoBlocks(sales: seq<Sale>, d0: string, d1: string, l0: string, l1: string)
    requires SortedDates(sales) == [d0, d1]
    requires Lines(Group(sales, DateOf, d0)) == l0
    requires Lines(Group(sales, DateOf, d1)) == l1
    ensures ExportText(sales) == (d0 + "\n" + l0 + "\n") + (d1 + "\n" + l1 + "\n")
  {
    BlocksOfTwo(sales, [d0, d1]);
  }

  lemma {:induction false} ExampleText()
    ensures ("2024-01-01" + "\n" + "-5.00-\n" + "\n") + ("2024-01-02" + "\n" + "A1-10.50-x\n" + "\n")
         == "2024-01-01\n-5.00-\n\n2024-01-02\nA1-10.50-x\n\n"
  {
  }

  /** The whole export text of the example. */
  lemma {:induction false} ExportExample(a: Sale, b: Sale)
    requires a == Sale(Some("A1"), "s1", 1050, Some("x"), "2024-01-02", "t1")
    requires b == Sale(None, "s2", 500, None, "2024-01-01", "t2")
    ensures ExportText([a, b]) == "2024-01-01\n-5.00-\n\n2024-01-02\nA1-10.50-x\n\n"
  {
    DatesExample(a, b);
    GroupsExample(a, b);
    LinesExample(a, b);
    TextOfTwoBlocks([a, b], "2024-01-01", "2024-01-02", "-5.00-\n", "A1-10.50-x\n");
    ExampleText();
  }

  /** The export form's date pair. */
  class ExportSalesData {
    var startDate: string
    var endDate: string

    function Current(): Range
      reads this
    {
      Range(startDate, endDate)
    }

    /** Both dates start at the latest selectable date. */
    constructor (maxDate: string)
      ensures startDate == maxDate && endDate == maxDate
    {
      startDate := maxDate;
      endDate := maxDate;
    }

    /** `handleStartDateChange`: a start after the end drags the end along. */
    method HandleStartDateChange(newStartDate: string)
      modifies this
      ensures Current() == WithStart(old(Current()), newStartDate)
      ensures Ordered(Current())
    {
      startDate := newStartDate;
      if Less(endDate, newStartDate) {
        endDate := newStartDate;
      }
    }

    /** `handleEndDateChange`: an end before the start drags the start along. */
    method HandleEndDateChange(newEndDate: string)
      modifies this
      ensures Current() == WithEnd(old(Current()), newEndDate)
      ensures Ordered(Current())
    {
      endDate := newEndDate;
      if Less(newEndDate, startDate) {
        startDate := newEndDate;
      }
    }
  }
}
