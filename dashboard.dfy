/**
 * The dashboard computed from the loaded ledger (main.py:50-113): the month
 * filter, the income / expense / balance figures, the rows behind the expense
 * pie chart, the month-by-type bar chart and what the page ends up showing.
 */
module Dashboard {
  import opened Wrappers
  import opened Strings
  import opened Ingest

  /** The intended reading of a movement type (see KindOf). */
  datatype Kind = Income | Expense | Unclassified

  /** Row selections the dashboard makes, written out so that they can be compared. */
  datatype Criterion =
    | InMonths(months: set<string>)        // data['mes_nombre'].isin(meses_sel)
    | Pattern(alternatives: seq<string>)   // df['tipo'].str.contains('A|B')
    | OfKind(kind: Kind)
    | GroupKey(month: string, tipo: string)
    | Both(first: Criterion, second: Criterion)

  /** `re.search('A|B|...', t)` for literal alternatives: one of them occurs in `t`. */
  predicate Matches(t: string, alternatives: seq<string>)
    ensures Matches(t, alternatives) <==> exists i, p | 0 <= i < |alternatives| :: OccursAt(t, alternatives[i], p)
  {
    SearchAlternatives(t, alternatives);
    exists a <- alternatives :: Contains(t, a)
  }

  /** Some alternative is contained in `t` exactly when some alternative occurs at some position of `t`. */
  lemma SearchAlternatives(t: string, alternatives: seq<string>)
    ensures (exists a <- alternatives :: Contains(t, a)) <==>
      exists i, p | 0 <= i < |alternatives| :: OccursAt(t, alternatives[i], p)
  {
    if exists a <- alternatives :: Contains(t, a) {
      var a :| a in alternatives && Contains(t, a);
      var i :| 0 <= i < |alternatives| && alternatives[i] == a;
      ContainsIsSubstring(t, a);
      var p :| OccursAt(t, a, p);
      assert OccursAt(t, alternatives[i], p);
    }
    if exists i, p | 0 <= i < |alternatives| :: OccursAt(t, alternatives[i], p) {
      var i, p :| 0 <= i < |alternatives| && OccursAt(t, alternatives[i], p);
      ContainsIsSubstring(t, alternatives[i]);
      assert alternatives[i] in alternatives;
    }
  }

  predicate Holds(c: Criterion, m: Movement) {
    match c
    case InMonths(months) => m.mesNombre in months
    case Pattern(alternatives) => Matches(m.tipo, alternatives)
    case OfKind(k) => KindOf(m.tipo) == k
    case GroupKey(month, tipo) => m.mesNombre == month && m.tipo == tipo
    case Both(a, b) => Holds(a, m) && Holds(b, m)
  }

  /** Boolean-mask indexing `df[mask]`: the rows meeting `c`, in their order. */
  function Where(rows: seq<Movement>, c: Criterion): (r: seq<Movement>)
    ensures |r| <= |rows|
    decreases |rows|
  {
    if rows == [] then []
    else
      var last := rows[|rows| - 1];
      Where(rows[..|rows| - 1], c) + (if Holds(c, last) then [last] else [])
  }

  /** A row is selected exactly when it is one of the rows and meets the criterion. */
  lemma {:induction false} WhereMembers(rows: seq<Movement>, c: Criterion)
    ensures forall m :: m in Where(rows, c) <==> m in rows && Holds(c, m)
    decreases |rows|
  {
    if rows != [] {
      var init, last := rows[..|rows| - 1], rows[|rows| - 1];
      WhereMembers(init, c);
      assert rows == init + [last];
    }
  }

  /** Selecting works row by row, so it keeps the relative order of the rows it keeps. */
  lemma {:induction false} WhereAppend(a: seq<Movement>, b: seq<Movement>, c: Criterion)
    ensures Where(a + b, c) == Where(a, c) + Where(b, c)
    decreases |b|
  {
    if b == [] {
      assert a + b == a;
    } else {
      var b' := b[..|b| - 1];
      assert (a + b)[..|a + b| - 1] == a + b';
      WhereAppend(a, b', c);
    }
  }

  /** Two criteria that agree on every row select the same rows. */
  lemma {:induction false} WhereAgree(rows: seq<Movement>, a: Criterion, b: Criterion)
    requires forall m <- rows :: Holds(a, m) <==> Holds(b, m)
    ensures Where(rows, a) == Where(rows, b)
    decreases |rows|
  {
    if rows != [] {
      WhereAgree(rows[..|rows| - 1], a, b);
    }
  }

  /** A criterion every row meets keeps the whole sequence. */
  lemma {:induction false} WhereAll(rows: seq<Movement>, c: Criterion)
    requires forall i | 0 <= i < |rows| :: Holds(c, rows[i])
    ensures Where(rows, c) == rows
    decreases |rows|
  {
    if rows != [] {
      var init := rows[..|rows| - 1];
      WhereAll(init, c);
      assert init + [rows[|rows| - 1]] == rows;
    }
  }

  /** Selecting twice is selecting by both criteria. */
  lemma {:induction false} WhereWhere(rows: seq<Movement>, a: Criterion, b: Criterion)
    ensures Where(Where(rows, a), b) == Where(rows, Both(a, b))
    decreases |rows|
  {
    if rows != [] {
      var init := rows[..|rows| - 1];
      var last := rows[|rows| - 1];
      WhereWhere(init, a, b);
      WhereAppend(Where(init, a), if Holds(a, last) then [last] else [], b);
    }
  }

  // ---------------------------------------------------------------- sums

  /** `df['monto'].sum()`; the empty sum is 0. */
  function Sum(rows: seq<Movement>): (r: real)
    ensures (forall m <- rows :: m.monto >= 0.0) ==> r >= 0.0
    decreases |rows|
  {
    if rows == [] then 0.0 else Sum(rows[..|rows| - 1]) + rows[|rows| - 1].monto
  }

  lemma {:induction false} SumAppend(a: seq<Movement>, b: seq<Movement>)
    ensures Sum(a + b) == Sum(a) + Sum(b)
    decreases |b|
  {
    if b == [] {
      assert a + b == a;
    } else {
      var b' := b[..|b| - 1];
      assert (a + b)[..|a + b| - 1] == a + b';
      SumAppend(a, b');
    }
  }

  /**
   * Widening a selection adds only the rows the narrow one leaves out; when
   * those are all non-negative the sum cannot shrink.
   */
  lemma {:induction false} SumWhereGrows(rows: seq<Movement>, narrow: Criterion, wide: Criterion)
    requires forall m <- rows :: Holds(narrow, m) ==> Holds(wide, m)
    requires forall m <- rows :: Holds(wide, m) && !Holds(narrow, m) ==> m.monto >= 0.0
    ensures Sum(Where(rows, narrow)) <= Sum(Where(rows, wide))
    decreases |rows|
  {
    if rows != [] {
      var init, last := rows[..|rows| - 1], rows[|rows| - 1];
      SumWhereGrows(init, narrow, wide);
      SumAppend(Where(init, narrow), if Holds(narrow, last) then [last] else []);
      SumAppend(Where(init, wide), if Holds(wide, last) then [last] else []);
    }
  }

  /** The mirror image: when the extra rows are all non-positive the sum cannot grow. */
  lemma {:induction false} SumWhereShrinks(rows: seq<Movement>, narrow: Criterion, wide: Criterion)
    requires forall m <- rows :: Holds(narrow, m) ==> Holds(wide, m)
    requires forall m <- rows :: Holds(wide, m) && !Holds(narrow, m) ==> m.monto <= 0.0
    ensures Sum(Where(rows, wide)) <= Sum(Where(rows, narrow))
    decreases |rows|
  {
    if rows != [] {
      var init, last := rows[..|rows| - 1], rows[|rows| - 1];
      SumWhereShrinks(init, narrow, wide);
      SumAppend(Where(init, narrow), if Holds(narrow, last) then [last] else []);
      SumAppend(Where(init, wide), if Holds(wide, last) then [last] else []);
    }
  }

  function Abs(x: real): real {
    if x < 0.0 then -x else x
  }

  // ---------------------------------------------------------------- month filter

  /** The month names present, each once: `data['mes_nombre'].unique()`. */
  function UniqueMonths(rows: seq<Movement>): (u: seq<string>)
    ensures forall i, j | 0 <= i < j < |u| :: u[i] != u[j]
    ensures forall s :: s in u <==> exists m <- rows :: m.mesNombre == s
    decreases |rows|
  {
    if rows == [] then []
    else
      var u := UniqueMonths(rows[..|rows| - 1]);
      var last := rows[|rows| - 1];
      assert forall m <- rows :: m in rows[..|rows| - 1] || m == last;
      if last.mesNombre in u then u else u + [last.mesNombre]
  }

  /** The multiselect's default, every month present (main.py:55-56). */
  function AllMonths(rows: seq<Movement>): (r: set<string>)
    ensures forall s :: s in r <==> exists m <- rows :: m.mesNombre == s
  {
    set s | s in UniqueMonths(rows)
  }

  /** `data[data['mes_nombre'].isin(meses_sel)]` (main.py:58). */
  function FilterMonths(rows: seq<Movement>, selected: set<string>): (r: seq<Movement>)
    ensures forall m :: m in r <==> m in rows && m.mesNombre in selected
  {
    WhereMembers(rows, InMonths(selected));
    Where(rows, InMonths(selected))
  }

  /** With the default selection the month filter keeps every row, in order. */
  lemma DefaultSelectionKeepsAll(rows: seq<Movement>)
    ensures FilterMonths(rows, AllMonths(rows)) == rows
  {
    forall m <- rows ensures Holds(InMonths(AllMonths(rows)), m) {
      assert m.mesNombre in UniqueMonths(rows);
    }
    WhereAll(rows, InMonths(AllMonths(rows)));
  }

  /**
   * The month key carries no year: two rows dated in the same month of any
   * two years pass or fail the month filter together and share a bar-chart group.
   */
  lemma MonthKeyIgnoresYear(a: Movement, b: Movement, selected: set<string>)
    requires a.mesNombre == MonthName(a.fecha.month) && b.mesNombre == MonthName(b.fecha.month)
    requires a.fecha.month == b.fecha.month && a.tipo == b.tipo
    ensures Holds(InMonths(selected), a) <==> Holds(InMonths(selected), b)
    ensures Key(a) == Key(b)
  {
  }

  /** And only the month matters: rows from different months never share a key. */
  lemma MonthKeySeparatesMonths(a: Movement, b: Movement)
    requires a.mesNombre == MonthName(a.fecha.month) && b.mesNombre == MonthName(b.fecha.month)
    requires a.fecha.month != b.fecha.month
    ensures Key(a) != Key(b)
  {
    if Key(a) == Key(b) {
      MonthNameInjective(a.fecha.month, b.fecha.month);
    }
  }

  // ---------------------------------------------------------------- totals

  datatype Kpis = Kpis(ingresos: real, gastos: real, balance: real)

  const IncomeRegex := ["I", "INGRESO"]
  const ExpenseRegex := ["G", "GASTO"]

  /** `'I|INGRESO'` is just "contains I", since INGRESO itself contains an I. */
  lemma IncomeRegexIsLetterI(t: string)
    ensures Matches(t, IncomeRegex) <==> Contains(t, "I")
  {
    if Contains(t, "INGRESO") {
      assert Contains("INGRESO", "I");
      ContainsTransitive(t, "INGRESO", "I");
    }
    if Contains(t, "I") {
      assert IncomeRegex[0] == "I";
    }
  }

  /** `'G|GASTO'` is just "contains G". */
  lemma ExpenseRegexIsLetterG(t: string)
    ensures Matches(t, ExpenseRegex) <==> Contains(t, "G")
  {
    if Contains(t, "GASTO") {
      assert Contains("GASTO", "G");
      ContainsTransitive(t, "GASTO", "G");
    }
    if Contains(t, "G") {
      assert ExpenseRegex[0] == "G";
    }
  }

  /** main.py:65-67 as written. */
  function TotalsAsWritten(rows: seq<Movement>): (k: Kpis)
    ensures k.gastos >= 0.0
    ensures k.balance == k.ingresos - k.gastos
  {
    var ingresos := Sum(Where(rows, Pattern(IncomeRegex)));
    var gastos := Abs(Sum(Where(rows, Pattern(ExpenseRegex))));
    Kpis(ingresos, gastos, ingresos - gastos)
  }

  /** As written, income is the sum over the rows whose type contains I, expense the size of the sum over those containing G. */
  lemma TotalsAsWrittenByLetter(rows: seq<Movement>)
    ensures TotalsAsWritten(rows).ingresos == Sum(Where(rows, Pattern(["I"])))
    ensures TotalsAsWritten(rows).gastos == Abs(Sum(Where(rows, Pattern(["G"]))))
  {
    forall m <- rows ensures Holds(Pattern(IncomeRegex), m) <==> Holds(Pattern(["I"]), m) {
      IncomeRegexIsLetterI(m.tipo);
      assert Matches(m.tipo, ["I"]) <==> Contains(m.tipo, "I") by { assert ["I"][0] == "I"; }
    }
    forall m <- rows ensures Holds(Pattern(ExpenseRegex), m) <==> Holds(Pattern(["G"]), m) {
      ExpenseRegexIsLetterG(m.tipo);
      assert Matches(m.tipo, ["G"]) <==> Contains(m.tipo, "G") by { assert ["G"][0] == "G"; }
    }
    WhereAgree(rows, Pattern(IncomeRegex), Pattern(["I"]));
    WhereAgree(rows, Pattern(ExpenseRegex), Pattern(["G"]));
  }

  /** INGRESO is spelt with a G: a row typed 'INGRESO (I)' (main.py:96) meets both patterns. */
  lemma IncomeLabelMatchesExpensePattern(m: Movement)
    requires m.tipo == "INGRESO (I)"
    ensures Holds(Pattern(IncomeRegex), m) && Holds(Pattern(ExpenseRegex), m)
  {
    assert "I" <= m.tipo;
    assert Contains(m.tipo, IncomeRegex[0]);
    assert "G" <= m.tipo[2..];
    assert Contains(m.tipo[1..][1..], "G");
    assert Contains(m.tipo, ExpenseRegex[0]);
  }

  /**
   * The classification the totals evidently intend, read from the comment at
   * main.py:64: a type containing I is income, and otherwise a type containing
   * G is an expense. The patterns of lines 65-66 stay; only the overlap moves.
   */
  function KindOf(t: string): (k: Kind)
    ensures k == Income <==> Contains(t, "I")
    ensures k == Expense <==> Contains(t, "G") && !Contains(t, "I")
  {
    IncomeRegexIsLetterI(t);
    ExpenseRegexIsLetterG(t);
    if Matches(t, IncomeRegex) then Income
    else if Matches(t, ExpenseRegex) then Expense
    else Unclassified
  }

  /** The two movement types the chart colours name (main.py:96) land where they should. */
  lemma KindOfChartLabels()
    ensures KindOf("INGRESO (I)") == Income
    ensures KindOf("GASTO (G)") == Expense
  {
    assert "I" <= "INGRESO (I)";
    var g := "GASTO (G)";
    assert "G" <= g;
    NotContained(g, "I", 'I');
  }

  /** The income, expense and balance figures with each row counted under one kind at most. */
  function Totals(rows: seq<Movement>): (k: Kpis)
    ensures k.gastos >= 0.0
    ensures k.balance == k.ingresos - k.gastos
  {
    var ingresos := Sum(Where(rows, OfKind(Income)));
    var gastos := Abs(Sum(Where(rows, OfKind(Expense))));
    Kpis(ingresos, gastos, ingresos - gastos)
  }

  /** Every row is exactly one kind: the three selections split the rows and their amounts. */
  lemma {:induction false} KindsPartition(rows: seq<Movement>)
    ensures |Where(rows, OfKind(Income))| + |Where(rows, OfKind(Expense))| + |Where(rows, OfKind(Unclassified))| == |rows|
    ensures Sum(Where(rows, OfKind(Income))) + Sum(Where(rows, OfKind(Expense))) + Sum(Where(rows, OfKind(Unclassified))) == Sum(rows)
    decreases |rows|
  {
    if rows != [] {
      var init, last := rows[..|rows| - 1], rows[|rows| - 1];
      KindsPartition(init);
      SumAppend(Where(init, OfKind(Income)), if KindOf(last.tipo) == Income then [last] else []);
      SumAppend(Where(init, OfKind(Expense)), if KindOf(last.tipo) == Expense then [last] else []);
      SumAppend(Where(init, OfKind(Unclassified)), if KindOf(last.tipo) == Unclassified then [last] else []);
    }
  }

  /** The correction leaves the income figure of main.py:65 as it is. */
  lemma CorrectedIncomeIsAsWritten(rows: seq<Movement>)
    ensures Totals(rows).ingresos == TotalsAsWritten(rows).ingresos
  {
    forall m <- rows ensures Holds(OfKind(Income), m) <==> Holds(Pattern(IncomeRegex), m) {
      IncomeRegexIsLetterI(m.tipo);
    }
    WhereAgree(rows, OfKind(Income), Pattern(IncomeRegex));
  }

  /**
   * The expense sum of main.py:66 as written is the corrected expense sum plus
   * the rows that match both patterns, which are income.
   */
  lemma {:induction false} ExpenseAsWrittenAddsOverlap(rows: seq<Movement>)
    ensures Sum(Where(rows, Pattern(ExpenseRegex))) ==
      Sum(Where(rows, OfKind(Expense))) + Sum(Where(rows, Both(Pattern(IncomeRegex), Pattern(ExpenseRegex))))
    decreases |rows|
  {
    if rows != [] {
      var init, last := rows[..|rows| - 1], rows[|rows| - 1];
      assert rows == init + [last];
      ExpenseAsWrittenAddsOverlap(init);
      var both := Both(Pattern(IncomeRegex), Pattern(ExpenseRegex));
      SumWhereStep(init, last, Pattern(ExpenseRegex));
      SumWhereStep(init, last, OfKind(Expense));
      SumWhereStep(init, last, both);
      IncomeRegexIsLetterI(last.tipo);
      ExpenseRegexIsLetterG(last.tipo);
      assert Holds(Pattern(ExpenseRegex), last) <==> Holds(OfKind(Expense), last) || Holds(both, last);
      assert !(Holds(OfKind(Expense), last) && Holds(both, last));
    }
  }

  /** Where no type matches both patterns, the corrected figures are the figures as written. */
  lemma CorrectionAgreesWithoutOverlap(rows: seq<Movement>)
    requires forall m <- rows :: !(Matches(m.tipo, IncomeRegex) && Matches(m.tipo, ExpenseRegex))
    ensures Totals(rows) == TotalsAsWritten(rows)
  {
    CorrectedIncomeIsAsWritten(rows);
    forall m <- rows ensures Holds(OfKind(Expense), m) <==> Holds(Pattern(ExpenseRegex), m) {
      IncomeRegexIsLetterI(m.tipo);
      ExpenseRegexIsLetterG(m.tipo);
    }
    WhereAgree(rows, OfKind(Expense), Pattern(ExpenseRegex));
  }

  /** A row typed 'GASTO (G)' (main.py:96) meets only the expense pattern and is an expense. */
  lemma ExpenseLabelFacts(m: Movement)
    requires m.tipo == "GASTO (G)"
    ensures !Holds(Pattern(IncomeRegex), m) && Holds(Pattern(ExpenseRegex), m)
  {
    NotContained(m.tipo, "I", 'I');
    NotContained(m.tipo, "INGRESO", 'I');
    assert "G" <= m.tipo;
    assert Contains(m.tipo, ExpenseRegex[0]);
  }

  /** Selecting from two rows and summing what is kept. */
  lemma SumWhereOfTwo(a: Movement, b: Movement, c: Criterion)
    ensures Sum(Where([a, b], c)) == (if Holds(c, a) then a.monto else 0.0) + (if Holds(c, b) then b.monto else 0.0)
  {
    assert [a, b] == [a] + [b];
    SumWhereStep([a], b, c);
    assert [a] == [] + [a];
    SumWhereStep([], a, c);
  }

  /**
   * As written, an income of 1000 typed 'INGRESO (I)' beside an expense of -200
   * typed 'GASTO (G)' shows expense 800 and balance 200: the income row is also
   * counted as an expense.
   */
  lemma SampleTotalsAsWritten(income: Movement, expense: Movement)
    requires income.tipo == "INGRESO (I)" && income.monto == 1000.0
    requires expense.tipo == "GASTO (G)" && expense.monto == -200.0
    ensures TotalsAsWritten([income, expense]) == Kpis(1000.0, 800.0, 200.0)
  {
    IncomeLabelMatchesExpensePattern(income);
    ExpenseLabelFacts(expense);
    SumWhereOfTwo(income, expense, Pattern(IncomeRegex));
    SumWhereOfTwo(income, expense, Pattern(ExpenseRegex));
  }

  /** With each row counted under one kind, the same two rows show expense 200 and balance 800. */
  lemma SampleTotals(income: Movement, expense: Movement)
    requires income.tipo == "INGRESO (I)" && income.monto == 1000.0
    requires expense.tipo == "GASTO (G)" && expense.monto == -200.0
    ensures Totals([income, expense]) == Kpis(1000.0, 200.0, 800.0)
  {
    KindOfChartLabels();
    assert Holds(OfKind(Income), income) && !Holds(OfKind(Income), expense);
    assert !Holds(OfKind(Expense), income) && Holds(OfKind(Expense), expense);
    SumWhereOfTwo(income, expense, OfKind(Income));
    SumWhereOfTwo(income, expense, OfKind(Expense));
  }

  /** Selecting fewer months never raises the income figure when every income amount is non-negative. */
  lemma NarrowerSelectionLowersIncome(rows: seq<Movement>, narrow: set<string>, wide: set<string>)
    requires narrow <= wide
    requires forall m <- rows :: KindOf(m.tipo) == Income ==> m.monto >= 0.0
    ensures Totals(FilterMonths(rows, narrow)).ingresos <= Totals(FilterMonths(rows, wide)).ingresos
  {
    var n, w := InMonths(narrow), InMonths(wide);
    WhereWhere(rows, n, OfKind(Income));
    WhereWhere(rows, w, OfKind(Income));
    SumWhereGrows(rows, Both(n, OfKind(Income)), Both(w, OfKind(Income)));
  }

  /** Selecting fewer months never raises the expense figure when every expense amount is non-positive. */
  lemma NarrowerSelectionLowersExpense(rows: seq<Movement>, narrow: set<string>, wide: set<string>)
    requires narrow <= wide
    requires forall m <- rows :: KindOf(m.tipo) == Expense ==> m.monto <= 0.0
    ensures Totals(FilterMonths(rows, narrow)).gastos <= Totals(FilterMonths(rows, wide)).gastos
  {
    var n, w := InMonths(narrow), InMonths(wide);
    WhereWhere(rows, n, OfKind(Expense));
    WhereWhere(rows, w, OfKind(Expense));
    SumWhereShrinks(rows, Both(n, OfKind(Expense)), Both(w, OfKind(Expense)));
    WhereMembers(rows, Both(n, OfKind(Expense)));
    SumNonPositive(Where(rows, Both(n, OfKind(Expense))));
  }

  lemma {:induction false} SumNonPositive(rows: seq<Movement>)
    requires forall m <- rows :: m.monto <= 0.0
    ensures Sum(rows) <= 0.0
    decreases |rows|
  {
    if rows != [] {
      SumNonPositive(rows[..|rows| - 1]);
    }
  }

  // ---------------------------------------------------------------- charts

  /**
   * The rows behind the expense pie (main.py:81-87): nothing to draw for no
   * expense rows, IndexError when no column label contains `categor`, and
   * otherwise one (category cell, amount) slice per expense row.
   */
  function ExpenseSlices(ledger: Ledger, expense: seq<Movement>): (r: Result<Option<seq<(Cell, real)>>, Exception>)
    requires forall m <- expense :: |m.cells| == |ledger.labels|
    ensures r == Success(None) <==> expense == []
    ensures r.Failure? <==> expense != [] && forall j | 0 <= j < |ledger.labels| :: !Contains(ledger.labels[j], CategoryKey)
    ensures r.Failure? ==> r.error == IndexError(CategoryKey)
    ensures r.Success? && r.value.Some? ==>
      var c := FirstContaining(ledger.labels, CategoryKey).value;
      && |r.value.value| == |expense|
      && forall k | 0 <= k < |expense| :: r.value.value[k] == (expense[k].cells[c], expense[k].monto)
  {
    if expense == [] then Success(None)
    else
      CategoryColumnIsASheetColumn(ledger.labels);
      match FirstContaining(Columns(ledger.labels), CategoryKey)
      case None => Failure(IndexError(CategoryKey))
      case Some(c) =>
        Success(Some(seq(|expense|, k requires 0 <= k < |expense| => (expense[k].cells[c], expense[k].monto))))
  }

  /** The bar chart's group key: (`mes_nombre`, `tipo`). */
  function Key(m: Movement): (string, string) {
    (m.mesNombre, m.tipo)
  }

  function KeysOf(rows: seq<Movement>): set<(string, string)> {
    set m | m in rows :: Key(m)
  }

  /** The signed sum per key, accumulated row by row as a group-by does. */
  function GroupSums(rows: seq<Movement>): (r: map<(string, string), real>)
    ensures r.Keys == KeysOf(rows)
    decreases |rows|
  {
    if rows == [] then map[]
    else
      KeysOfStep(rows[..|rows| - 1], rows[|rows| - 1]);
      assert rows[..|rows| - 1] + [rows[|rows| - 1]] == rows;
      var sums := GroupSums(rows[..|rows| - 1]);
      var last := rows[|rows| - 1];
      var k := Key(last);
      sums[k := (if k in sums then sums[k] else 0.0) + last.monto]
  }

  /** A selection no row meets is empty. */
  lemma {:induction false} WhereNone(rows: seq<Movement>, c: Criterion)
    requires forall m <- rows :: !Holds(c, m)
    ensures Where(rows, c) == []
    decreases |rows|
  {
    if rows != [] {
      WhereNone(rows[..|rows| - 1], c);
    }
  }

  /** Appending one row adds its amount to the sum of a selection exactly when it meets the criterion. */
  lemma SumWhereStep(init: seq<Movement>, last: Movement, c: Criterion)
    ensures Sum(Where(init + [last], c)) == Sum(Where(init, c)) + (if Holds(c, last) then last.monto else 0.0)
  {
    var rows := init + [last];
    assert rows[..|rows| - 1] == init;
    SumAppend(Where(init, c), if Holds(c, last) then [last] else []);
  }

  /** The keys present after one more row are the earlier keys and that row's key. */
  lemma KeysOfStep(init: seq<Movement>, last: Movement)
    ensures KeysOf(init + [last]) == KeysOf(init) + {Key(last)}
  {
    var rows := init + [last];
    assert forall m <- rows :: m in init || m == last;
    assert last in rows;
  }

  /** The signed sum of one group's amounts, row by row: the reference the accumulation is held to. */
  function GroupTotal(rows: seq<Movement>, k: (string, string)): real
    decreases |rows|
  {
    if rows == [] then 0.0
    else
      var last := rows[|rows| - 1];
      GroupTotal(rows[..|rows| - 1], k) + (if Key(last) == k then last.monto else 0.0)
  }

  lemma GroupTotalStep(init: seq<Movement>, last: Movement, k: (string, string))
    ensures GroupTotal(init + [last], k) == GroupTotal(init, k) + (if Key(last) == k then last.monto else 0.0)
  {
    var rows := init + [last];
    assert rows[..|rows| - 1] == init;
  }

  /** A key no row carries has a zero total. */
  lemma {:induction false} GroupTotalAbsent(rows: seq<Movement>, k: (string, string))
    requires forall m <- rows :: Key(m) != k
    ensures GroupTotal(rows, k) == 0.0
    decreases |rows|
  {
    if rows != [] {
      GroupTotalAbsent(rows[..|rows| - 1], k);
    }
  }

  /** A group's total is the sum of the rows the (month, type) mask selects. */
  lemma {:induction false} GroupTotalIsSum(rows: seq<Movement>, k: (string, string))
    ensures GroupTotal(rows, k) == Sum(Where(rows, GroupKey(k.0, k.1)))
    decreases |rows|
  {
    if rows != [] {
      var init, last := rows[..|rows| - 1], rows[|rows| - 1];
      GroupTotalIsSum(init, k);
      SumWhereStep(init, last, GroupKey(k.0, k.1));
      assert init + [last] == rows;
    }
  }

  /** The accumulated map has one entry per key present, holding that group's total. */
  lemma {:induction false} GroupSumsTotals(rows: seq<Movement>)
    ensures GroupSums(rows).Keys == KeysOf(rows)
    ensures forall k <- GroupSums(rows) :: GroupSums(rows)[k] == GroupTotal(rows, k)
    decreases |rows|
  {
    if rows != [] {
      var init, last := rows[..|rows| - 1], rows[|rows| - 1];
      assert init + [last] == rows;
      GroupSumsTotals(init);
      GroupSumsStep(init, last);
    }
  }

  /** The accumulated map has one entry per (month, type) pair present, holding that group's signed sum. */
  lemma GroupSumsPerKey(rows: seq<Movement>)
    ensures GroupSums(rows).Keys == KeysOf(rows)
    ensures forall k <- GroupSums(rows) :: GroupSums(rows)[k] == Sum(Where(rows, GroupKey(k.0, k.1)))
  {
    GroupSumsTotals(rows);
    forall k <- GroupSums(rows) ensures GroupSums(rows)[k] == Sum(Where(rows, GroupKey(k.0, k.1))) {
      GroupTotalIsSum(rows, k);
    }
  }

  /** One more row adds its amount under its own key. */
  lemma GroupSumsUnfold(init: seq<Movement>, last: Movement)
    ensures var before, k := GroupSums(init), Key(last);
      GroupSums(init + [last]) == before[k := (if k in before then before[k] else 0.0) + last.monto]
  {
    var rows := init + [last];
    assert rows[..|rows| - 1] == init && rows[|rows| - 1] == last;
    var sums := GroupSums(init);
    assert GroupSums(rows) == sums[Key(last) := (if Key(last) in sums then sums[Key(last)] else 0.0) + last.monto];
  }

  /** Accumulating one more row keeps one entry per key present, each holding its group's total. */
  lemma GroupSumsStep(init: seq<Movement>, last: Movement)
    requires GroupSums(init).Keys == KeysOf(init)
    requires forall k <- GroupSums(init) :: GroupSums(init)[k] == GroupTotal(init, k)
    ensures GroupSums(init + [last]).Keys == KeysOf(init + [last])
    ensures forall k <- GroupSums(init + [last]) :: GroupSums(init + [last])[k] == GroupTotal(init + [last], k)
  {
    GroupSumsUnfold(init, last);
    KeysOfStep(init, last);
    var before, sums := GroupSums(init), GroupSums(init + [last]);
    forall j <- sums ensures sums[j] == GroupTotal(init + [last], j) {
      GroupTotalStep(init, last, j);
      if j !in before {
        forall m <- init ensures Key(m) != j {
          assert Key(m) in KeysOf(init);
        }
        GroupTotalAbsent(init, j);
      }
    }
  }

  /**
   * `groupby(['mes_nombre', 'tipo'])['monto'].sum().abs()` (main.py:93): every
   * (month, type) pair present, and only those, with the size of its summed amounts.
   */
  function Evolution(rows: seq<Movement>): (e: map<(string, string), real>)
    ensures e.Keys == KeysOf(rows)
    ensures forall k <- e :: e[k] == Abs(Sum(Where(rows, GroupKey(k.0, k.1)))) && e[k] >= 0.0
  {
    GroupSumsPerKey(rows);
    var sums := GroupSums(rows);
    map k | k in sums :: Abs(sums[k])
  }

  // ---------------------------------------------------------------- the page

  /** The month choice in the sidebar: its default, or the months the user picked. */
  datatype Choice = Default | Picked(months: set<string>)

  /** What the page ends up showing. */
  datatype Screen =
    | LoadFailed(error: Exception)                // the handler at main.py:111, nothing else drawn
    | ChartFailed(kpis: Kpis, error: Exception)   // metrics drawn, then the pie's column lookup raised
    | Shown(kpis: Kpis, slices: Option<seq<(Cell, real)>>, evolution: map<(string, string), real>)

  /** The months the filter keeps for a choice. */
  function Selected(choice: Choice, rows: seq<Movement>): (r: set<string>)
    ensures choice.Picked? ==> r == choice.months
    ensures choice.Default? ==> forall m <- rows :: m.mesNombre in r
  {
    match choice
    case Default => AllMonths(rows)
    case Picked(months) => months
  }

  /** The metrics, then the pie over `expense`, then the bar chart over `rows`. */
  function Draw(ledger: Ledger, rows: seq<Movement>, kpis: Kpis, expense: seq<Movement>): (s: Screen)
    requires forall m <- expense :: |m.cells| == |ledger.labels|
    ensures !s.LoadFailed? && s.kpis == kpis
    ensures s.ChartFailed? <==> expense != [] && forall j | 0 <= j < |ledger.labels| :: !Contains(ledger.labels[j], CategoryKey)
    ensures s.ChartFailed? ==> s.error == IndexError(CategoryKey)
    ensures s.Shown? ==> s.evolution == Evolution(rows) && ExpenseSlices(ledger, expense) == Success(s.slices)
  {
    match ExpenseSlices(ledger, expense)
    case Failure(e) => ChartFailed(kpis, e)
    case Success(slices) => Shown(kpis, slices, Evolution(rows))
  }

  /**
   * The page for one loaded ledger, with income and expense classified as the
   * figures intend (see KindOf): metrics, then the pie, then the bar chart.
   */
  function Render(ledger: Ledger, choice: Choice): (s: Screen)
    requires forall m <- ledger.rows :: |m.cells| == |ledger.labels|
    ensures !s.LoadFailed?
    ensures s.kpis == Totals(FilterMonths(ledger.rows, Selected(choice, ledger.rows)))
    ensures s.ChartFailed? <==>
      && Where(FilterMonths(ledger.rows, Selected(choice, ledger.rows)), OfKind(Expense)) != []
      && forall j | 0 <= j < |ledger.labels| :: !Contains(ledger.labels[j], CategoryKey)
    ensures s.ChartFailed? ==> s.error == IndexError(CategoryKey)
    ensures s.Shown? ==> s.evolution == Evolution(FilterMonths(ledger.rows, Selected(choice, ledger.rows)))
    ensures s.Shown? ==> (
      WhereMembers(FilterMonths(ledger.rows, Selected(choice, ledger.rows)), OfKind(Expense));
      ExpenseSlices(ledger, Where(FilterMonths(ledger.rows, Selected(choice, ledger.rows)), OfKind(Expense))) == Success(s.slices))
  {
    var rows := FilterMonths(ledger.rows, Selected(choice, ledger.rows));
    WhereMembers(rows, OfKind(Expense));
    Draw(ledger, rows, Totals(rows), Where(rows, OfKind(Expense)))
  }

  /**
   * The page as main.py:65-93 writes it: the figures by the `I|INGRESO` and
   * `G|GASTO` patterns, and the pie over every row matching `G|GASTO` (line 81).
   */
  function RenderAsWritten(ledger: Ledger, choice: Choice): (s: Screen)
    requires forall m <- ledger.rows :: |m.cells| == |ledger.labels|
    ensures !s.LoadFailed?
    ensures s.kpis == TotalsAsWritten(FilterMonths(ledger.rows, Selected(choice, ledger.rows)))
    ensures s.ChartFailed? <==>
      && Where(FilterMonths(ledger.rows, Selected(choice, ledger.rows)), Pattern(ExpenseRegex)) != []
      && forall j | 0 <= j < |ledger.labels| :: !Contains(ledger.labels[j], CategoryKey)
    ensures s.ChartFailed? ==> s.error == IndexError(CategoryKey)
    ensures s.Shown? ==> s.evolution == Evolution(FilterMonths(ledger.rows, Selected(choice, ledger.rows)))
    ensures s.Shown? ==> (
      WhereMembers(FilterMonths(ledger.rows, Selected(choice, ledger.rows)), Pattern(ExpenseRegex));
      ExpenseSlices(ledger, Where(FilterMonths(ledger.rows, Selected(choice, ledger.rows)), Pattern(ExpenseRegex))) == Success(s.slices))
  {
    var rows := FilterMonths(ledger.rows, Selected(choice, ledger.rows));
    WhereMembers(rows, Pattern(ExpenseRegex));
    Draw(ledger, rows, TotalsAsWritten(rows), Where(rows, Pattern(ExpenseRegex)))
  }

  /**
   * A ledger of one row that the `G|GASTO` pattern matches but that is income,
   * with no `categor` column: as written the pie selects the row and its column
   * lookup raises, while the intended page has no expense to draw.
   */
  lemma IncomeRowMatchingExpensePattern(ledger: Ledger, m: Movement)
    requires ledger.rows == [m] && |m.cells| == |ledger.labels|
    requires Holds(Pattern(ExpenseRegex), m) && KindOf(m.tipo) == Income
    requires forall j | 0 <= j < |ledger.labels| :: !Contains(ledger.labels[j], CategoryKey)
    ensures RenderAsWritten(ledger, Default).ChartFailed?
    ensures RenderAsWritten(ledger, Default).error == IndexError(CategoryKey)
    ensures Render(ledger, Default).Shown?
  {
    DefaultSelectionKeepsAll(ledger.rows);
    assert FilterMonths(ledger.rows, Selected(Default, ledger.rows)) == [m];
    WhereAll([m], Pattern(ExpenseRegex));
    WhereNone([m], OfKind(Expense));
  }

  /**
   * The same row with a `categor` column: as written the pie draws the income
   * row as an expense slice, while the intended page has nothing to draw.
   */
  lemma IncomeRowDrawnAsExpense(ledger: Ledger, m: Movement)
    requires ledger.rows == [m] && |m.cells| == |ledger.labels|
    requires Holds(Pattern(ExpenseRegex), m) && KindOf(m.tipo) == Income
    requires FirstContaining(ledger.labels, CategoryKey).Some?
    ensures RenderAsWritten(ledger, Default).Shown?
    ensures RenderAsWritten(ledger, Default).slices ==
      Some([(m.cells[FirstContaining(ledger.labels, CategoryKey).value], m.monto)])
    ensures Render(ledger, Default).Shown? && Render(ledger, Default).slices == None
  {
    var c := FirstContaining(ledger.labels, CategoryKey).value;
    assert Contains(ledger.labels[c], CategoryKey);
    DefaultSelectionKeepsAll(ledger.rows);
    assert FilterMonths(ledger.rows, Selected(Default, ledger.rows)) == [m];
    WhereAll([m], Pattern(ExpenseRegex));
    WhereNone([m], OfKind(Expense));
    var slices := ExpenseSlices(ledger, [m]);
    assert slices.Success? && slices.value.Some?;
    assert slices.value.value == [(m.cells[c], m.monto)];
  }

  /** The same for the chart's own income label `INGRESO (I)` (main.py:96). */
  lemma IncomeOnlyLedgerFailsAsWritten(ledger: Ledger, m: Movement)
    requires ledger.rows == [m] && m.tipo == "INGRESO (I)" && |m.cells| == |ledger.labels|
    requires forall j | 0 <= j < |ledger.labels| :: !Contains(ledger.labels[j], CategoryKey)
    ensures RenderAsWritten(ledger, Default).ChartFailed?
    ensures RenderAsWritten(ledger, Default).error == IndexError(CategoryKey)
    ensures Render(ledger, Default).Shown?
  {
    IncomeLabelMatchesExpensePattern(m);
    KindOfChartLabels();
    IncomeRowMatchingExpensePattern(ledger, m);
  }

  /** With a `categor` column, an `INGRESO (I)` row becomes a slice of the as-written expense pie and of no corrected one. */
  lemma IncomeSliceInPieAsWritten(ledger: Ledger, m: Movement)
    requires ledger.rows == [m] && m.tipo == "INGRESO (I)" && |m.cells| == |ledger.labels|
    requires FirstContaining(ledger.labels, CategoryKey).Some?
    ensures RenderAsWritten(ledger, Default).Shown?
    ensures RenderAsWritten(ledger, Default).slices ==
      Some([(m.cells[FirstContaining(ledger.labels, CategoryKey).value], m.monto)])
    ensures Render(ledger, Default).Shown? && Render(ledger, Default).slices == None
  {
    IncomeLabelMatchesExpensePattern(m);
    KindOfChartLabels();
    IncomeRowDrawnAsExpense(ledger, m);
  }

  /** The whole page for one sheet and one month choice; any exception while loading lands in the handler. */
  function Page(sheet: Sheet, lib: Library, choice: Choice): (s: Screen)
    requires Rectangular(sheet)
    ensures s.LoadFailed? <==> Load(sheet, lib).Failure?
    ensures s.LoadFailed? ==> s.error == Load(sheet, lib).error
    ensures Load(sheet, lib).Success? ==> s == Render(Load(sheet, lib).value, choice)
  {
    match Load(sheet, lib)
    case Failure(e) => LoadFailed(e)
    case Success(ledger) => Render(ledger, choice)
  }

  /** With the default month choice the figures cover every loaded row. */
  lemma DefaultPageCoversAllRows(ledger: Ledger)
    requires forall m <- ledger.rows :: |m.cells| == |ledger.labels|
    ensures Render(ledger, Default).kpis == Totals(ledger.rows)
  {
    DefaultSelectionKeepsAll(ledger.rows);
  }
}
