/**
 * Loading and cleaning the transactions sheet: `load_data` in main.py.
 *
 * The sheet's column labels are normalised, the date column `fecha` is found by
 * name, the amount and movement-type columns by the first label containing
 * `importe` and `tipo`; rows whose date does not parse are dropped, and every
 * remaining row gets its month name, its amount (`monto`, 0 when the cell is not
 * a number) and its upper-cased movement type (`tipo`).
 */
module Ingest {
  import opened Wrappers
  import opened Strings

  type Month = m: int | 1 <= m <= 12 witness 1

  /** A parsed date; the time of day plays no part in the pipeline. */
  datatype Date = Date(year: int, month: Month, day: int)

  /** One spreadsheet cell as pandas reads it from the workbook. */
  datatype Cell =
    | Str(text: string)
    | Number(value: real)
    | Stamp(date: Date)
    | Blank

  /**
   * Library behaviour the loader relies on and that is not modelled here:
   * Python's Unicode `str.lower` / `str.upper`, NFKD decomposition,
   * `pd.to_datetime(dayfirst=True)` and `pd.to_numeric` on a text or date cell,
   * and `str()` of a number or a timestamp.
   */
  datatype Library = Library(
    lower: string -> string,
    upper: string -> string,
    nfkd: string -> string,
    parseDate: Cell -> Option<Date>,
    parseNumber: Cell -> Option<real>,
    render: Cell -> string)

  /** The sheet as read: a header row and rows of cells. */
  datatype Sheet = Sheet(labels: seq<string>, rows: seq<seq<Cell>>)

  /** A data frame has one cell per column in every row. */
  predicate Rectangular(sheet: Sheet) {
    forall row <- sheet.rows :: |row| == |sheet.labels|
  }

  /** A cleaned row: its original cells and the columns `load_data` adds. */
  datatype Movement = Movement(cells: seq<Cell>, fecha: Date, mesNombre: string, monto: real, tipo: string)

  /** The cleaned frame: normalised labels of the sheet's columns and the kept rows. */
  datatype Ledger = Ledger(labels: seq<string>, rows: seq<Movement>)

  /** The exceptions the page can raise, in `load_data` or at the pie; all land in the handler at main.py:111. */
  datatype Exception =
    | KeyError(column: string)          // df['fecha'] on a frame without that column
    | IndexError(key: string)          // [c for c in df.columns if key in c][0] on an empty list
    | AmbiguousColumn(column: string)   // df[name] is a frame, not a series, when the label repeats
    | AttributeError(name: string)     // an attribute the object does not have

  const DateLabel := "fecha"
  const AmountKey := "importe"
  const TypeKey := "tipo"
  const CategoryKey := "categor"
  const MonthColumn := "mes_nombre"
  const AmountColumn := "monto"
  const TypeColumn := "tipo"

  // ---------------------------------------------------------------- labels

  /** One header label after strip, lower, NFKD and dropping what is not ASCII. */
  function NormalizeLabel(name: string, lib: Library): (r: string)
    ensures IsAscii(r)
  {
    AsciiOnly(lib.nfkd(lib.lower(Strip(name))))
  }

  /** The header row after the clean-up of main.py:29, label by label. */
  function NormalizeLabels(labels: seq<string>, lib: Library): (r: seq<string>)
    ensures |r| == |labels|
    ensures forall i | 0 <= i < |r| :: r[i] == NormalizeLabel(labels[i], lib)
    ensures forall l <- r :: IsAscii(l)
  {
    seq(|labels|, i requires 0 <= i < |labels| => NormalizeLabel(labels[i], lib))
  }

  /**
   * main.py:29 as written: the chain ends in `.encode(...)` called on the
   * pandas Index itself rather than on its `.str` accessor, and an Index has no
   * `encode` attribute, so the line raises before any column is read.
   */
  function HeaderCleanupAsWritten(labels: seq<string>): (r: Result<seq<string>, Exception>)
    ensures r.Failure? && r.error.AttributeError?
  {
    Failure(AttributeError("encode"))
  }

  /** Whatever the headers, the line as written never yields the cleaned labels. */
  lemma HeaderCleanupAsWrittenNeverCleans(labels: seq<string>, lib: Library)
    ensures HeaderCleanupAsWritten(labels) != Success(NormalizeLabels(labels, lib))
    ensures HeaderCleanupAsWritten(labels) == HeaderCleanupAsWritten([])
  {
  }

  // ---------------------------------------------------------------- column resolution

  /** `df[name]` picks a single column only when exactly one column carries the label. */
  predicate UniqueLabel(labels: seq<string>, name: string) {
    forall i, j | 0 <= i < |labels| && 0 <= j < |labels| && labels[i] == name && labels[j] == name :: i == j
  }

  /** The index of the first label equal to `name`. */
  function IndexOf(labels: seq<string>, name: string): (i: nat)
    requires name in labels
    ensures i < |labels| && labels[i] == name
    ensures forall j | 0 <= j < i :: labels[j] != name
    decreases |labels|
  {
    if labels[0] == name then 0 else 1 + IndexOf(labels[1..], name)
  }

  /** `df[name]` as a single column: missing labels raise KeyError, repeated ones cannot be parsed as one column. */
  function Lookup(labels: seq<string>, name: string): (r: Result<nat, Exception>)
    ensures r.Success? <==> name in labels && UniqueLabel(labels, name)
    ensures r.Success? ==> r.value < |labels| && labels[r.value] == name
    ensures r.Failure? ==> r.error == (if name in labels then AmbiguousColumn(name) else KeyError(name))
  {
    if name !in labels then Failure(KeyError(name))
    else
      var i := IndexOf(labels, name);
      if name in labels[i + 1..] then Failure(AmbiguousColumn(name)) else Success(i)
  }

  /** The position of the leftmost label containing `key`, as `[c for c in cols if key in c][0]` picks it. */
  function FirstContaining(labels: seq<string>, key: string): (r: Option<nat>)
    ensures r.Some? ==> r.value < |labels| && Contains(labels[r.value], key)
    ensures r.Some? ==> forall j | 0 <= j < r.value :: !Contains(labels[j], key)
    ensures r.None? <==> forall j | 0 <= j < |labels| :: !Contains(labels[j], key)
    decreases |labels|
  {
    if labels == [] then None
    else if Contains(labels[0], key) then Some(0)
    else match FirstContaining(labels[1..], key)
      case None => None
      case Some(i) => Some(i + 1)
  }

  /** The column a substring role resolves to: IndexError when no label matches. */
  function Resolve(labels: seq<string>, key: string): (r: Result<nat, Exception>)
    ensures r == Failure(IndexError(key)) <==> forall j | 0 <= j < |labels| :: !Contains(labels[j], key)
    ensures r.Success? ==> r.value < |labels| && Contains(labels[r.value], key) && UniqueLabel(labels, labels[r.value])
    ensures r.Success? ==> forall j | 0 <= j < r.value :: !Contains(labels[j], key)
    ensures r.Failure? ==> r.error == IndexError(key) || r.error.AmbiguousColumn?
    ensures FirstContaining(labels, key).Some? ==>
      var i := FirstContaining(labels, key).value;
      r == (if UniqueLabel(labels, labels[i]) then Success(i) else Failure(AmbiguousColumn(labels[i])))
  {
    match FirstContaining(labels, key)
    case None => Failure(IndexError(key))
    case Some(i) =>
      match Lookup(labels, labels[i])
      case Failure(e) => Failure(e)
      case Success(j) =>
        assert labels[j] == labels[i];
        Success(j)
  }

  /** `df[c] = ...` on the column index: a new label goes at the end, an existing one stays where it is. */
  function WithColumn(columns: seq<string>, c: string): (r: seq<string>)
    ensures columns <= r && c in r
    ensures |r| == |columns| + (if c in columns then 0 else 1)
  {
    if c in columns then columns else columns + [c]
  }

  /** The frame's columns once `mes_nombre`, `monto` and `tipo` have been assigned. */
  function Columns(labels: seq<string>): (r: seq<string>)
    ensures labels <= r && |r| <= |labels| + 3
    ensures MonthColumn in r && AmountColumn in r && TypeColumn in r
  {
    WithColumn(WithColumn(WithColumn(labels, MonthColumn), AmountColumn), TypeColumn)
  }

  /** A column whose label does not contain `key` never changes which column `key` finds. */
  lemma {:induction false} FirstContainingAppend(columns: seq<string>, c: string, key: string)
    requires !Contains(c, key)
    ensures FirstContaining(columns + [c], key) == FirstContaining(columns, key)
    decreases |columns|
  {
    if columns != [] {
      assert (columns + [c])[1..] == columns[1..] + [c];
      FirstContainingAppend(columns[1..], c, key);
    }
  }

  lemma FirstContainingWithColumn(columns: seq<string>, c: string, key: string)
    requires !Contains(c, key)
    ensures FirstContaining(WithColumn(columns, c), key) == FirstContaining(columns, key)
  {
    if c !in columns {
      FirstContainingAppend(columns, c, key);
    }
  }

  /** Adding a column whose label does not contain `key` never changes what `key` resolves to. */
  lemma ResolveWithColumn(columns: seq<string>, c: string, key: string)
    requires !Contains(c, key)
    ensures Resolve(WithColumn(columns, c), key) == Resolve(columns, key)
  {
    FirstContainingWithColumn(columns, c, key);
    if c !in columns {
      var ext := columns + [c];
      match FirstContaining(columns, key)
      case None =>
      case Some(i) =>
        var l := columns[i];
        assert l != c;
        assert ext[i] == l;
        assert UniqueLabel(ext, l) <==> UniqueLabel(columns, l) by {
          assert forall j | 0 <= j < |ext| && ext[j] == l :: j < |columns| && columns[j] == l;
        }
    }
  }

  /** Resolving on the growing frame (main.py:41 and 45) finds what resolving on the sheet's labels finds. */
  lemma ResolveOnGrowingFrame(labels: seq<string>)
    ensures Resolve(WithColumn(labels, MonthColumn), AmountKey) == Resolve(labels, AmountKey)
    ensures Resolve(WithColumn(WithColumn(labels, MonthColumn), AmountColumn), TypeKey) == Resolve(labels, TypeKey)
  {
    NotContained(MonthColumn, AmountKey, 'i');
    NotContained(MonthColumn, TypeKey, 'i');
    NotContained(AmountColumn, TypeKey, 'i');
    ResolveWithColumn(labels, MonthColumn, AmountKey);
    ResolveWithColumn(labels, MonthColumn, TypeKey);
    ResolveWithColumn(WithColumn(labels, MonthColumn), AmountColumn, TypeKey);
  }

  /** Three added columns whose names lack `key` leave the leftmost match unchanged. */
  lemma FirstContainingThroughColumns(labels: seq<string>, a: string, b: string, c: string, key: string)
    requires !Contains(a, key) && !Contains(b, key) && !Contains(c, key)
    ensures FirstContaining(WithColumn(WithColumn(WithColumn(labels, a), b), c), key) == FirstContaining(labels, key)
  {
    var withA := WithColumn(labels, a);
    var withB := WithColumn(withA, b);
    FirstContainingWithColumn(labels, a, key);
    FirstContainingWithColumn(withA, b, key);
    FirstContainingWithColumn(withB, c, key);
  }

  /** The category column found on the finished frame (main.py:84) is the leftmost sheet name containing `categor`. */
  lemma CategoryColumnIsASheetColumn(labels: seq<string>)
    ensures FirstContaining(Columns(labels), CategoryKey) == FirstContaining(labels, CategoryKey)
  {
    AddedColumnsLackCategory();
    FirstContainingThroughColumns(labels, MonthColumn, AmountColumn, TypeColumn, CategoryKey);
  }

  /** None of the names main.py adds contains `categor`. */
  lemma AddedColumnsLackCategory()
    ensures !Contains(MonthColumn, CategoryKey) && !Contains(AmountColumn, CategoryKey) && !Contains(TypeColumn, CategoryKey)
  {
    NotContained(MonthColumn, CategoryKey, 'c');
    NotContained(AmountColumn, CategoryKey, 'c');
    NotContained(TypeColumn, CategoryKey, 'c');
  }

  /** Where the three roles the loader needs sit among the normalised labels. */
  datatype Roles = Roles(date: nat, amount: nat, kind: nat)

  /** The roles in the order main.py looks them up: `fecha` (line 33), `importe` (41), `tipo` (45). */
  function ResolveRoles(labels: seq<string>): (r: Result<Roles, Exception>)
    ensures r.Success? ==> r.value.date < |labels| && r.value.amount < |labels| && r.value.kind < |labels|
    ensures r.Success? ==> labels[r.value.date] == DateLabel && UniqueLabel(labels, DateLabel)
    ensures r.Success? ==> Resolve(labels, AmountKey) == Success(r.value.amount)
    ensures r.Success? ==> Resolve(labels, TypeKey) == Success(r.value.kind)
    ensures DateLabel !in labels ==> r == Failure(KeyError(DateLabel))
    ensures DateLabel in labels && !UniqueLabel(labels, DateLabel) ==> r == Failure(AmbiguousColumn(DateLabel))
    ensures Lookup(labels, DateLabel).Success? && Resolve(labels, AmountKey).Failure? ==>
      r == Failure(Resolve(labels, AmountKey).error)
    ensures Lookup(labels, DateLabel).Success? && Resolve(labels, AmountKey).Success? && Resolve(labels, TypeKey).Failure? ==>
      r == Failure(Resolve(labels, TypeKey).error)
    ensures r == Failure(IndexError(AmountKey)) <==>
      (DateLabel in labels && UniqueLabel(labels, DateLabel) && forall j | 0 <= j < |labels| :: !Contains(labels[j], AmountKey))
    ensures r.Success? <==>
      Lookup(labels, DateLabel).Success? && Resolve(labels, AmountKey).Success? && Resolve(labels, TypeKey).Success?
    ensures r == Failure(IndexError(TypeKey)) <==>
      && Lookup(labels, DateLabel).Success? && Resolve(labels, AmountKey).Success?
      && forall j | 0 <= j < |labels| :: !Contains(labels[j], TypeKey)
  {
    match Lookup(labels, DateLabel)
    case Failure(e) => Failure(e)
    case Success(d) =>
      match Resolve(labels, AmountKey)
      case Failure(e) => Failure(e)
      case Success(a) =>
        match Resolve(labels, TypeKey)
        case Failure(e) => Failure(e)
        case Success(k) => Success(Roles(d, a, k))
  }

  // ---------------------------------------------------------------- cells

  /** `pd.to_datetime(..., dayfirst=True, errors='coerce')` on one cell: None stands for NaT. */
  function ToDatetime(c: Cell, lib: Library): (r: Option<Date>)
    ensures c.Blank? ==> r.None?
    ensures c.Stamp? ==> r == Some(c.date)
  {
    match c
    case Stamp(d) => Some(d)
    case Blank => None
    case _ => lib.parseDate(c)
  }

  /** `pd.to_numeric(..., errors='coerce')` on one cell: None stands for NaN. */
  function ToNumeric(c: Cell, lib: Library): (r: Option<real>)
    ensures c.Blank? ==> r.None?
    ensures c.Number? ==> r == Some(c.value)
  {
    match c
    case Number(x) => Some(x)
    case Blank => None
    case _ => lib.parseNumber(c)
  }

  /** `.astype(str)` on one cell. */
  function AsStr(c: Cell, lib: Library): (r: string)
    ensures c.Blank? ==> r == "nan"
    ensures c.Str? ==> r == c.text
  {
    match c
    case Str(s) => s
    case Blank => "nan"
    case _ => lib.render(c)
  }

  /** `strftime('%B')` in the C locale: the month's name, with no year. */
  function MonthName(m: Month): (r: string)
    ensures 3 <= |r| && 'A' <= r[0] <= 'Z'
    ensures forall k | 0 <= k < |r| :: !('0' <= r[k] <= '9')
  {
    ["January", "February", "March", "April", "May", "June", "July",
     "August", "September", "October", "November", "December"][m - 1]
  }

  /** Different months never share a name, so the month key only merges equal months. */
  lemma MonthNameInjective(a: Month, b: Month)
    requires MonthName(a) == MonthName(b)
    ensures a == b
  {
  }

  // ---------------------------------------------------------------- rows

  predicate HasDate(row: seq<Cell>, date: nat, lib: Library) {
    date < |row| && ToDatetime(row[date], lib).Some?
  }

  /** `df.dropna(subset=['fecha'])` after coercion: the rows whose date parses, in their order. */
  function KeepDated(rows: seq<seq<Cell>>, date: nat, lib: Library): (kept: seq<seq<Cell>>)
    ensures |kept| <= |rows|
    ensures forall row :: row in kept <==> row in rows && HasDate(row, date, lib)
    ensures forall k | 0 <= k < |kept| :: kept[k] in rows && HasDate(kept[k], date, lib)
    decreases |rows|
  {
    if rows == [] then []
    else
      var last := rows[|rows| - 1];
      KeepDated(rows[..|rows| - 1], date, lib) + (if HasDate(last, date, lib) then [last] else [])
  }

  /** Dropping undated rows works row by row: it keeps the relative order of what survives. */
  lemma {:induction false} KeepDatedAppend(a: seq<seq<Cell>>, b: seq<seq<Cell>>, date: nat, lib: Library)
    ensures KeepDated(a + b, date, lib) == KeepDated(a, date, lib) + KeepDated(b, date, lib)
    decreases |b|
  {
    if b == [] {
      assert a + b == a;
    } else {
      var b' := b[..|b| - 1];
      assert (a + b)[..|a + b| - 1] == a + b';
      KeepDatedAppend(a, b', date, lib);
    }
  }

  /** A sheet whose dates all parse loses no row. */
  lemma {:induction false} KeepDatedAll(rows: seq<seq<Cell>>, date: nat, lib: Library)
    requires forall row <- rows :: HasDate(row, date, lib)
    ensures KeepDated(rows, date, lib) == rows
    decreases |rows|
  {
    if rows != [] {
      KeepDatedAll(rows[..|rows| - 1], date, lib);
    }
  }

  predicate FitsRoles(row: seq<Cell>, roles: Roles, lib: Library) {
    HasDate(row, roles.date, lib) && roles.amount < |row| && roles.kind < |row|
  }

  /** One kept row with the columns main.py:37, 42 and 46 add. */
  function MakeMovement(row: seq<Cell>, roles: Roles, lib: Library): (r: Movement)
    requires FitsRoles(row, roles, lib)
    ensures r.cells == row && ToDatetime(row[roles.date], lib) == Some(r.fecha)
    ensures r.mesNombre == MonthName(r.fecha.month)
    ensures r.monto == (if ToNumeric(row[roles.amount], lib).Some? then ToNumeric(row[roles.amount], lib).value else 0.0)
    ensures r.tipo == lib.upper(AsStr(row[roles.kind], lib))
  {
    var d := ToDatetime(row[roles.date], lib).value;
    Movement(row, d, MonthName(d.month), ToNumeric(row[roles.amount], lib).GetOr(0.0),
             lib.upper(AsStr(row[roles.kind], lib)))
  }

  function Movements(kept: seq<seq<Cell>>, roles: Roles, lib: Library): (r: seq<Movement>)
    requires forall row <- kept :: FitsRoles(row, roles, lib)
    ensures |r| == |kept|
    ensures forall k | 0 <= k < |r| :: r[k].cells == kept[k]
  {
    seq(|kept|, k requires 0 <= k < |kept| => MakeMovement(kept[k], roles, lib))
  }

  /** Every built row carries its date, month name, amount and type as main.py:37-46 derive them from its cells. */
  lemma MovementFields(kept: seq<seq<Cell>>, roles: Roles, lib: Library)
    requires forall row <- kept :: FitsRoles(row, roles, lib)
    ensures forall m <- Movements(kept, roles, lib) ::
      && roles.date < |m.cells| && roles.amount < |m.cells| && roles.kind < |m.cells|
      && ToDatetime(m.cells[roles.date], lib) == Some(m.fecha) && m.mesNombre == MonthName(m.fecha.month)
      && m.monto == (if ToNumeric(m.cells[roles.amount], lib).Some? then ToNumeric(m.cells[roles.amount], lib).value else 0.0)
      && m.tipo == lib.upper(AsStr(m.cells[roles.kind], lib))
  {
    var rows := Movements(kept, roles, lib);
    forall m <- rows
      ensures roles.date < |m.cells| && roles.amount < |m.cells| && roles.kind < |m.cells|
      ensures ToDatetime(m.cells[roles.date], lib) == Some(m.fecha) && m.mesNombre == MonthName(m.fecha.month)
      ensures m.monto == (if ToNumeric(m.cells[roles.amount], lib).Some? then ToNumeric(m.cells[roles.amount], lib).value else 0.0)
      ensures m.tipo == lib.upper(AsStr(m.cells[roles.kind], lib))
    {
      var k :| 0 <= k < |rows| && rows[k] == m;
      assert kept[k] in kept;
      assert FitsRoles(kept[k], roles, lib);
      assert m == MakeMovement(kept[k], roles, lib);
    }
  }

  /** Every row that survives the date coercion has the columns the resolved roles point at. */
  lemma KeptRowsFitRoles(sheet: Sheet, lib: Library, roles: Roles)
    requires Rectangular(sheet)
    requires ResolveRoles(NormalizeLabels(sheet.labels, lib)) == Success(roles)
    ensures forall row <- KeepDated(sheet.rows, roles.date, lib) :: FitsRoles(row, roles, lib)
  {
  }

  /** What `load_data` returns for a sheet, or the exception that stops it. */
  function Load(sheet: Sheet, lib: Library): (r: Result<Ledger, Exception>)
    requires Rectangular(sheet)
    ensures r.Success? ==> |r.value.labels| == |sheet.labels|
    ensures r.Success? ==> forall m <- r.value.rows :: |m.cells| == |r.value.labels|
    ensures r.Failure? <==> ResolveRoles(NormalizeLabels(sheet.labels, lib)).Failure?
    ensures r.Failure? ==> r.error == ResolveRoles(NormalizeLabels(sheet.labels, lib)).error
  {
    var labels := NormalizeLabels(sheet.labels, lib);
    match ResolveRoles(labels)
    case Failure(e) => Failure(e)
    case Success(roles) =>
      var kept := KeepDated(sheet.rows, roles.date, lib);
      KeptRowsFitRoles(sheet, lib, roles);
      Success(Ledger(labels, Movements(kept, roles, lib)))
  }

  /** main.py:29 (with `.str.encode`/`.str.decode`): clean every header label in turn. */
  method NormalizeHeader(labels: seq<string>, lib: Library) returns (columns: seq<string>)
    ensures columns == NormalizeLabels(labels, lib)
  {
    columns := [];
    var i := 0;
    while i < |labels|
      invariant 0 <= i <= |labels|
      invariant |columns| == i
      invariant forall j | 0 <= j < i :: columns[j] == NormalizeLabel(labels[j], lib)
    {
      columns := columns + [NormalizeLabel(labels[i], lib)];
      i := i + 1;
    }
    assert forall j | 0 <= j < |labels| :: columns[j] == NormalizeLabels(labels, lib)[j];
  }

  /** main.py:33-34: coerce the date column and drop the rows where that gave NaT. */
  method DropUndated(rows: seq<seq<Cell>>, date: nat, lib: Library) returns (kept: seq<seq<Cell>>)
    ensures kept == KeepDated(rows, date, lib)
  {
    kept := [];
    var i := 0;
    while i < |rows|
      invariant 0 <= i <= |rows|
      invariant kept == KeepDated(rows[..i], date, lib)
    {
      assert rows[..i + 1][..i] == rows[..i];
      if HasDate(rows[i], date, lib) {
        kept := kept + [rows[i]];
      }
      i := i + 1;
    }
    assert rows[..i] == rows;
  }

  /** main.py:37, 42 and 46: fill in `mes_nombre`, `monto` and `tipo` for every kept row. */
  method AddColumns(kept: seq<seq<Cell>>, roles: Roles, lib: Library) returns (rows: seq<Movement>)
    requires forall row <- kept :: FitsRoles(row, roles, lib)
    ensures rows == Movements(kept, roles, lib)
  {
    rows := [];
    var i := 0;
    while i < |kept|
      invariant 0 <= i <= |kept|
      invariant |rows| == i
      invariant forall j | 0 <= j < i :: rows[j] == MakeMovement(kept[j], roles, lib)
    {
      rows := rows + [MakeMovement(kept[i], roles, lib)];
      i := i + 1;
    }
  }

  /**
   * `load_data` step by step: clean the header, coerce `fecha` and drop the rows
   * where it failed, then resolve the amount and type columns on the growing
   * frame and fill in the derived columns.
   */
  method LoadData(sheet: Sheet, lib: Library) returns (r: Result<Ledger, Exception>)
    requires Rectangular(sheet)
    ensures r == Load(sheet, lib)
  {
    var labels := NormalizeHeader(sheet.labels, lib);
    var columns := labels;
    var date := Lookup(columns, DateLabel);
    if date.Failure? {
      return Failure(date.error);
    }
    var kept := DropUndated(sheet.rows, date.value, lib);
    ResolveOnGrowingFrame(labels);
    columns := WithColumn(columns, MonthColumn);
    var amount := Resolve(columns, AmountKey);
    if amount.Failure? {
      return Failure(amount.error);
    }
    columns := WithColumn(columns, AmountColumn);
    var kind := Resolve(columns, TypeKey);
    if kind.Failure? {
      return Failure(kind.error);
    }
    columns := WithColumn(columns, TypeColumn);
    var roles := Roles(date.value, amount.value, kind.value);
    assert ResolveRoles(labels) == Success(roles);
    KeptRowsFitRoles(sheet, lib, roles);
    var rows := AddColumns(kept, roles, lib);
    r := Success(Ledger(labels, rows));
  }

  /** The ledger a load yields once the three roles resolve. */
  lemma LoadResolved(sheet: Sheet, lib: Library, roles: Roles)
    requires Rectangular(sheet)
    requires ResolveRoles(NormalizeLabels(sheet.labels, lib)) == Success(roles)
    ensures forall row <- KeepDated(sheet.rows, roles.date, lib) :: FitsRoles(row, roles, lib)
    ensures Load(sheet, lib) ==
      Success(Ledger(NormalizeLabels(sheet.labels, lib), Movements(KeepDated(sheet.rows, roles.date, lib), roles, lib)))
  {
    KeptRowsFitRoles(sheet, lib, roles);
  }

  /**
   * The loaded rows are exactly the sheet rows whose date parses, in sheet order,
   * each with its parsed date and that date's month name.
   */
  lemma LoadedRowsAreTheDatedRows(sheet: Sheet, lib: Library, roles: Roles)
    requires Rectangular(sheet)
    requires ResolveRoles(NormalizeLabels(sheet.labels, lib)) == Success(roles)
    ensures Load(sheet, lib).Success?
    ensures |Load(sheet, lib).value.rows| == |KeepDated(sheet.rows, roles.date, lib)|
    ensures forall k | 0 <= k < |Load(sheet, lib).value.rows| ::
      Load(sheet, lib).value.rows[k].cells == KeepDated(sheet.rows, roles.date, lib)[k]
    ensures forall m <- Load(sheet, lib).value.rows :: m.cells in sheet.rows && roles.date < |m.cells|
    ensures forall m <- Load(sheet, lib).value.rows ::
      ToDatetime(m.cells[roles.date], lib) == Some(m.fecha) && m.mesNombre == MonthName(m.fecha.month)
  {
    LoadResolved(sheet, lib, roles);
    var kept := KeepDated(sheet.rows, roles.date, lib);
    MovementFields(kept, roles, lib);
    forall m <- Load(sheet, lib).value.rows ensures m.cells in sheet.rows {
      assert m.cells in kept;
    }
  }

  /** Each loaded row's `monto` is its parsed amount, or 0 when the cell is not a number; `tipo` is the cell upper-cased. */
  lemma LoadedAmountsAndTypes(sheet: Sheet, lib: Library, roles: Roles)
    requires Rectangular(sheet)
    requires ResolveRoles(NormalizeLabels(sheet.labels, lib)) == Success(roles)
    ensures Load(sheet, lib).Success?
    ensures forall m <- Load(sheet, lib).value.rows :: roles.amount < |m.cells| && roles.kind < |m.cells|
    ensures forall m <- Load(sheet, lib).value.rows ::
      m.monto == (if ToNumeric(m.cells[roles.amount], lib).Some? then ToNumeric(m.cells[roles.amount], lib).value else 0.0)
    ensures forall m <- Load(sheet, lib).value.rows :: m.tipo == lib.upper(AsStr(m.cells[roles.kind], lib))
  {
    LoadResolved(sheet, lib, roles);
    MovementFields(KeepDated(sheet.rows, roles.date, lib), roles, lib);
  }

  /** Every sheet row whose date parses survives the load, whatever its amount cell holds. */
  lemma DatedRowSurvives(sheet: Sheet, lib: Library, roles: Roles, row: seq<Cell>)
    requires Rectangular(sheet)
    requires ResolveRoles(NormalizeLabels(sheet.labels, lib)) == Success(roles)
    requires row in sheet.rows && HasDate(row, roles.date, lib)
    ensures Load(sheet, lib).Success?
    ensures exists k | 0 <= k < |Load(sheet, lib).value.rows| :: Load(sheet, lib).value.rows[k].cells == row
  {
    LoadResolved(sheet, lib, roles);
    var kept := KeepDated(sheet.rows, roles.date, lib);
    assert row in kept;
    var k :| 0 <= k < |kept| && kept[k] == row;
    assert Load(sheet, lib).value.rows[k].cells == row;
  }

  /** A sheet whose header has no name containing `importe` fails with IndexError, as main.py:41 does. */
  lemma MissingAmountColumnFails(sheet: Sheet, lib: Library)
    requires Rectangular(sheet)
    requires var labels := NormalizeLabels(sheet.labels, lib);
      DateLabel in labels && UniqueLabel(labels, DateLabel) &&
      forall j | 0 <= j < |labels| :: !Contains(labels[j], AmountKey)
    ensures Load(sheet, lib) == Failure(IndexError(AmountKey))
  {
  }
}
