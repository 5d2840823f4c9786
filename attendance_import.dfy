/**
 * Reading an attendance sheet (`procesarArchivo`): from the decoded grid of
 * cells to a month label, the number of day columns and one `Empleado` per
 * data row. The three loops of the screen are methods here, each proved
 * against the function that says what it computes.
 */
module AttendanceImport {

  import opened Wrappers
  import opened Text
  import opened Cells
  import opened Seqs
  import opened AttendanceRecords

  const NO_MONTH: string := "SIN MES"
  const HEADER_LABEL: string := "Codigo"
  const DAY_PREFIX: string := "Dia"
  const NOT_WORKING: string := "NL"
  const FORMAT_ERROR: string := "Formato de archivo incorrecto"
  /** How many leading rows may hold the month title. */
  const MONTH_ROWS: nat := 5
  /** Columns 0..5 hold code, name, DNI, position, monthly and daily salary; day 1 follows. */
  const FIRST_DAY_COLUMN: nat := 6

  /** The import counts only `PU` as on time (the edit also counts `AS`). */
  const IMPORT_PUNTUAL: set<string> := {"PU"}

  // ---------------------------------------------------------------------
  // Month label
  // ---------------------------------------------------------------------

  /** The row, joined without separator, contains `MES DE` (a case-sensitive test). */
  predicate HasMonthMarker(row: seq<Cell>) {
    Contains(Join(row, ""), MARKER)
  }

  /** Everything through the last `MES DE` (any case) removed, then all digits, then trimmed. */
  function CleanMonth(text: string): string {
    Trim(RemoveDigits(StripThroughMarker(text)))
  }

  /** The first of rows `i`..4 that carries the marker, if any. */
  function MarkedRowFrom(grid: seq<seq<Cell>>, i: nat): (r: Option<nat>)
    ensures r.Some? ==> i <= r.value < MONTH_ROWS && r.value < |grid| && HasMonthMarker(grid[r.value])
    ensures r.Some? ==> forall j :: i <= j < r.value ==> !HasMonthMarker(grid[j])
    ensures r.None? ==> forall j :: i <= j < MONTH_ROWS && j < |grid| ==> !HasMonthMarker(grid[j])
    decreases MONTH_ROWS - i
  {
    if i >= MONTH_ROWS || i >= |grid| then None
    else if HasMonthMarker(grid[i]) then Some(i)
    else MarkedRowFrom(grid, i + 1)
  }

  /** The month label of a sheet: from the first marked row among the first five, else `SIN MES`. */
  function MonthOf(grid: seq<seq<Cell>>): string {
    match MarkedRowFrom(grid, 0)
    case None => NO_MONTH
    case Some(k) => CleanMonth(Join(grid[k], " "))
  }

  /** The scan of the first rows for the month title. */
  method ExtractMonth(grid: seq<seq<Cell>>) returns (mes: string)
    ensures mes == MonthOf(grid)
  {
    mes := NO_MONTH;
    var i := 0;
    while i < MONTH_ROWS
      invariant 0 <= i <= MONTH_ROWS
      invariant MarkedRowFrom(grid, i) == MarkedRowFrom(grid, 0)
      invariant mes == NO_MONTH
    {
      if i < |grid| && HasMonthMarker(grid[i]) {
        mes := CleanMonth(Join(grid[i], " "));
        return;
      }
      i := i + 1;
    }
  }

  /** When none of the first five rows carries the marker, the label is `SIN MES`. */
  lemma MonthWithoutMarker(grid: seq<seq<Cell>>)
    requires forall j :: 0 <= j < MONTH_ROWS && j < |grid| ==> !HasMonthMarker(grid[j])
    ensures MonthOf(grid) == NO_MONTH
  {
  }

  /** Otherwise the label comes from the first marked row among the first five, joined with spaces. */
  lemma MonthFromFirstMarkedRow(grid: seq<seq<Cell>>, k: nat)
    requires k < MONTH_ROWS && k < |grid| && HasMonthMarker(grid[k])
    requires forall j :: 0 <= j < k ==> !HasMonthMarker(grid[j])
    ensures MonthOf(grid) == CleanMonth(Join(grid[k], " "))
  {
    MarkedRowFromFirst(grid, 0, k);
  }

  lemma {:induction false} MarkedRowFromFirst(grid: seq<seq<Cell>>, i: nat, k: nat)
    requires i <= k < MONTH_ROWS && k < |grid| && HasMonthMarker(grid[k])
    requires forall j :: i <= j < k ==> !HasMonthMarker(grid[j])
    ensures MarkedRowFrom(grid, i) == Some(k)
    decreases k - i
  {
    if i < k {
      MarkedRowFromFirst(grid, i + 1, k);
    }
  }

  /** A label with no digit that neither starts nor ends with whitespace. */
  predicate CleanLabel(m: string) {
    && (forall j :: 0 <= j < |m| ==> !IsDigit(m[j]))
    && (m != [] ==> !IsWhitespace(m[0]) && !IsWhitespace(m[|m| - 1]))
  }

  /** Cleaning a month text always gives a clean label. */
  lemma CleanMonthClean(text: string)
    ensures CleanLabel(CleanMonth(text))
  {
    TrimKeepsDigitFree(RemoveDigits(StripThroughMarker(text)));
  }

  /** Every month label is clean, `SIN MES` included. */
  lemma MonthLabelClean(grid: seq<seq<Cell>>)
    ensures CleanLabel(MonthOf(grid))
  {
    var r := MarkedRowFrom(grid, 0);
    if r.Some? {
      CleanMonthClean(Join(grid[r.value], " "));
    } else {
      assert MonthOf(grid) == NO_MONTH;
    }
  }

  // ---------------------------------------------------------------------
  // Header row and day columns
  // ---------------------------------------------------------------------

  /** A row whose first cell is exactly the text `Codigo`. */
  predicate IsHeaderRow(row: seq<Cell>) {
    |row| > 0 && row[0] == Str(HEADER_LABEL)
  }

  function FindHeaderFrom(grid: seq<seq<Cell>>, i: nat): (r: Option<nat>)
    ensures r.Some? ==> i <= r.value < |grid| && IsHeaderRow(grid[r.value])
    ensures r.Some? ==> forall j :: i <= j < r.value ==> !IsHeaderRow(grid[j])
    ensures r.None? ==> forall j :: i <= j < |grid| ==> !IsHeaderRow(grid[j])
    decreases |grid| - i
  {
    if i >= |grid| then None
    else if IsHeaderRow(grid[i]) then Some(i)
    else FindHeaderFrom(grid, i + 1)
  }

  /** `findIndex(row => row[0] === 'Codigo')`: the first header row, if any. */
  function FindHeader(grid: seq<seq<Cell>>): Option<nat> {
    FindHeaderFrom(grid, 0)
  }

  predicate IsDayHeaderCell(c: Cell) {
    c.Str? && StartsWith(c.s, DAY_PREFIX)
  }

  /** The number of header cells that are texts starting with `Dia`. */
  function DayColumnCount(header: seq<Cell>): nat {
    |Filter(header, IsDayHeaderCell)|
  }

  /** At most one day per header cell: none without a `Dia…` cell, one per cell when all are. */
  lemma DayColumnCountBounds(header: seq<Cell>)
    ensures DayColumnCount(header) <= |header|
    ensures (forall c :: c in header ==> !IsDayHeaderCell(c)) ==> DayColumnCount(header) == 0
    ensures (forall c :: c in header ==> IsDayHeaderCell(c)) ==> DayColumnCount(header) == |header|
  {
    if forall c :: c in header ==> !IsDayHeaderCell(c) {
      FilterNone(header, IsDayHeaderCell);
    }
    if forall c :: c in header ==> IsDayHeaderCell(c) {
      FilterKeepsAll(header, IsDayHeaderCell);
    }
  }

  // ---------------------------------------------------------------------
  // One data row
  // ---------------------------------------------------------------------

  /** `row[6 + d - 1]?.toString() || 'NL'`: the code of day `d`. */
  function DayCode(row: seq<Cell>, d: nat): string
    requires d >= 1
  {
    TextOr(CellAt(row, FIRST_DAY_COLUMN + d - 1), NOT_WORKING)
  }

  /** Days 1..n of a row. */
  function DaysOf(row: seq<Cell>, n: nat): map<nat, string> {
    map d | 1 <= d <= n :: DayCode(row, d)
  }

  /** The record the import builds from one data row. */
  function ImportRecord(row: seq<Cell>, n: nat, penalty: int, file: string, mes: string): (e: Empleado)
    ensures e.dias == DaysOf(row, n)
    ensures e.puntuales == CountIn(e.dias, IMPORT_PUNTUAL)
    ensures e.tardanzas == CountIn(e.dias, TARDANZA) && e.faltas == CountIn(e.dias, FALTA)
    ensures e.nombre == TextOr(CellAt(row, 1), "") && e.dni == TextOr(CellAt(row, 2), "")
    ensures e.cargo == TextOr(CellAt(row, 3), "")
    ensures e.sueldoMensual == NumberOr0(CellAt(row, 4)) && e.sueldoDiario == NumberOr0(CellAt(row, 5))
    ensures e.descuentos == e.tardanzas * penalty + e.faltas * e.sueldoDiario
    ensures e.sueldoFinal == e.sueldoMensual - e.descuentos
    ensures e.diasExtras == 0 && e.archivoOrigen == file && e.mes == mes
    ensures Truthy(CellAt(row, 0)) ==> e.codigo == CellText(CellAt(row, 0)) != ""
  {
    var dias := DaysOf(row, n);
    var mensual := NumberOr0(CellAt(row, 4));
    var diario := NumberOr0(CellAt(row, 5));
    var tardanzas := CountIn(dias, TARDANZA);
    var faltas := CountIn(dias, FALTA);
    var descuentos := tardanzas * penalty + faltas * diario;
    Empleado(
      codigo := TextOr(CellAt(row, 0), ""),
      nombre := TextOr(CellAt(row, 1), ""),
      dni := TextOr(CellAt(row, 2), ""),
      cargo := TextOr(CellAt(row, 3), ""),
      sueldoMensual := mensual,
      sueldoDiario := diario,
      dias := dias,
      puntuales := CountIn(dias, IMPORT_PUNTUAL),
      tardanzas := tardanzas,
      faltas := faltas,
      descuentos := descuentos,
      diasExtras := 0,
      sueldoFinal := mensual - descuentos,
      archivoOrigen := file,
      mes := mes)
  }

  lemma DaysOfStep(row: seq<Cell>, d: nat)
    requires d >= 1
    ensures d !in DaysOf(row, d - 1)
    ensures DaysOf(row, d - 1)[d := DayCode(row, d)] == DaysOf(row, d)
  {
  }

  /** The per-day loop: builds the day map and tallies `PU`, `TA` and `FA` as it goes. */
  method ParseRow(row: seq<Cell>, n: nat, penalty: int, file: string, mes: string) returns (e: Empleado)
    ensures e == ImportRecord(row, n, penalty, file, mes)
  {
    var dias: map<nat, string> := map[];
    var puntuales, tardanzas, faltas := 0, 0, 0;
    var d := 1;
    while d <= n
      invariant 1 <= d <= n + 1
      invariant dias == DaysOf(row, d - 1)
      invariant puntuales == CountIn(dias, IMPORT_PUNTUAL)
      invariant tardanzas == CountIn(dias, TARDANZA)
      invariant faltas == CountIn(dias, FALTA)
    {
      var estado := TextOr(CellAt(row, FIRST_DAY_COLUMN + d - 1), NOT_WORKING);
      DaysOfStep(row, d);
      CountAfterSet(dias, d, estado, IMPORT_PUNTUAL);
      CountAfterSet(dias, d, estado, TARDANZA);
      CountAfterSet(dias, d, estado, FALTA);
      dias := dias[d := estado];
      if estado == "PU" { puntuales := puntuales + 1; }
      if estado == "TA" { tardanzas := tardanzas + 1; }
      if estado == "FA" { faltas := faltas + 1; }
      d := d + 1;
    }
    var sueldoDiario := NumberOr0(CellAt(row, 5));
    var descuentos := tardanzas * penalty + faltas * sueldoDiario;
    var sueldoFinal := NumberOr0(CellAt(row, 4)) - descuentos;
    e := Empleado(
      codigo := TextOr(CellAt(row, 0), ""),
      nombre := TextOr(CellAt(row, 1), ""),
      dni := TextOr(CellAt(row, 2), ""),
      cargo := TextOr(CellAt(row, 3), ""),
      sueldoMensual := NumberOr0(CellAt(row, 4)),
      sueldoDiario := sueldoDiario,
      dias := dias,
      puntuales := puntuales,
      tardanzas := tardanzas,
      faltas := faltas,
      descuentos := descuentos,
      diasExtras := 0,
      sueldoFinal := sueldoFinal,
      archivoOrigen := file,
      mes := mes);
  }

  /** An imported record has exactly the days 1..n, each the cell's code or `NL` when the cell is absent or blank. */
  lemma ImportRecordDays(row: seq<Cell>, n: nat, penalty: int, file: string, mes: string)
    ensures var e := ImportRecord(row, n, penalty, file, mes);
      && (forall d :: d in e.dias <==> 1 <= d <= n)
      && (forall d :: 1 <= d <= n && d + 5 >= |row| ==> e.dias[d] == NOT_WORKING)
      && (forall d :: 1 <= d <= n && d + 5 < |row| && CellText(row[d + 5]) == "" ==> e.dias[d] == NOT_WORKING)
      && (forall d :: 1 <= d <= n && d + 5 < |row| && CellText(row[d + 5]) != "" ==> e.dias[d] == CellText(row[d + 5]))
      && e.archivoOrigen == file && e.mes == mes
  {
  }

  /** Counting `AS` with `PU` changes the count exactly when some day is `AS`. */
  lemma PuntualSameIff(dias: map<nat, string>)
    ensures CountIn(dias, PUNTUAL) == CountIn(dias, IMPORT_PUNTUAL) <==> forall d :: d in dias ==> dias[d] != "AS"
  {
    var pu := DaysWith(dias, IMPORT_PUNTUAL);
    var pa := DaysWith(dias, PUNTUAL);
    assert pa == pu + (pa - pu);
    assert |pa| == |pu| + |pa - pu|;
    if exists d :: d in dias && dias[d] == "AS" {
      var d :| d in dias && dias[d] == "AS";
      assert d in pa - pu;
    } else {
      assert pa - pu == {};
    }
  }

  /** No day is counted as extra exactly when no day is `DE`. */
  lemma NoExtraIff(dias: map<nat, string>)
    ensures CountIn(dias, EXTRA) == 0 <==> forall d :: d in dias ==> dias[d] != "DE"
  {
    var de := DaysWith(dias, EXTRA);
    if exists d :: d in dias && dias[d] == "DE" {
      var d :| d in dias && dias[d] == "DE";
      assert d in de;
    } else {
      assert de == {};
    }
  }

  /**
   * What the import establishes about the counters: they are the recount by the
   * edit's categories exactly when no day is `AS` or `DE`.
   */
  lemma ImportRecountedIff(row: seq<Cell>, n: nat, penalty: int, file: string, mes: string)
    ensures var e := ImportRecord(row, n, penalty, file, mes);
      Recounted(e) <==> forall d :: d in e.dias ==> e.dias[d] != "AS" && e.dias[d] != "DE"
  {
    var e := ImportRecord(row, n, penalty, file, mes);
    PuntualSameIff(e.dias);
    NoExtraIff(e.dias);
  }

  /** At import the extra-day term is zero, so the import's pay agrees with the edit's formula. */
  lemma ImportPaidByEditRule(row: seq<Cell>, n: nat, penalty: int, file: string, mes: string)
    ensures PaidByEditRule(ImportRecord(row, n, penalty, file, mes), penalty)
  {
  }

  /**
   * A row imported with an `AS` day is not recounted, and editing that day to
   * `NL` drives `Puntuales` to -1.
   */
  lemma AsDayEditGoesNegative()
    ensures var row := [Str("E01"), Str("Ana"), Str("123"), Str("Op"), Num(1000), Num(50), Str("AS")];
      var e := ImportRecord(row, 1, 5, "enero.xlsx", "ENERO");
      && e.puntuales == 0
      && !Recounted(e)
      && ChangeDay(e, 1, NOT_WORKING, 5).puntuales == -1
  {
    var row := [Str("E01"), Str("Ana"), Str("123"), Str("Op"), Num(1000), Num(50), Str("AS")];
    var e := ImportRecord(row, 1, 5, "enero.xlsx", "ENERO");
    assert DayCode(row, 1) == "AS";
    assert e.dias == map[1 := "AS"];
    assert DaysWith(e.dias, IMPORT_PUNTUAL) == {};
    assert DaysWith(e.dias, PUNTUAL) == {1};
  }

  /**
   * A row imported with a `DE` day: editing that day to `NL` sets `DiasExtras`
   * to -1 and takes one daily wage off the final pay, although no day is left
   * that deducts anything.
   */
  lemma DeDayEditCutsPay()
    ensures var row := [Str("E01"), Str("Ana"), Str("123"), Str("Op"), Num(1000), Num(50), Str("DE")];
      var r := ChangeDay(ImportRecord(row, 1, 5, "enero.xlsx", "ENERO"), 1, NOT_WORKING, 5);
      && r.diasExtras == -1
      && CountIn(r.dias, TARDANZA) == 0 && CountIn(r.dias, FALTA) == 0 && CountIn(r.dias, EXTRA) == 0
      && r.sueldoFinal == 950
  {
    var row := [Str("E01"), Str("Ana"), Str("123"), Str("Op"), Num(1000), Num(50), Str("DE")];
    var e := ImportRecord(row, 1, 5, "enero.xlsx", "ENERO");
    assert DayCode(row, 1) == "DE";
    assert e.dias == map[1 := "DE"];
    assert DaysWith(e.dias, TARDANZA) == {};
    assert DaysWith(e.dias, FALTA) == {};
    var r := ChangeDay(e, 1, NOT_WORKING, 5);
    assert r.dias == map[1 := NOT_WORKING];
    assert DaysWith(r.dias, TARDANZA) == {};
    assert DaysWith(r.dias, FALTA) == {};
    assert DaysWith(r.dias, EXTRA) == {};
  }

  // ---------------------------------------------------------------------
  // Data rows
  // ---------------------------------------------------------------------

  /** `row && row[0]`: a row that is still data. */
  predicate StartsData(row: seq<Cell>) {
    |row| > 0 && Truthy(row[0])
  }

  /** The rows from `i` up to, not including, the first one whose first cell is empty. */
  function DataRows(grid: seq<seq<Cell>>, i: nat): (r: seq<seq<Cell>>)
    requires i <= |grid|
    ensures i + |r| <= |grid| && r == grid[i..i + |r|]
    ensures forall k :: 0 <= k < |r| ==> StartsData(r[k])
    ensures i + |r| < |grid| ==> !StartsData(grid[i + |r|])
    decreases |grid| - i
  {
    if i == |grid| || !StartsData(grid[i]) then []
    else [grid[i]] + DataRows(grid, i + 1)
  }

  /** The records of the given rows, one per row, in order. */
  function RecordsOf(rows: seq<seq<Cell>>, n: nat, penalty: int, file: string, mes: string): seq<Empleado> {
    seq(|rows|, k requires 0 <= k < |rows| => ImportRecord(rows[k], n, penalty, file, mes))
  }

  lemma RecordsOfAppend(rows: seq<seq<Cell>>, row: seq<Cell>, n: nat, penalty: int, file: string, mes: string)
    ensures RecordsOf(rows + [row], n, penalty, file, mes)
         == RecordsOf(rows, n, penalty, file, mes) + [ImportRecord(row, n, penalty, file, mes)]
  {
    var a := RecordsOf(rows + [row], n, penalty, file, mes);
    var b := RecordsOf(rows, n, penalty, file, mes) + [ImportRecord(row, n, penalty, file, mes)];
    assert |a| == |b|;
    forall k | 0 <= k < |a|
      ensures a[k] == b[k]
    {
      if k < |rows| {
        assert (rows + [row])[k] == rows[k];
      }
    }
  }

  /** One more row read adds its record at the end. */
  lemma RecordsOfStep(grid: seq<seq<Cell>>, start: nat, i: nat, n: nat, penalty: int, file: string, mes: string)
    requires start <= i < |grid|
    ensures RecordsOf(grid[start..i + 1], n, penalty, file, mes)
         == RecordsOf(grid[start..i], n, penalty, file, mes) + [ImportRecord(grid[i], n, penalty, file, mes)]
  {
    assert grid[start..i + 1] == grid[start..i] + [grid[i]];
    RecordsOfAppend(grid[start..i], grid[i], n, penalty, file, mes);
  }

  /** One record per data row below the header, in order. */
  function ImportedRows(grid: seq<seq<Cell>>, start: nat, n: nat, penalty: int, file: string, mes: string)
    : seq<Empleado>
    requires start <= |grid|
  {
    RecordsOf(DataRows(grid, start), n, penalty, file, mes)
  }

  /** The data-row loop, which stops at the first row with an empty first cell. */
  method ParseRows(grid: seq<seq<Cell>>, start: nat, n: nat, penalty: int, file: string, mes: string)
    returns (emps: seq<Empleado>)
    requires start <= |grid|
    ensures emps == ImportedRows(grid, start, n, penalty, file, mes)
  {
    emps := [];
    var i := start;
    while i < |grid| && StartsData(grid[i])
      invariant start <= i <= |grid|
      invariant forall j :: start <= j < i ==> StartsData(grid[j])
      invariant emps == RecordsOf(grid[start..i], n, penalty, file, mes)
    {
      var e := ParseRow(grid[i], n, penalty, file, mes);
      RecordsOfStep(grid, start, i, n, penalty, file, mes);
      emps := emps + [e];
      i := i + 1;
    }
    DataRowsEnd(grid, start, i);
  }

  /** The data rows from `start` end exactly at the first row that is not data. */
  lemma DataRowsEnd(grid: seq<seq<Cell>>, start: nat, i: nat)
    requires start <= i <= |grid|
    requires forall j :: start <= j < i ==> StartsData(grid[j])
    requires i < |grid| ==> !StartsData(grid[i])
    ensures DataRows(grid, start) == grid[start..i]
  {
    var r := DataRows(grid, start);
    assert |r| == i - start;
  }

  /** Every record comes from the row at the same distance below the header and carries the file name and month. */
  lemma ImportedRowsShape(grid: seq<seq<Cell>>, start: nat, n: nat, penalty: int, file: string, mes: string)
    requires start <= |grid|
    ensures var emps := ImportedRows(grid, start, n, penalty, file, mes);
      && start + |emps| <= |grid|
      && (start + |emps| < |grid| ==> !StartsData(grid[start + |emps|]))
      && (forall k :: 0 <= k < |emps| ==>
            StartsData(grid[start + k]) && emps[k] == ImportRecord(grid[start + k], n, penalty, file, mes)
            && emps[k].archivoOrigen == file && emps[k].mes == mes)
  {
  }

  // ---------------------------------------------------------------------
  // The whole sheet
  // ---------------------------------------------------------------------

  datatype Sheet = Sheet(mes: string, dayCount: nat, empleados: seq<Empleado>)

  /** The outcome of reading a sheet: its month, day count and records, or the format error. */
  function SheetOf(grid: seq<seq<Cell>>, file: string, penalty: int): Result<Sheet> {
    match FindHeader(grid)
    case None => Err(FORMAT_ERROR)
    case Some(h) =>
      var n := DayColumnCount(grid[h]);
      var mes := MonthOf(grid);
      Ok(Sheet(mes, n, ImportedRows(grid, h + 1, n, penalty, file, mes)))
  }

  /** `procesarArchivo` without its effects on the screen's state. */
  method ParseSheet(grid: seq<seq<Cell>>, file: string, penalty: int) returns (r: Result<Sheet>)
    ensures r == SheetOf(grid, file, penalty)
  {
    var mes := ExtractMonth(grid);
    var header := FindHeader(grid);
    if header.None? {
      return Err(FORMAT_ERROR);
    }
    var h := header.value;
    var n := DayColumnCount(grid[h]);
    var emps := ParseRows(grid, h + 1, n, penalty, file, mes);
    r := Ok(Sheet(mes, n, emps));
  }

  /** A sheet fails with the format error exactly when no row starts with `Codigo`. */
  lemma SheetRejectedIffNoHeader(grid: seq<seq<Cell>>, file: string, penalty: int)
    ensures SheetOf(grid, file, penalty).Err? <==> forall i :: 0 <= i < |grid| ==> !IsHeaderRow(grid[i])
    ensures SheetOf(grid, file, penalty).Err? ==> SheetOf(grid, file, penalty).message == FORMAT_ERROR
  {
  }

  /** The rows read start right below the first header row, and the day count is that of its `Dia` cells. */
  lemma SheetFromFirstHeader(grid: seq<seq<Cell>>, file: string, penalty: int, h: nat)
    requires h < |grid| && IsHeaderRow(grid[h])
    requires forall j :: 0 <= j < h ==> !IsHeaderRow(grid[j])
    ensures var r := SheetOf(grid, file, penalty);
      && r.Ok?
      && r.value.dayCount == |Filter(grid[h], IsDayHeaderCell)|
      && r.value.dayCount <= |grid[h]|
      && r.value.mes == MonthOf(grid)
      && r.value.empleados == ImportedRows(grid, h + 1, r.value.dayCount, penalty, file, MonthOf(grid))
  {
    assert FindHeader(grid) == Some(h);
  }
}
