/**
 * The attendance screen's state and handlers: loading a sheet, removing a
 * loaded file, editing one day, the combined search and month filter, and
 * the numbers the export writes (the per-day cells and the TOTALES row).
 */
module AttendanceManagement {

  import opened Wrappers
  import opened Text
  import opened Cells
  import opened Seqs
  import opened AttendanceRecords
  import opened AttendanceImport

  /** The month filter's value that lets every month through. */
  const ALL_MONTHS: string := "TODOS"
  const INITIAL_DAYS: nat := 28
  const INITIAL_PENALTY: int := 5

  function Max(a: nat, b: nat): (m: nat)
    ensures m >= a && m >= b && (m == a || m == b)
  {
    if a >= b then a else b
  }

  // ---------------------------------------------------------------------
  // Search and month filter
  // ---------------------------------------------------------------------

  /** The lower-cased term occurs in the lower-cased code, name, DNI or position. */
  predicate MatchesSearch(e: Empleado, term: string) {
    var t := Lower(term);
    Contains(Lower(e.codigo), t) || Contains(Lower(e.nombre), t)
    || Contains(Lower(e.dni), t) || Contains(Lower(e.cargo), t)
  }

  predicate MatchesMes(e: Empleado, mes: string) {
    mes == ALL_MONTHS || e.mes == mes
  }

  function Selected(term: string, mes: string): Empleado -> bool {
    (e: Empleado) => MatchesSearch(e, term) && MatchesMes(e, mes)
  }

  /** `empleadosFiltrados`: the records matching both the search term and the month, in order. */
  function FilterEmpleados(emps: seq<Empleado>, term: string, mes: string): (r: seq<Empleado>)
    ensures Subseq(r, emps)
    ensures forall e :: e in r ==> MatchesSearch(e, term) && MatchesMes(e, mes)
    ensures forall e :: e in emps && MatchesSearch(e, term) && MatchesMes(e, mes) ==> e in r
    ensures forall e :: multiset(r)[e] == if MatchesSearch(e, term) && MatchesMes(e, mes) then multiset(emps)[e] else 0
  {
    FilterMultiplicity(emps, Selected(term, mes));
    Filter(emps, Selected(term, mes))
  }

  /** The search ignores the case of the term: a term and its lower-cased form show the same records. */
  lemma FilterEmpleadosIgnoresCase(emps: seq<Empleado>, term: string, mes: string)
    ensures FilterEmpleados(emps, term, mes) == FilterEmpleados(emps, Lower(term), mes)
  {
    LowerIdempotent(term);
    FilterSamePredicate(emps, Selected(term, mes), Selected(Lower(term), mes));
  }

  /** With an empty term and `TODOS`, the filter shows every record. */
  lemma FilterEmpleadosShowsAll(emps: seq<Empleado>)
    ensures FilterEmpleados(emps, "", ALL_MONTHS) == emps
  {
    forall e | e in emps
      ensures Selected("", ALL_MONTHS)(e)
    {
      assert Lower("") == "";
      ContainsEmpty(Lower(e.codigo));
    }
    FilterKeepsAll(emps, Selected("", ALL_MONTHS));
  }

  // ---------------------------------------------------------------------
  // File removal
  // ---------------------------------------------------------------------

  function NotFromFile(name: string): Empleado -> bool {
    (e: Empleado) => e.archivoOrigen != name
  }

  function FromFile(name: string): Empleado -> bool {
    (e: Empleado) => e.archivoOrigen == name
  }

  function OtherName(name: string): string -> bool {
    (f: string) => f != name
  }

  /** The records `handleRemoveFile` keeps. */
  function RemoveFileRecords(emps: seq<Empleado>, name: string): seq<Empleado> {
    Filter(emps, NotFromFile(name))
  }

  /** The file names `handleRemoveFile` keeps. */
  function RemoveFileName(files: seq<string>, name: string): seq<string> {
    Filter(files, OtherName(name))
  }

  /**
   * Removal drops exactly the records of that file: the kept ones, in their
   * order, and the dropped ones together make up the list.
   */
  lemma RemoveFileExact(emps: seq<Empleado>, name: string)
    ensures var kept := RemoveFileRecords(emps, name);
      && Subseq(kept, emps)
      && (forall e :: e in kept <==> e in emps && e.archivoOrigen != name)
      && |kept| + |Filter(emps, FromFile(name))| == |emps|
      && multiset(kept) + multiset(Filter(emps, FromFile(name))) == multiset(emps)
  {
    FilterPartitionSize(emps, NotFromFile(name), FromFile(name));
  }

  /** Every occurrence of the name leaves the list of loaded files, and nothing else does. */
  lemma RemoveFileNameExact(files: seq<string>, name: string)
    ensures var kept := RemoveFileName(files, name);
      && Subseq(kept, files)
      && name !in kept
      && (forall f :: f in kept <==> f in files && f != name)
      && (forall f :: multiset(kept)[f] == if f != name then multiset(files)[f] else 0)
  {
    FilterMultiplicity(files, OtherName(name));
  }

  /** After a removal every kept record still comes from a file that is still listed. */
  lemma RemoveFileKeepsListed(emps: seq<Empleado>, files: seq<string>, name: string)
    requires forall i :: 0 <= i < |emps| ==> emps[i].archivoOrigen in files
    ensures var kept := RemoveFileRecords(emps, name);
      forall i :: 0 <= i < |kept| ==> kept[i].archivoOrigen in RemoveFileName(files, name)
  {
    var kept := RemoveFileRecords(emps, name);
    forall i | 0 <= i < |kept|
      ensures kept[i].archivoOrigen in RemoveFileName(files, name)
    {
      assert kept[i] in kept;
      var j :| 0 <= j < |emps| && emps[j] == kept[i];
      assert OtherName(name)(kept[i].archivoOrigen);
    }
  }

  // ---------------------------------------------------------------------
  // Export
  // ---------------------------------------------------------------------

  /** The TOTALES row of the summary sheet. */
  datatype Totals = Totals(sueldoMensual: int, descuentos: int, sueldoFinal: int)

  function MensualOf(e: Empleado): int { e.sueldoMensual }
  function DescuentosOf(e: Empleado): int { e.descuentos }
  function FinalOf(e: Empleado): int { e.sueldoFinal }

  /** The three sums the export writes under TOTALES. */
  function ExportTotals(emps: seq<Empleado>): Totals {
    Totals(SumOf(emps, MensualOf), SumOf(emps, DescuentosOf), SumOf(emps, FinalOf))
  }

  function AddTotals(a: Totals, b: Totals): Totals {
    Totals(a.sueldoMensual + b.sueldoMensual, a.descuentos + b.descuentos, a.sueldoFinal + b.sueldoFinal)
  }

  /** Loading a file adds the totals of its records to those of the list. */
  lemma ExportTotalsAppend(a: seq<Empleado>, b: seq<Empleado>)
    ensures ExportTotals(a + b) == AddTotals(ExportTotals(a), ExportTotals(b))
  {
    SumAppend(a, b, MensualOf);
    SumAppend(a, b, DescuentosOf);
    SumAppend(a, b, FinalOf);
  }

  /** Removing a file takes away exactly the totals of that file's records. */
  lemma ExportTotalsRemoveFile(emps: seq<Empleado>, name: string)
    ensures ExportTotals(emps)
         == AddTotals(ExportTotals(RemoveFileRecords(emps, name)), ExportTotals(Filter(emps, FromFile(name))))
  {
    SumPartition(emps, NotFromFile(name), FromFile(name), MensualOf);
    SumPartition(emps, NotFromFile(name), FromFile(name), DescuentosOf);
    SumPartition(emps, NotFromFile(name), FromFile(name), FinalOf);
  }

  /** Every record is paid by the import's formula: monthly salary less deductions. */
  predicate AllPaidAsImported(emps: seq<Empleado>) {
    forall i :: 0 <= i < |emps| ==> emps[i].sueldoFinal == emps[i].sueldoMensual - emps[i].descuentos
  }

  /** When every record is paid as at import, the final total is the monthly total less the deductions total. */
  lemma {:induction false} ExportTotalsBalance(emps: seq<Empleado>)
    requires AllPaidAsImported(emps)
    ensures var t := ExportTotals(emps); t.sueldoFinal == t.sueldoMensual - t.descuentos
    decreases |emps|
  {
    if emps != [] {
      ExportTotalsBalance(emps[..|emps| - 1]);
    }
  }

  /** The records of a sheet are paid as at import. */
  lemma ImportedRowsPaidAsImported(grid: seq<seq<Cell>>, start: nat, n: nat, penalty: int, file: string, mes: string)
    requires start <= |grid|
    ensures AllPaidAsImported(ImportedRows(grid, start, n, penalty, file, mes))
  {
  }

  /** `emp.Dias['Dia' + d] || 'NL'`: the exported code of day `d`. */
  function DayCell(e: Empleado, d: nat): (c: string)
    ensures d in e.dias && e.dias[d] != "" ==> c == e.dias[d]
    ensures !(d in e.dias && e.dias[d] != "") ==> c == NOT_WORKING
    ensures c != ""
  {
    if d in e.dias && e.dias[d] != "" then e.dias[d] else NOT_WORKING
  }

  /** The day cells of one exported row: days 1..`days`, each the day's code or `NL`. */
  function ExportDayCells(e: Empleado, days: nat): (r: seq<string>)
    ensures |r| == days
    ensures forall i :: 0 <= i < days ==> r[i] == DayCell(e, i + 1)
    ensures forall i :: 0 <= i < days && i + 1 in e.dias && e.dias[i + 1] != "" ==> r[i] == e.dias[i + 1]
    ensures forall i :: 0 <= i < days && !(i + 1 in e.dias && e.dias[i + 1] != "") ==> r[i] == NOT_WORKING
  {
    seq(days, i requires 0 <= i < days => DayCell(e, i + 1))
  }

  /**
   * A record straight from a sheet with `n` day columns exports, among
   * `days >= n` day cells, the codes it read (with `NL` for a blank cell) and
   * `NL` for the days the sheet did not have.
   */
  lemma ExportDayCellsOfImport(row: seq<Cell>, n: nat, penalty: int, file: string, mes: string, days: nat)
    requires n <= days
    ensures var cells := ExportDayCells(ImportRecord(row, n, penalty, file, mes), days);
      && (forall d :: 1 <= d <= n ==> cells[d - 1] == DayCode(row, d))
      && (forall i :: n <= i < days ==> cells[i] == NOT_WORKING)
  {
    var e := ImportRecord(row, n, penalty, file, mes);
    forall d | 1 <= d <= n
      ensures DayCell(e, d) == DayCode(row, d)
    {
      assert e.dias[d] == DayCode(row, d);
    }
  }

  /**
   * After a day edit to a non-empty code, the exported row shows that code on
   * that day and the same cells as before on every other day.
   */
  lemma ExportDayCellsAfterEdit(e: Empleado, dia: nat, valor: string, penalty: int, days: nat)
    requires 1 <= dia <= days && valor != ""
    ensures var before := ExportDayCells(e, days);
      var after := ExportDayCells(ChangeDay(e, dia, valor, penalty), days);
      && after[dia - 1] == valor
      && forall i :: 0 <= i < days && i != dia - 1 ==> after[i] == before[i]
  {
  }

  // ---------------------------------------------------------------------
  // The screen's state
  // ---------------------------------------------------------------------

  class Attendance {
    var empleados: seq<Empleado>
    var diasDelMes: nat
    var descuentoTardanza: int
    var archivosCargados: seq<string>
    var searchTerm: string
    var filterMes: string

    /** Every record comes from a file that is listed as loaded. */
    predicate Valid()
      reads this
    {
      forall i :: 0 <= i < |empleados| ==> empleados[i].archivoOrigen in archivosCargados
    }

    constructor ()
      ensures empleados == [] && archivosCargados == []
      ensures diasDelMes == INITIAL_DAYS && descuentoTardanza == INITIAL_PENALTY
      ensures searchTerm == "" && filterMes == ALL_MONTHS
      ensures Valid()
    {
      empleados := [];
      diasDelMes := INITIAL_DAYS;
      descuentoTardanza := INITIAL_PENALTY;
      archivosCargados := [];
      searchTerm := "";
      filterMes := ALL_MONTHS;
    }

    /**
     * `procesarArchivo` on a decoded grid. A sheet without header changes
     * nothing and yields the alert text; otherwise the day count grows to
     * cover the sheet, its records are appended and the file is listed.
     */
    method ProcessFile(grid: seq<seq<Cell>>, nombreArchivo: string) returns (alert: Option<string>)
      requires Valid()
      modifies this
      ensures Valid()
      ensures diasDelMes >= old(diasDelMes)
      ensures SheetOf(grid, nombreArchivo, old(descuentoTardanza)).Err? ==>
        && alert == Some("Error al procesar " + nombreArchivo + ": "
                         + SheetOf(grid, nombreArchivo, old(descuentoTardanza)).message)
        && unchanged(this)
      ensures SheetOf(grid, nombreArchivo, old(descuentoTardanza)).Ok? ==>
        var sheet := SheetOf(grid, nombreArchivo, old(descuentoTardanza)).value;
        && alert == None
        && diasDelMes == Max(old(diasDelMes), sheet.dayCount)
        && empleados == old(empleados) + sheet.empleados
        && archivosCargados == old(archivosCargados) + [nombreArchivo]
        && descuentoTardanza == old(descuentoTardanza)
        && searchTerm == old(searchTerm) && filterMes == old(filterMes)
    {
      var r := ParseSheet(grid, nombreArchivo, descuentoTardanza);
      match r
      case Err(m) =>
        alert := Some("Error al procesar " + nombreArchivo + ": " + m);
      case Ok(sheet) =>
        var h := FindHeader(grid).value;
        ImportedRowsShape(grid, h + 1, sheet.dayCount, descuentoTardanza, nombreArchivo, sheet.mes);
        diasDelMes := Max(diasDelMes, sheet.dayCount);
        empleados := empleados + sheet.empleados;
        archivosCargados := archivosCargados + [nombreArchivo];
        alert := None;
    }

    /** `handleRemoveFile`: the file's records and every listing of its name go. */
    method RemoveFile(nombreArchivo: string)
      requires Valid()
      modifies this
      ensures Valid()
      ensures empleados == RemoveFileRecords(old(empleados), nombreArchivo)
      ensures archivosCargados == RemoveFileName(old(archivosCargados), nombreArchivo)
      ensures diasDelMes == old(diasDelMes) && descuentoTardanza == old(descuentoTardanza)
      ensures searchTerm == old(searchTerm) && filterMes == old(filterMes)
    {
      RemoveFileKeepsListed(empleados, archivosCargados, nombreArchivo);
      empleados := RemoveFileRecords(empleados, nombreArchivo);
      archivosCargados := RemoveFileName(archivosCargados, nombreArchivo);
    }

    /**
     * `handleDayChange`: every record with that code gets the new day code and
     * its counters moved; when the counters were the recount of the days
     * before, they still are.
     */
    method DayChange(codigo: string, dia: nat, valor: string)
      requires Valid()
      modifies this
      ensures Valid()
      ensures empleados == ChangeDayFor(old(empleados), codigo, dia, valor, descuentoTardanza)
      ensures AllRecounted(old(empleados)) ==> AllRecounted(empleados)
      ensures archivosCargados == old(archivosCargados) && diasDelMes == old(diasDelMes)
      ensures descuentoTardanza == old(descuentoTardanza)
      ensures searchTerm == old(searchTerm) && filterMes == old(filterMes)
    {
      if AllRecounted(empleados) {
        ChangeDayForKeepsRecount(empleados, codigo, dia, valor, descuentoTardanza);
      }
      empleados := ChangeDayFor(empleados, codigo, dia, valor, descuentoTardanza);
    }

    /** The search box. */
    method SetSearchTerm(term: string)
      modifies this
      ensures searchTerm == term
      ensures empleados == old(empleados) && archivosCargados == old(archivosCargados)
      ensures diasDelMes == old(diasDelMes) && descuentoTardanza == old(descuentoTardanza)
      ensures filterMes == old(filterMes)
    {
      searchTerm := term;
    }

    /** The month selector. */
    method SetFilterMes(mes: string)
      modifies this
      ensures filterMes == mes
      ensures empleados == old(empleados) && archivosCargados == old(archivosCargados)
      ensures diasDelMes == old(diasDelMes) && descuentoTardanza == old(descuentoTardanza)
      ensures searchTerm == old(searchTerm)
    {
      filterMes := mes;
    }

    /** The button that clears both filters, after which every record is shown. */
    method ClearFilters()
      modifies this
      ensures searchTerm == "" && filterMes == ALL_MONTHS
      ensures Filtered() == empleados
      ensures empleados == old(empleados) && archivosCargados == old(archivosCargados)
      ensures diasDelMes == old(diasDelMes) && descuentoTardanza == old(descuentoTardanza)
    {
      searchTerm := "";
      filterMes := ALL_MONTHS;
      FilterEmpleadosShowsAll(empleados);
    }

    /** The records on screen and in the export: those matching the search and the month, in order. */
    function Filtered(): (r: seq<Empleado>)
      reads this
      ensures Subseq(r, empleados)
      ensures forall e :: e in r <==> e in empleados && MatchesSearch(e, searchTerm) && MatchesMes(e, filterMes)
      ensures forall e :: multiset(r)[e] == if MatchesSearch(e, searchTerm) && MatchesMes(e, filterMes) then multiset(empleados)[e] else 0
    {
      FilterEmpleados(empleados, searchTerm, filterMes)
    }

    /** The export's TOTALES row, over the records on screen. */
    function ExportedTotals(): (t: Totals)
      reads this
      ensures t == ExportTotals(Filtered())
      ensures AllPaidAsImported(Filtered()) ==> t.sueldoFinal == t.sueldoMensual - t.descuentos
    {
      var shown := Filtered();
      if AllPaidAsImported(shown) then ExportTotalsBalance(shown); ExportTotals(shown)
      else ExportTotals(shown)
    }
  }
}
