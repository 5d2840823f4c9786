# Attendance and staff directory — a Dafny model

This project models the two screens of a small payroll front end.

- **Attendance screen** (`src/AttendanceManagement.tsx`). It reads monthly attendance sheets into employee records (`Empleado`). Each record holds a day-by-day attendance code (`PU` on time, `TA` late, `FA` absent, `AS` attended, `DE` extra day, `NL` not working, …), the counters derived from those codes, the deduction and the final pay.
  - The user can edit a single day, remove a loaded file, and filter by a search term and by month.
  - The export writes one row per record, with its day cells, plus a `TOTALES` row.
- **Staff directory screen** (`src/PeopleManagement.tsx`). It keeps a list of people (`Person`) that can be:
  - added or edited through a form;
  - deleted after confirmation;
  - imported from a spreadsheet, skipping rows without DNI, name or occupation;
  - exported back to a spreadsheet;
  - searched in one field or in all of them.

Modules:

| module | file | contents |
|---|---|---|
| `Wrappers` | `wrappers.dfy` | `Option` and `Result` |
| `Text` | `text.dfy` | JavaScript `trim`, `toLowerCase`, `includes` and `startsWith`; the digit removal `replace(/\d+/g, '')`; the month marker replacement `replace(/.*MES DE/i, '')` with leftmost, greedy regular-expression semantics |
| `Cells` | `cells.dfy` | decoded spreadsheet cells (absent, text, number) and the coercions the screens apply: truthiness, `toString`, `Number(x) \|\| 0`, `x \|\| default`, `join` |
| `Seqs` | `seqs.dfy` | `filter` and summing `reduce`, with partition facts |
| `AttendanceRecords` | `attendance_records.dfy` | the `Empleado` record and the single-day edit |
| `AttendanceImport` | `attendance_import.dfy` | reading one sheet; the loops become methods proved against functions |
| `AttendanceManagement` | `attendance_management.dfy` | filters, file removal, export day cells and totals; the class `Attendance` holds the screen's state |
| `People` | `people.dfy` | the `Person` record; replace and delete by id; import, export and search |
| `PeopleManagement` | `people_management.dfy` | the class `Directory` holds the directory screen's state |

## Behaviour worth knowing

The model follows the code as it is written, including the following points.

- **Case of the month marker.** The row test `includes('MES DE')` is case-sensitive. Only the replacement `/.*MES DE/i` ignores case. The model does the same (`AttendanceImport.HasMonthMarker` against `Text.StripThroughMarker`).
- **What the pay covers.** Final pay is monthly salary minus deductions, plus one daily wage per extra day after an edit. There is no pension deduction, no bonus and no floor of zero on net pay. The submit handler of the directory form checks nothing itself. The browser's `required` checks on `dni`, `nombre`, `correo` (which must also look like an e-mail address), `ocupacion`, `salario`, `fechaIngreso` and `sede` (src/PeopleManagement.tsx:379-464) keep it from running while one of them is empty. The attendance export has no grouped report.
- **The recount invariant.** The import counts only `PU`, `TA` and `FA` and sets `DiasExtras` to 0. The single-day edit also counts `AS` as on time and `DE` as an extra day.
  - So an imported record's counters equal the edit's recount of its days exactly when none of its days is `AS` or `DE` (`AttendanceImport.ImportRecountedIff`). From then on the edit keeps them equal (`AttendanceRecords.ChangeDayKeepsRecount`).
  - Two concrete rows show what happens otherwise:
    - `AttendanceImport.AsDayEditGoesNegative`: the on-time counter goes to -1.
    - `AttendanceImport.DeDayEditCutsPay`: a daily wage is taken off pay although no day deducts anything.
- **The two settings.** The late penalty keeps its initial value of 5: the code never calls `setDescuentoTardanza` (src/AttendanceManagement.tsx:40), so no method of `Attendance` changes it. The day count starts at 28 and changes only when a sheet is read, to the larger of itself and the sheet's day count (src/AttendanceManagement.tsx:82).

## Model

Functions that only compute (`AttendanceImport.MonthOf`, `AttendanceImport.SheetOf`, `People.ImportPerson`, …) have no row of their own. The rows of the lemmas about them name them.

| member | source | states |
|---|---|---|
| `Text.TrimStart` | src/AttendanceManagement.tsx:71 | only leading whitespace is dropped, and the result starts with a non-whitespace character |
| `Text.TrimEnd` | src/AttendanceManagement.tsx:71 | only trailing whitespace is dropped, and the result ends with a non-whitespace character |
| `Text.Trim` | src/AttendanceManagement.tsx:71 | `trim` is `trimEnd` after `trimStart`; the result neither starts nor ends with whitespace |
| `Text.TrimExact` | src/AttendanceManagement.tsx:71 | the trimmed text is the slice of the input between its leading and its trailing whitespace |
| `Text.TrimKeepsDigitFree` | src/AttendanceManagement.tsx:71 | trimming a digit-free text leaves it digit-free |
| `Text.RemoveDigits` | src/AttendanceManagement.tsx:71 | the result is exactly the input's non-digit characters in order (a filter), so it has no digit and equals a digit-free input |
| `Text.Lower` | src/AttendanceManagement.tsx:195-198 | lower-casing keeps the length, maps every character on its own, and leaves no character `A`-`Z` |
| `Text.LowerIdempotent` | src/AttendanceManagement.tsx:195-198 | lower-casing twice is lower-casing once |
| `Text.LineEnd` | src/AttendanceManagement.tsx:71 | `.` extends up to, and not past, the next line terminator |
| `Text.LastMarkerIn` | src/AttendanceManagement.tsx:71 | the greedy `.*` stops at the last `MES DE` (any case) in reach, and none lies beyond it |
| `Text.LeftmostMatch` | src/AttendanceManagement.tsx:71 | the match found is the leftmost one at or after the search position, ending with a marker; `None` means no position has a match |
| `Text.StripWithoutMarker` | src/AttendanceManagement.tsx:71 | with no marker in the text, the replacement changes nothing |
| `Text.StripThroughLastMarker` | src/AttendanceManagement.tsx:71 | on one line, the replacement removes everything through the last marker |
| `Text.StripThroughMarker` | src/AttendanceManagement.tsx:71 | `replace(/.*MES DE/i, '')` changes nothing without a match; with one, the result is the text before the leftmost match followed by the text after its marker |
| `Cells.NatToString` | src/PeopleManagement.tsx:133 | decimal notation is a non-empty run of digits without a leading zero that reads back as the number |
| `Cells.TextOr` | src/AttendanceManagement.tsx:96 | `c?.toString() || d` is the cell's text when that is non-empty and `d` otherwise |
| `Cells.NumberOr0` | src/AttendanceManagement.tsx:104-106 | `Number(x) \|\| 0`: a number cell gives its number, a blank cell or a text that is not a number gives 0, and a numeric text gives the number it spells |
| `Cells.ParseNumberReadsBack` | src/AttendanceManagement.tsx:104-106 | `Number` reads an integer written by `toString` back as the same integer |
| `Cells.TruthyTextNonEmpty` | src/PeopleManagement.tsx:131 | a truthy cell has a non-empty text |
| `Cells.OrNumber` | src/PeopleManagement.tsx:137 | a falsy cell gives 0, and a number cell gives its number |
| `Seqs.Filter` | src/AttendanceManagement.tsx:148 | the result keeps exactly the elements that pass, in their order, and is no longer than the input |
| `Seqs.FilterSamePredicate` | src/AttendanceManagement.tsx:192-204 | filtering with two tests that agree on every element gives the same list |
| `Seqs.FilterPartitionSize` | src/AttendanceManagement.tsx:148 | a filter and its complement split the list: their lengths and multisets add up to it |
| `Seqs.FilterMultiplicity` | src/AttendanceManagement.tsx:148 | a filter keeps every copy of each passing element and no copy of a failing one |
| `Seqs.SumAppend` | src/AttendanceManagement.tsx:361 | a sum over a concatenation is the sum of the two sums |
| `Seqs.SumPartition` | src/AttendanceManagement.tsx:361-371 | a sum splits over a filter and its complement |
| `AttendanceRecords.DaysWith` | src/AttendanceManagement.tsx:99-101 | a day is selected exactly when the record has it and its code is in the category |
| `AttendanceRecords.CountAfterSet` | src/AttendanceManagement.tsx:158-171 | setting one day moves a full recount by minus the old hit and plus the new hit |
| `AttendanceRecords.ChangeDay` | src/AttendanceManagement.tsx:155-185 | the day takes the new code, only the counters, the deduction and the pay change, the pay follows the edit's formula, and re-choosing the same code keeps the counters |
| `AttendanceRecords.ChangeDayKeepsRecount` | src/AttendanceManagement.tsx:158-171 | if the counters were a recount of the days before the edit, they still are after it |
| `AttendanceRecords.ChangeDayPayFromDays` | src/AttendanceManagement.tsx:173-174 | on a recounted record, the deduction and pay after an edit are functions of the days alone |
| `AttendanceRecords.ChangeDayIdempotent` | src/AttendanceManagement.tsx:155-185 | choosing the same code twice equals choosing it once |
| `AttendanceRecords.ChangeDayUndo` | src/AttendanceManagement.tsx:155-185 | putting the day back to its former code restores a record paid by the edit's formula |
| `AttendanceRecords.ChangeDayFor` | src/AttendanceManagement.tsx:153-188 | records with another code are untouched; each record with that code becomes exactly the single-day edit of itself |
| `AttendanceRecords.ChangeDayForKeepsRecount` | src/AttendanceManagement.tsx:153-188 | the list edit keeps every record's counters equal to its recount |
| `AttendanceImport.MarkedRowFrom` | src/AttendanceManagement.tsx:68-69 | the row found is the first one among the first five whose cells, joined without separator, contain `MES DE` (`HasMonthMarker`, case-sensitive), or none of them does |
| `AttendanceImport.ExtractMonth` | src/AttendanceManagement.tsx:67-74 | the scan returns the sheet's month label |
| `AttendanceImport.MonthWithoutMarker` | src/AttendanceManagement.tsx:67-74 | without a marked row among the first five, the month label `MonthOf` is `SIN MES` |
| `AttendanceImport.MonthFromFirstMarkedRow` | src/AttendanceManagement.tsx:68-72 | otherwise `MonthOf` is `CleanMonth` of the first marked row's cells joined with spaces (`Join`) |
| `AttendanceImport.CleanMonthClean` | src/AttendanceManagement.tsx:71 | whatever the row text, `CleanMonth` holds no digit and neither starts nor ends with whitespace |
| `AttendanceImport.MonthLabelClean` | src/AttendanceManagement.tsx:71 | a month label holds no digit and neither starts nor ends with whitespace |
| `AttendanceImport.FindHeaderFrom` | src/AttendanceManagement.tsx:76 | the header is the first row whose first cell is `Codigo`, or there is none |
| `AttendanceImport.ParseRow` | src/AttendanceManagement.tsx:89-124 | the day loop builds the day map and the `PU`/`TA`/`FA` tallies of the record the import defines |
| `AttendanceImport.ImportRecord` | src/AttendanceManagement.tsx:89-124 | an imported record has days 1..n from the row, on-time, late and absent counters that count the `PU`, `TA` and `FA` days, name, DNI and position as the texts of cells 1 to 3, the code as the text of a filled first cell, salary and daily wage from columns 4 and 5, deductions of penalty per late day plus a daily wage per absence, final pay of salary less deductions, no extra days, and the file and month tags |
| `AttendanceImport.ImportRecordDays` | src/AttendanceManagement.tsx:94-97 | an imported record has exactly days 1..n, each the cell's text or `NL` for an absent or blank cell, tagged with file and month |
| `AttendanceImport.PuntualSameIff` | src/AttendanceManagement.tsx:99 | counting `AS` together with `PU` changes the on-time count exactly when some day is `AS` |
| `AttendanceImport.NoExtraIff` | src/AttendanceManagement.tsx:166 | no day counts as extra exactly when no day is `DE` |
| `AttendanceImport.ImportRecountedIff` | src/AttendanceManagement.tsx:99-101 | an imported record's counters are the edit's recount exactly when no day is `AS` or `DE` |
| `AttendanceImport.ImportPaidByEditRule` | src/AttendanceManagement.tsx:104-106 | the import's pay agrees with the edit's formula, since extra days start at 0 |
| `AttendanceImport.AsDayEditGoesNegative` | src/AttendanceManagement.tsx:163 | a row with an `AS` day imports with 0 on-time days, and editing that day to `NL` drives the counter to -1 |
| `AttendanceImport.DeDayEditCutsPay` | src/AttendanceManagement.tsx:166 | a row with a `DE` day, edited to `NL`, gets -1 extra days and loses a daily wage with nothing left to deduct |
| `AttendanceImport.DataRows` | src/AttendanceManagement.tsx:85-87 | the data rows are the contiguous rows below the header up to the first one with an empty first cell |
| `AttendanceImport.ParseRows` | src/AttendanceManagement.tsx:84-125 | the row loop yields one record per data row, in order |
| `AttendanceImport.ImportedRowsShape` | src/AttendanceManagement.tsx:84-125 | each record comes from the row at the same distance below the header and carries the file name and month |
| `AttendanceImport.ParseSheet` | src/AttendanceManagement.tsx:67-125 | reading a sheet gives its outcome `SheetOf`: its month, day count and records, or the format error |
| `AttendanceImport.SheetRejectedIffNoHeader` | src/AttendanceManagement.tsx:76-77 | `SheetOf` rejects a sheet with `Formato de archivo incorrecto` exactly when no row starts with `Codigo` |
| `AttendanceImport.SheetFromFirstHeader` | src/AttendanceManagement.tsx:76-85 | with a header, the day count is its number of `Dia…` cells and the rows read start right below it |
| `AttendanceImport.DayColumnCountBounds` | src/AttendanceManagement.tsx:79-81 | the day count `DayColumnCount` is at most the header's length, 0 when no cell starts with `Dia`, and the header's length when all do |
| `AttendanceManagement.Max` | src/AttendanceManagement.tsx:82 | the day count is the larger of the two |
| `AttendanceManagement.FilterEmpleados` | src/AttendanceManagement.tsx:192-204 | the filtered list is a subsequence of the records that keeps every copy of each record matching both term and month and no copy of any other |
| `AttendanceManagement.FilterEmpleadosShowsAll` | src/AttendanceManagement.tsx:200 | an empty term with `TODOS` shows every record |
| `AttendanceManagement.FilterEmpleadosIgnoresCase` | src/AttendanceManagement.tsx:195-198 | a search term and its lower-cased form select the same records |
| `AttendanceManagement.RemoveFileExact` | src/AttendanceManagement.tsx:148 | `RemoveFileRecords` keeps exactly the records of other files, in order; kept and dropped records make up the list |
| `AttendanceManagement.RemoveFileNameExact` | src/AttendanceManagement.tsx:149 | `RemoveFileName` drops every listing of the file name and keeps every copy of every other listing, in order |
| `AttendanceManagement.RemoveFileKeepsListed` | src/AttendanceManagement.tsx:147-150 | after a removal, every remaining record still comes from a file that is still listed |
| `AttendanceManagement.ExportTotalsAppend` | src/AttendanceManagement.tsx:358-376 | the `TOTALES` sums (`ExportTotals`) of an appended list are the sums of both lists' totals |
| `AttendanceManagement.ExportTotalsRemoveFile` | src/AttendanceManagement.tsx:358-376 | the totals split into those of the remaining records and those of the removed file |
| `AttendanceManagement.ExportTotalsBalance` | src/AttendanceManagement.tsx:358-376 | when every record is paid as at import, the final total is the monthly total less the deductions total |
| `AttendanceManagement.ImportedRowsPaidAsImported` | src/AttendanceManagement.tsx:104-106 | every record read from a sheet is paid monthly salary less deductions |
| `AttendanceManagement.ExportDayCells` | src/AttendanceManagement.tsx:279-280 | one cell per day of the month; day d shows the record's code for d when it has a non-empty one, and `NL` otherwise |
| `AttendanceManagement.DayCell` | src/AttendanceManagement.tsx:280 | a day's cell is the record's code for it when that is non-empty, `NL` otherwise, and never empty |
| `AttendanceManagement.ExportDayCellsAfterEdit` | src/AttendanceManagement.tsx:160-182 | after editing day d to a non-empty code, the export shows that code for d and the same cells for every other day |
| `AttendanceManagement.ExportDayCellsOfImport` | src/AttendanceManagement.tsx:279-280 | an imported record exports the codes it read and `NL` for the days its sheet did not have |
| `AttendanceManagement.Attendance.constructor` | src/AttendanceManagement.tsx:38-43 | no records or files, 28 days, a late penalty of 5, and both filters cleared |
| `AttendanceManagement.Attendance.ProcessFile` | src/AttendanceManagement.tsx:58-132 | a sheet without header changes nothing and yields the alert text; otherwise the day count becomes the maximum, the records are appended and the file is listed; every record stays from a listed file |
| `AttendanceManagement.Attendance.RemoveFile` | src/AttendanceManagement.tsx:147-150 | the file's records and listings go, nothing else changes, and every record stays from a listed file |
| `AttendanceManagement.Attendance.DayChange` | src/AttendanceManagement.tsx:152-189 | the list edit is applied, and recounted counters stay recounted |
| `AttendanceManagement.Attendance.SetSearchTerm` | src/AttendanceManagement.tsx:509 | only the search term changes |
| `AttendanceManagement.Attendance.SetFilterMes` | src/AttendanceManagement.tsx:521 | only the month filter changes |
| `AttendanceManagement.Attendance.ClearFilters` | src/AttendanceManagement.tsx:875-876 | after clearing, every record is shown |
| `AttendanceManagement.Attendance.Filtered` | src/AttendanceManagement.tsx:192-204 | the records shown are a subsequence of the list, with every copy of each record matching both the search term and the month filter and no copy of any other |
| `AttendanceManagement.Attendance.ExportedTotals` | src/AttendanceManagement.tsx:358-376 | the `TOTALES` row is `ExportTotals` of the shown records; when they are all paid as at import, final pay totals monthly salary less deductions |
| `People.ReplaceById` | src/PeopleManagement.tsx:81 | records with the id become the form, and the others stay in place |
| `People.ReplaceByIdAbsent` | src/PeopleManagement.tsx:81 | saving an edit whose id no record carries changes nothing |
| `People.ReplaceByIdIdempotent` | src/PeopleManagement.tsx:81 | saving the same edit twice equals saving it once |
| `People.RemoveByIdExact` | src/PeopleManagement.tsx:115 | `RemoveById` removes exactly the records with that id and keeps the rest in order |
| `People.ImportPersonDefaults` | src/PeopleManagement.tsx:133-155 | in `ImportPerson`, a blank cell gives the field's default: `activo` only for `Sí`; 0 for numbers; today for the entry date; `''` for every optional text field; the first option for each choice; and the required fields are non-empty |
| `People.ImportPersonKeepsValues` | src/PeopleManagement.tsx:133-155 | a filled cell is kept: DNI, name and occupation as text, number cells in numeric fields as their number, and every other filled text field as its text |
| `People.ImportPeople` | src/PeopleManagement.tsx:130-133 | at most one person per row, the i-th with id stamp-i |
| `People.ImportPeopleRequired` | src/PeopleManagement.tsx:130-136 | every imported person has a DNI, a name and an occupation |
| `People.ImportPeopleKeepsComplete` | src/PeopleManagement.tsx:130-156 | exactly the complete rows are imported, in order; all complete gives one person per row, none gives nobody |
| `People.ExportPeople` | src/PeopleManagement.tsx:163-186 | one exported row per person, in order |
| `People.ExportImportKeyFields` | src/PeopleManagement.tsx:163-169 | an exported person with the required fields passes the import filter and keeps DNI, name, occupation and active flag |
| `People.ExportImportPerson` | src/PeopleManagement.tsx:132-156 | importing the row `ExportPerson` writes gives the person back under the new id, when no defaulted field is blank |
| `People.ExportImportPeople` | src/PeopleManagement.tsx:130-186 | exporting the directory and importing the file gives the same people in the same order, with fresh ids |
| `People.FilteredPeople` | src/PeopleManagement.tsx:194-207 | an empty search shows everyone; otherwise a subsequence with every copy of each person `MatchesTerm` accepts for the lower-cased term and no copy of anyone else |
| `People.FilteredPeopleUnknownField` | src/PeopleManagement.tsx:204-205 | searching a name that is not a field finds nobody |
| `People.FilteredPeopleFieldInAll` | src/PeopleManagement.tsx:199-205 | whoever is found in one field is found when searching all fields |
| `People.FilteredPeopleIgnoresCase` | src/PeopleManagement.tsx:197 | a search term and its lower-cased form find the same people |
| `PeopleManagement.Directory.constructor` | src/PeopleManagement.tsx:33-61 | an empty directory, the blank form `EmptyForm`, nothing being edited, and the search over all fields |
| `PeopleManagement.Directory.BeginEdit` | src/PeopleManagement.tsx:705-707 | the form takes the person, and the person's id is being edited |
| `PeopleManagement.Directory.Submit` | src/PeopleManagement.tsx:78-111 | while editing, the records with that id are replaced and ids and length are kept; otherwise the form is appended under the new id; then the form is blank and nothing is being edited |
| `PeopleManagement.Directory.Delete` | src/PeopleManagement.tsx:113-117 | once confirmed, exactly the records with that id go; without confirmation nothing changes |
| `PeopleManagement.Directory.Import` | src/PeopleManagement.tsx:157 | imported people are appended after the existing ones |
| `PeopleManagement.Directory.SetSearchTerm` | src/PeopleManagement.tsx:262 | only the search term changes |
| `PeopleManagement.Directory.SetFilterField` | src/PeopleManagement.tsx:283 | only the search field changes |
| `PeopleManagement.Directory.Filtered` | src/PeopleManagement.tsx:194-207 | with an empty search, everyone is listed; otherwise every copy of each matching person and no copy of anyone else, as a subsequence of the directory |
| `PeopleManagement.Directory.Export` | src/PeopleManagement.tsx:163-186 | one exported row per person, in order |

## Left out

- Decoding and writing workbooks (`FileReader`, `XLSX.read`, `sheet_to_json`, `json_to_sheet`, `writeFile`) is left out. The model starts from the decoded grid of cells or from the rows read as objects.
- Cell styles, colours, titles, legends and the file-name and month summary lines of the attendance export are left out. The model keeps only the day cells and the `TOTALES` sums.
- `alert`, `confirm`, `console.error` and `window.scrollTo` are left out. The alert text is returned, and the confirmation is a parameter of `Delete`.
- The order of several files loaded in one go is not modelled. Each `FileReader` finishes on its own schedule, and the model processes one file per call.
- The clock is a parameter. Today's date is the `today` parameter. The people import reads `Date.now()` once per row, inside the `map` (src/PeopleManagement.tsx:133). The model reads it once, as the `stamp` parameter, and gives row i the id `stamp-i`, so it covers the case where the clock does not move during one import.
- Pagination (`currentPage`, `recordsPerPage`) and the list of months offered in the month filter are left out. Neither changes a record.
- Editing the form field by field (`handlePersonFormChange`) is left out, as are the unused section toggles and the filter panel switch.
- Numbers are integers. Fractional salaries, `toFixed(2)` formatting, exponents, hexadecimal notation and `NaN` are not modelled. In `Cells.ParseNumber`, a text that is not an optionally signed run of digits counts as not a number.
- `Cells.OrNumber` turns a text cell in a numeric person field into a number. The code stores that text unchanged in the field.
- `People.ImportPerson` stores every text field as text. The code keeps a numeric cell as a number in `nombre` and `ocupacion` and in each field read with `||`: `sede`, `planta`, `celular`, `correo`, `estadoCivil`, `nacionalidad`, `banco`, `numeroCuenta`, `tipoCuenta`, `cuentaInterbancaria`, `contactoEmergencia`, `nivelEducativo` and `carreraEspecialidad` (src/PeopleManagement.tsx:136-155). Only `dni` is converted with `toString`.
- Dates are taken as `yyyy-MM-dd` text. `format(parseISO(x), 'yyyy-MM-dd')` is treated as the identity on such text, so an unparsable date, which makes the code throw, is not modelled.
- `Text.LowerChar` lower-cases Basic Latin and Latin-1 letters only, which covers Spanish. The rest of Unicode case mapping is not modelled.
- Object keys that are not fields of a person (`constructor`, `toString`, …) count as absent in the field search.
- The round-trip lemmas (`People.ExportImportPerson`, `People.ExportImportPeople`) assume that writing the workbook and reading it back gives every cell its exported value. The workbook library is not part of this model.
- `PeopleManagement.Directory.Submit` accepts any form, including one whose required fields are empty or whose `correo` is not an e-mail address. The browser's form checks that stop such a submission (src/PeopleManagement.tsx:379-464) are not modelled.
