/**
 * The staff directory's records (`Person`) and the pure operations of the
 * directory screen: replace and delete by id, the spreadsheet import row
 * filter with its field defaults, the export field mapping, and the search
 * filter.
 *
 * A spreadsheet row read as an object is a record with one cell per column
 * title the screen knows; a title the row lacks reads as an absent cell.
 */
module People {

  import opened Wrappers
  import opened Text
  import opened Cells
  import opened Seqs

  datatype Person = Person(
    id: string,
    dni: string,
    nombre: string,
    ocupacion: string,
    salario: int,
    fechaIngreso: string,
    activo: bool,
    sede: string,
    planta: string,
    celular: string,
    correo: string,
    vacaciones: int,
    estadoCivil: string,
    numeroHijos: int,
    fechaNacimiento: string,
    nacionalidad: string,
    banco: string,
    numeroCuenta: string,
    tipoCuenta: string,
    cuentaInterbancaria: string,
    contactoEmergencia: string,
    nivelEducativo: string,
    carreraEspecialidad: string)

  /** A spreadsheet row read as an object; each field's comment gives its column title. */
  datatype Row = Row(
    dni: Cell,                  // DNI
    nombre: Cell,               // Nombre
    ocupacion: Cell,            // Ocupación
    salario: Cell,              // Salario
    fechaIngreso: Cell,         // Fecha Ingreso
    activo: Cell,               // Activo
    sede: Cell,                 // Sede
    planta: Cell,               // Planta
    celular: Cell,              // Celular
    correo: Cell,               // Correo
    vacaciones: Cell,           // Vacaciones
    estadoCivil: Cell,          // Estado Civil
    numeroHijos: Cell,          // Número de hijos
    fechaNacimiento: Cell,      // Fecha de nacimiento
    nacionalidad: Cell,         // Nacionalidad
    banco: Cell,                // Banco
    numeroCuenta: Cell,         // Número de cuenta
    tipoCuenta: Cell,           // Tipo de cuenta
    cuentaInterbancaria: Cell,  // Cuenta interbancaria
    contactoEmergencia: Cell,   // Contacto de emergencia
    nivelEducativo: Cell,       // Nivel educativo
    carreraEspecialidad: Cell)  // Carrera o especialidad

  const YES: string := "S\U{ED}"
  const NO: string := "No"
  const DEFAULT_ESTADO_CIVIL: string := "soltero"
  const DEFAULT_TIPO_CUENTA: string := "ahorros"
  const DEFAULT_NIVEL: string := "secundaria"
  /** The search filter's choice that looks in every field. */
  const ALL_FIELDS: string := "all"

  /** The blank form: today's date, active, and the three choice fields at their first option. */
  function EmptyForm(today: string): Person {
    Person(
      id := "", dni := "", nombre := "", ocupacion := "", salario := 0, fechaIngreso := today,
      activo := true, sede := "", planta := "", celular := "", correo := "", vacaciones := 0,
      estadoCivil := DEFAULT_ESTADO_CIVIL, numeroHijos := 0, fechaNacimiento := "", nacionalidad := "",
      banco := "", numeroCuenta := "", tipoCuenta := DEFAULT_TIPO_CUENTA, cuentaInterbancaria := "",
      contactoEmergencia := "", nivelEducativo := DEFAULT_NIVEL, carreraEspecialidad := "")
  }

  // ---------------------------------------------------------------------
  // Replace and delete by id
  // ---------------------------------------------------------------------

  /** `people.map(p => p.id === id ? form : p)`. */
  function ReplaceById(people: seq<Person>, id: string, form: Person): (r: seq<Person>)
    ensures |r| == |people|
    ensures forall i :: 0 <= i < |people| && people[i].id != id ==> r[i] == people[i]
    ensures forall i :: 0 <= i < |people| && people[i].id == id ==> r[i] == form
  {
    seq(|people|, i requires 0 <= i < |people| => if people[i].id == id then form else people[i])
  }

  /** When no record carries the id, replacing changes nothing. */
  lemma ReplaceByIdAbsent(people: seq<Person>, id: string, form: Person)
    requires forall i :: 0 <= i < |people| ==> people[i].id != id
    ensures ReplaceById(people, id, form) == people
  {
  }

  /** Replacing with a form that keeps the id can be repeated without further change. */
  lemma ReplaceByIdIdempotent(people: seq<Person>, id: string, form: Person)
    requires form.id == id
    ensures ReplaceById(ReplaceById(people, id, form), id, form) == ReplaceById(people, id, form)
  {
  }

  function IdIsNot(id: string): Person -> bool {
    (p: Person) => p.id != id
  }

  function IdIs(id: string): Person -> bool {
    (p: Person) => p.id == id
  }

  /** `people.filter(p => p.id !== id)`. */
  function RemoveById(people: seq<Person>, id: string): seq<Person> {
    Filter(people, IdIsNot(id))
  }

  /** Deleting removes exactly the records with that id and keeps the rest in their order. */
  lemma RemoveByIdExact(people: seq<Person>, id: string)
    ensures var r := RemoveById(people, id);
      && Subseq(r, people)
      && (forall p :: p in r <==> p in people && p.id != id)
      && |r| + |Filter(people, IdIs(id))| == |people|
  {
    FilterPartitionSize(people, IdIsNot(id), IdIs(id));
  }

  // ---------------------------------------------------------------------
  // Import
  // ---------------------------------------------------------------------

  /** `p.DNI && p.Nombre && p.Ocupación`: the row has the three required columns filled. */
  predicate HasRequired(row: Row) {
    Truthy(row.dni) && Truthy(row.nombre) && Truthy(row.ocupacion)
  }

  /** The id of the `index`-th imported person: the import's time stamp, a dash and the index. */
  function ImportId(stamp: string, index: nat): string {
    stamp + "-" + NatToString(index)
  }

  /** The person one imported row becomes; `today` is the entry date when the row has none. */
  function ImportPerson(row: Row, id: string, today: string): Person
  {
    Person(
      id := id,
      dni := CellText(row.dni),
      nombre := CellText(row.nombre),
      ocupacion := CellText(row.ocupacion),
      salario := OrNumber(row.salario),
      fechaIngreso := OrText(row.fechaIngreso, today),
      activo := row.activo == Str(YES),
      sede := OrText(row.sede, ""),
      planta := OrText(row.planta, ""),
      celular := OrText(row.celular, ""),
      correo := OrText(row.correo, ""),
      vacaciones := OrNumber(row.vacaciones),
      estadoCivil := OrText(row.estadoCivil, DEFAULT_ESTADO_CIVIL),
      numeroHijos := OrNumber(row.numeroHijos),
      fechaNacimiento := OrText(row.fechaNacimiento, ""),
      nacionalidad := OrText(row.nacionalidad, ""),
      banco := OrText(row.banco, ""),
      numeroCuenta := OrText(row.numeroCuenta, ""),
      tipoCuenta := OrText(row.tipoCuenta, DEFAULT_TIPO_CUENTA),
      cuentaInterbancaria := OrText(row.cuentaInterbancaria, ""),
      contactoEmergencia := OrText(row.contactoEmergencia, ""),
      nivelEducativo := OrText(row.nivelEducativo, DEFAULT_NIVEL),
      carreraEspecialidad := OrText(row.carreraEspecialidad, ""))
  }

  /**
   * The import's defaults: `activo` only for the exact text `Sí`, 0 for missing
   * numbers, today for a missing entry date, `''` for missing texts and the
   * first option for the three choice fields.
   */
  lemma ImportPersonDefaults(row: Row, id: string, today: string)
    ensures var r := ImportPerson(row, id, today);
      && (r.id == id)
      && (r.activo <==> row.activo == Str(YES))
      && (!Truthy(row.salario) ==> r.salario == 0)
      && (!Truthy(row.vacaciones) ==> r.vacaciones == 0)
      && (!Truthy(row.numeroHijos) ==> r.numeroHijos == 0)
      && (!Truthy(row.fechaIngreso) ==> r.fechaIngreso == today)
      && (!Truthy(row.fechaNacimiento) ==> r.fechaNacimiento == "")
      && (!Truthy(row.estadoCivil) ==> r.estadoCivil == DEFAULT_ESTADO_CIVIL)
      && (!Truthy(row.tipoCuenta) ==> r.tipoCuenta == DEFAULT_TIPO_CUENTA)
      && (!Truthy(row.nivelEducativo) ==> r.nivelEducativo == DEFAULT_NIVEL)
      && (!Truthy(row.sede) ==> r.sede == "")
      && (!Truthy(row.planta) ==> r.planta == "")
      && (!Truthy(row.celular) ==> r.celular == "")
      && (!Truthy(row.correo) ==> r.correo == "")
      && (!Truthy(row.nacionalidad) ==> r.nacionalidad == "")
      && (!Truthy(row.banco) ==> r.banco == "")
      && (!Truthy(row.numeroCuenta) ==> r.numeroCuenta == "")
      && (!Truthy(row.cuentaInterbancaria) ==> r.cuentaInterbancaria == "")
      && (!Truthy(row.contactoEmergencia) ==> r.contactoEmergencia == "")
      && (!Truthy(row.carreraEspecialidad) ==> r.carreraEspecialidad == "")
      && (HasRequired(row) ==> r.dni != "" && r.nombre != "" && r.ocupacion != "")
  {
  }

  /** A filled cell is kept: its text for a text field, its number for a numeric field. */
  lemma ImportPersonKeepsValues(row: Row, id: string, today: string)
    ensures var r := ImportPerson(row, id, today);
      && r.dni == CellText(row.dni) && r.nombre == CellText(row.nombre) && r.ocupacion == CellText(row.ocupacion)
      && (row.salario.Num? ==> r.salario == row.salario.n)
      && (row.vacaciones.Num? ==> r.vacaciones == row.vacaciones.n)
      && (row.numeroHijos.Num? ==> r.numeroHijos == row.numeroHijos.n)
      && (Truthy(row.fechaIngreso) ==> r.fechaIngreso == CellText(row.fechaIngreso))
      && (Truthy(row.sede) ==> r.sede == CellText(row.sede))
      && (Truthy(row.planta) ==> r.planta == CellText(row.planta))
      && (Truthy(row.celular) ==> r.celular == CellText(row.celular))
      && (Truthy(row.correo) ==> r.correo == CellText(row.correo))
      && (Truthy(row.estadoCivil) ==> r.estadoCivil == CellText(row.estadoCivil))
      && (Truthy(row.fechaNacimiento) ==> r.fechaNacimiento == CellText(row.fechaNacimiento))
      && (Truthy(row.nacionalidad) ==> r.nacionalidad == CellText(row.nacionalidad))
      && (Truthy(row.banco) ==> r.banco == CellText(row.banco))
      && (Truthy(row.numeroCuenta) ==> r.numeroCuenta == CellText(row.numeroCuenta))
      && (Truthy(row.tipoCuenta) ==> r.tipoCuenta == CellText(row.tipoCuenta))
      && (Truthy(row.cuentaInterbancaria) ==> r.cuentaInterbancaria == CellText(row.cuentaInterbancaria))
      && (Truthy(row.contactoEmergencia) ==> r.contactoEmergencia == CellText(row.contactoEmergencia))
      && (Truthy(row.nivelEducativo) ==> r.nivelEducativo == CellText(row.nivelEducativo))
      && (Truthy(row.carreraEspecialidad) ==> r.carreraEspecialidad == CellText(row.carreraEspecialidad))
  {
  }

  /** The people an import adds: one per row with the required columns, in row order. */
  function ImportPeople(rows: seq<Row>, stamp: string, today: string): (r: seq<Person>)
    ensures |r| <= |rows|
    ensures forall i :: 0 <= i < |r| ==> r[i].id == ImportId(stamp, i)
  {
    var kept := Filter(rows, HasRequired);
    seq(|kept|, i requires 0 <= i < |kept| => ImportPerson(kept[i], ImportId(stamp, i), today))
  }

  /** Every imported person has a DNI, a name and an occupation. */
  lemma ImportPeopleRequired(rows: seq<Row>, stamp: string, today: string)
    ensures var r := ImportPeople(rows, stamp, today);
      forall i :: 0 <= i < |r| ==> r[i].dni != "" && r[i].nombre != "" && r[i].ocupacion != ""
  {
    var kept := Filter(rows, HasRequired);
    forall i | 0 <= i < |kept|
      ensures CellText(kept[i].dni) != "" && CellText(kept[i].nombre) != ""
      ensures CellText(kept[i].ocupacion) != ""
    {
      assert kept[i] in kept;
      TruthyTextNonEmpty(kept[i].dni);
      TruthyTextNonEmpty(kept[i].nombre);
      TruthyTextNonEmpty(kept[i].ocupacion);
    }
  }

  /** Rows that lack a required column are skipped; the others are imported in order. */
  lemma ImportPeopleKeepsComplete(rows: seq<Row>, stamp: string, today: string)
    ensures var r := ImportPeople(rows, stamp, today);
      && |r| == |Filter(rows, HasRequired)|
      && (forall i :: 0 <= i < |r| ==> r[i] == ImportPerson(Filter(rows, HasRequired)[i], ImportId(stamp, i), today))
    ensures (forall row :: row in rows ==> HasRequired(row)) ==>
      var r := ImportPeople(rows, stamp, today);
      |r| == |rows| && forall i :: 0 <= i < |rows| ==> r[i] == ImportPerson(rows[i], ImportId(stamp, i), today)
    ensures (forall row :: row in rows ==> !HasRequired(row)) ==> ImportPeople(rows, stamp, today) == []
  {
    if forall row :: row in rows ==> HasRequired(row) {
      FilterKeepsAll(rows, HasRequired);
    }
  }

  // ---------------------------------------------------------------------
  // Export
  // ---------------------------------------------------------------------

  /** The spreadsheet row `handleExport` writes for a person: every field but the id, `activo` as `Sí`/`No`. */
  function ExportPerson(p: Person): Row {
    Row(
      dni := Str(p.dni),
      nombre := Str(p.nombre),
      ocupacion := Str(p.ocupacion),
      salario := Num(p.salario),
      fechaIngreso := Str(p.fechaIngreso),
      activo := Str(if p.activo then YES else NO),
      sede := Str(p.sede),
      planta := Str(p.planta),
      celular := Str(p.celular),
      correo := Str(p.correo),
      vacaciones := Num(p.vacaciones),
      estadoCivil := Str(p.estadoCivil),
      numeroHijos := Num(p.numeroHijos),
      fechaNacimiento := Str(p.fechaNacimiento),
      nacionalidad := Str(p.nacionalidad),
      banco := Str(p.banco),
      numeroCuenta := Str(p.numeroCuenta),
      tipoCuenta := Str(p.tipoCuenta),
      cuentaInterbancaria := Str(p.cuentaInterbancaria),
      contactoEmergencia := Str(p.contactoEmergencia),
      nivelEducativo := Str(p.nivelEducativo),
      carreraEspecialidad := Str(p.carreraEspecialidad))
  }

  function ExportPeople(people: seq<Person>): (rows: seq<Row>)
    ensures |rows| == |people|
    ensures forall i :: 0 <= i < |people| ==> rows[i] == ExportPerson(people[i])
  {
    seq(|people|, i requires 0 <= i < |people| => ExportPerson(people[i]))
  }

  /** Re-importing an exported person keeps the required fields and the active flag. */
  lemma ExportImportKeyFields(p: Person, id: string, today: string)
    requires p.dni != "" && p.nombre != "" && p.ocupacion != ""
    ensures HasRequired(ExportPerson(p))
    ensures var q := ImportPerson(ExportPerson(p), id, today);
      q.dni == p.dni && q.nombre == p.nombre && q.ocupacion == p.ocupacion && q.activo == p.activo
  {
    assert YES != NO;
  }

  /** A person whose export survives re-import field by field: no field that falls back to a default is blank. */
  predicate RoundTrips(p: Person) {
    && p.dni != "" && p.nombre != "" && p.ocupacion != "" && p.fechaIngreso != ""
    && p.estadoCivil != "" && p.tipoCuenta != "" && p.nivelEducativo != ""
  }

  /** For such a person, export then import gives the person back, under the id the import assigns. */
  lemma ExportImportPerson(p: Person, id: string, today: string)
    requires RoundTrips(p)
    ensures ImportPerson(ExportPerson(p), id, today) == p.(id := id)
  {
    assert YES != NO;
  }

  /** Exporting the directory and importing the file gives the same people in the same order, with new ids. */
  lemma ExportImportPeople(people: seq<Person>, stamp: string, today: string)
    requires forall i :: 0 <= i < |people| ==> RoundTrips(people[i])
    ensures var r := ImportPeople(ExportPeople(people), stamp, today);
      |r| == |people| && forall i :: 0 <= i < |people| ==> r[i] == people[i].(id := ImportId(stamp, i))
  {
    var rows := ExportPeople(people);
    forall row | row in rows
      ensures HasRequired(row)
    {
      var i :| 0 <= i < |rows| && rows[i] == row;
      ExportImportKeyFields(people[i], "", today);
    }
    ImportPeopleKeepsComplete(rows, stamp, today);
    forall i | 0 <= i < |people|
      ensures ImportPerson(rows[i], ImportId(stamp, i), today) == people[i].(id := ImportId(stamp, i))
    {
      ExportImportPerson(people[i], ImportId(stamp, i), today);
    }
  }

  // ---------------------------------------------------------------------
  // Search filter
  // ---------------------------------------------------------------------

  function BoolText(b: bool): string {
    if b then "true" else "false"
  }

  /** The fields of a person, in declaration order. */
  datatype Field =
    | Id | Dni | Nombre | Ocupacion | Salario | FechaIngreso | Activo | Sede | Planta | Celular | Correo
    | Vacaciones | EstadoCivil | NumeroHijos | FechaNacimiento | Nacionalidad | Banco | NumeroCuenta
    | TipoCuenta | CuentaInterbancaria | ContactoEmergencia | NivelEducativo | CarreraEspecialidad

  /** `p[f]?.toString()`. */
  function FieldText(p: Person, f: Field): string {
    match f
    case Id => p.id
    case Dni => p.dni
    case Nombre => p.nombre
    case Ocupacion => p.ocupacion
    case Salario => IntToString(p.salario)
    case FechaIngreso => p.fechaIngreso
    case Activo => BoolText(p.activo)
    case Sede => p.sede
    case Planta => p.planta
    case Celular => p.celular
    case Correo => p.correo
    case Vacaciones => IntToString(p.vacaciones)
    case EstadoCivil => p.estadoCivil
    case NumeroHijos => IntToString(p.numeroHijos)
    case FechaNacimiento => p.fechaNacimiento
    case Nacionalidad => p.nacionalidad
    case Banco => p.banco
    case NumeroCuenta => p.numeroCuenta
    case TipoCuenta => p.tipoCuenta
    case CuentaInterbancaria => p.cuentaInterbancaria
    case ContactoEmergencia => p.contactoEmergencia
    case NivelEducativo => p.nivelEducativo
    case CarreraEspecialidad => p.carreraEspecialidad
  }

  /** The field a property name designates, if a person has it. */
  function FieldNamed(name: string): Option<Field> {
    if name == "id" then Some(Id)
    else if name == "dni" then Some(Dni)
    else if name == "nombre" then Some(Nombre)
    else if name == "ocupacion" then Some(Ocupacion)
    else if name == "salario" then Some(Salario)
    else if name == "fechaIngreso" then Some(FechaIngreso)
    else if name == "activo" then Some(Activo)
    else if name == "sede" then Some(Sede)
    else if name == "planta" then Some(Planta)
    else if name == "celular" then Some(Celular)
    else if name == "correo" then Some(Correo)
    else if name == "vacaciones" then Some(Vacaciones)
    else if name == "estadoCivil" then Some(EstadoCivil)
    else if name == "numeroHijos" then Some(NumeroHijos)
    else if name == "fechaNacimiento" then Some(FechaNacimiento)
    else if name == "nacionalidad" then Some(Nacionalidad)
    else if name == "banco" then Some(Banco)
    else if name == "numeroCuenta" then Some(NumeroCuenta)
    else if name == "tipoCuenta" then Some(TipoCuenta)
    else if name == "cuentaInterbancaria" then Some(CuentaInterbancaria)
    else if name == "contactoEmergencia" then Some(ContactoEmergencia)
    else if name == "nivelEducativo" then Some(NivelEducativo)
    else if name == "carreraEspecialidad" then Some(CarreraEspecialidad)
    else None
  }

  /** `p[field]?.toString().toLowerCase() || ''`. */
  function FieldValue(p: Person, field: string): string {
    match FieldNamed(field)
    case Some(f) => Lower(FieldText(p, f))
    case None => ""
  }

  /** Whether a person matches the lower-cased term in the chosen field, or in any field for `all`. */
  predicate MatchesTerm(p: Person, field: string, term: string) {
    if field == ALL_FIELDS then exists f: Field :: Contains(Lower(FieldText(p, f)), term)
    else Contains(FieldValue(p, field), term)
  }

  function PersonSelected(field: string, term: string): Person -> bool {
    (p: Person) => MatchesTerm(p, field, term)
  }

  /** `filteredPeople`: everyone when the search box is empty, else the matching people in order. */
  function FilteredPeople(people: seq<Person>, searchTerm: string, field: string): (r: seq<Person>)
    ensures searchTerm == "" ==> r == people
    ensures Subseq(r, people)
    ensures searchTerm != "" ==> forall p :: p in r <==> p in people && MatchesTerm(p, field, Lower(searchTerm))
    ensures searchTerm != "" ==> forall p :: multiset(r)[p] == if MatchesTerm(p, field, Lower(searchTerm)) then multiset(people)[p] else 0
  {
    if searchTerm == "" then SubseqRefl(people); people
    else
      FilterMultiplicity(people, PersonSelected(field, Lower(searchTerm)));
      Filter(people, PersonSelected(field, Lower(searchTerm)))
  }

  /** The search ignores the case of the term: a term and its lower-cased form find the same people. */
  lemma FilteredPeopleIgnoresCase(people: seq<Person>, searchTerm: string, field: string)
    ensures FilteredPeople(people, searchTerm, field) == FilteredPeople(people, Lower(searchTerm), field)
  {
    LowerIdempotent(searchTerm);
  }

  /** Searching by a name that is not a field of a person finds nobody. */
  lemma FilteredPeopleUnknownField(people: seq<Person>, searchTerm: string, field: string)
    requires searchTerm != "" && field != ALL_FIELDS && FieldNamed(field).None?
    ensures FilteredPeople(people, searchTerm, field) == []
  {
    var t := Lower(searchTerm);
    forall p: Person
      ensures !PersonSelected(field, t)(p)
    {
      assert FieldValue(p, field) == "";
    }
    FilterNone(people, PersonSelected(field, t));
  }

  /** A person found by the chosen field is also found when searching all fields. */
  lemma FilteredPeopleFieldInAll(people: seq<Person>, searchTerm: string, field: string)
    requires searchTerm != "" && field != ALL_FIELDS
    ensures forall p :: p in FilteredPeople(people, searchTerm, field) ==> p in FilteredPeople(people, searchTerm, ALL_FIELDS)
  {
    forall p | p in FilteredPeople(people, searchTerm, field)
      ensures MatchesTerm(p, ALL_FIELDS, Lower(searchTerm))
    {
      match FieldNamed(field)
      case Some(f) =>
        assert Contains(Lower(FieldText(p, f)), Lower(searchTerm));
      case None =>
        assert false;
    }
  }
}
