/**
 * The attendance record of one employee (`Empleado`) and the single-day edit
 * of the attendance screen (`handleDayChange`), which moves the day counters
 * by one instead of recounting the days.
 *
 * `Dias` is keyed by the day number `d`; the screen's key is the text `Dia{d}`,
 * which is one-to-one with `d`.
 */
module AttendanceRecords {

  /** Codes that the edit counts as on time, late, absent and extra day. */
  const PUNTUAL: set<string> := {"PU", "AS"}
  const TARDANZA: set<string> := {"TA"}
  const FALTA: set<string> := {"FA"}
  const EXTRA: set<string> := {"DE"}

  datatype Empleado = Empleado(
    codigo: string,
    nombre: string,
    dni: string,
    cargo: string,
    sueldoMensual: int,
    sueldoDiario: int,
    dias: map<nat, string>,
    puntuales: int,
    tardanzas: int,
    faltas: int,
    descuentos: int,
    diasExtras: int,
    sueldoFinal: int,
    archivoOrigen: string,
    mes: string)

  /** The number of days whose code is one of `codes`: a full recount. */
  function CountIn(dias: map<nat, string>, codes: set<string>): nat {
    |DaysWith(dias, codes)|
  }

  /** The days whose code is one of `codes`. */
  function DaysWith(dias: map<nat, string>, codes: set<string>): (s: set<nat>)
    ensures forall d :: d in s <==> d in dias && dias[d] in codes
  {
    set d | d in dias && dias[d] in codes
  }

  /** 1 when day `dia` is present and carries one of `codes`, else 0. */
  function Hit(dias: map<nat, string>, dia: nat, codes: set<string>): int {
    if dia in dias && dias[dia] in codes then 1 else 0
  }

  /** Taking one element out of a set lowers its size by one exactly when the element was in it. */
  lemma CardWithout(s: set<nat>, x: nat)
    ensures |s| == |s - {x}| + (if x in s then 1 else 0)
  {
    if x in s {
      assert s == (s - {x}) + {x};
    } else {
      assert s - {x} == s;
    }
  }

  /** Apart from the day that is set, the selected days stay the same. */
  lemma DaysWithAfterSet(dias: map<nat, string>, dia: nat, valor: string, codes: set<string>)
    ensures DaysWith(dias[dia := valor], codes) - {dia} == DaysWith(dias, codes) - {dia}
    ensures dia in DaysWith(dias[dia := valor], codes) <==> valor in codes
    ensures dia in DaysWith(dias, codes) <==> Hit(dias, dia, codes) == 1
  {
    var a := DaysWith(dias[dia := valor], codes) - {dia};
    var b := DaysWith(dias, codes) - {dia};
    forall d
      ensures d in a <==> d in b
    {
    }
  }

  /** Setting one day changes a recount by at most one: the old code leaves, the new one arrives. */
  lemma CountAfterSet(dias: map<nat, string>, dia: nat, valor: string, codes: set<string>)
    ensures CountIn(dias[dia := valor], codes)
         == CountIn(dias, codes) - Hit(dias, dia, codes) + (if valor in codes then 1 else 0)
  {
    DaysWithAfterSet(dias, dia, valor, codes);
    CardWithout(DaysWith(dias, codes), dia);
    CardWithout(DaysWith(dias[dia := valor], codes), dia);
  }

  /** The counters of `e` equal the recount of its days, by the edit's categories. */
  predicate Recounted(e: Empleado) {
    && e.puntuales == CountIn(e.dias, PUNTUAL)
    && e.tardanzas == CountIn(e.dias, TARDANZA)
    && e.faltas == CountIn(e.dias, FALTA)
    && e.diasExtras == CountIn(e.dias, EXTRA)
  }

  /** The deduction and final pay as the day edit computes them from the counters. */
  predicate PaidByEditRule(e: Empleado, penalty: int) {
    && e.descuentos == e.tardanzas * penalty + e.faltas * e.sueldoDiario
    && e.sueldoFinal == e.sueldoMensual - e.descuentos + e.diasExtras * e.sueldoDiario
  }

  predicate SameCounters(a: Empleado, b: Empleado) {
    a.puntuales == b.puntuales && a.tardanzas == b.tardanzas
    && a.faltas == b.faltas && a.diasExtras == b.diasExtras
  }

  /**
   * `handleDayChange` on one record: day `dia` becomes `valor`, the counter of
   * the old code goes down by one, that of the new code up by one, and the
   * deduction and final pay are recomputed. Nothing else in the record changes.
   */
  function ChangeDay(e: Empleado, dia: nat, valor: string, penalty: int): (r: Empleado)
    ensures r.dias == e.dias[dia := valor]
    ensures r.(dias := e.dias, puntuales := e.puntuales, tardanzas := e.tardanzas, faltas := e.faltas,
               diasExtras := e.diasExtras, descuentos := e.descuentos, sueldoFinal := e.sueldoFinal) == e
    ensures PaidByEditRule(r, penalty)
    ensures dia in e.dias && e.dias[dia] == valor ==> SameCounters(r, e)
  {
    var puntuales := e.puntuales - Hit(e.dias, dia, PUNTUAL) + (if valor in PUNTUAL then 1 else 0);
    var tardanzas := e.tardanzas - Hit(e.dias, dia, TARDANZA) + (if valor in TARDANZA then 1 else 0);
    var faltas := e.faltas - Hit(e.dias, dia, FALTA) + (if valor in FALTA then 1 else 0);
    var diasExtras := e.diasExtras - Hit(e.dias, dia, EXTRA) + (if valor in EXTRA then 1 else 0);
    var descuentos := tardanzas * penalty + faltas * e.sueldoDiario;
    var sueldoFinal := e.sueldoMensual - descuentos + diasExtras * e.sueldoDiario;
    e.(dias := e.dias[dia := valor], puntuales := puntuales, tardanzas := tardanzas, faltas := faltas,
       descuentos := descuentos, sueldoFinal := sueldoFinal, diasExtras := diasExtras)
  }

  /** If the counters were the recount of the days before the edit, they still are after it. */
  lemma ChangeDayKeepsRecount(e: Empleado, dia: nat, valor: string, penalty: int)
    requires Recounted(e)
    ensures Recounted(ChangeDay(e, dia, valor, penalty))
  {
    CountAfterSet(e.dias, dia, valor, PUNTUAL);
    CountAfterSet(e.dias, dia, valor, TARDANZA);
    CountAfterSet(e.dias, dia, valor, FALTA);
    CountAfterSet(e.dias, dia, valor, EXTRA);
  }

  /** On a recounted record, the pay after an edit depends on the days alone. */
  lemma ChangeDayPayFromDays(e: Empleado, dia: nat, valor: string, penalty: int)
    requires Recounted(e)
    ensures var r := ChangeDay(e, dia, valor, penalty);
      && r.descuentos == CountIn(r.dias, TARDANZA) * penalty + CountIn(r.dias, FALTA) * e.sueldoDiario
      && r.sueldoFinal == e.sueldoMensual - r.descuentos + CountIn(r.dias, EXTRA) * e.sueldoDiario
  {
    ChangeDayKeepsRecount(e, dia, valor, penalty);
  }

  /** Choosing the same code twice is the same as choosing it once. */
  lemma ChangeDayIdempotent(e: Empleado, dia: nat, valor: string, penalty: int)
    ensures ChangeDay(ChangeDay(e, dia, valor, penalty), dia, valor, penalty) == ChangeDay(e, dia, valor, penalty)
  {
    var r := ChangeDay(e, dia, valor, penalty);
    assert r.dias[dia := valor] == r.dias;
  }

  /** Putting a day back to its former code restores a record that was paid by the edit rule. */
  lemma ChangeDayUndo(e: Empleado, dia: nat, valor: string, penalty: int)
    requires dia in e.dias
    requires PaidByEditRule(e, penalty)
    ensures ChangeDay(ChangeDay(e, dia, valor, penalty), dia, e.dias[dia], penalty) == e
  {
    var r := ChangeDay(e, dia, valor, penalty);
    assert r.dias[dia := e.dias[dia]] == e.dias;
  }

  /** `handleDayChange` on the list: every record with code `codigo` is edited, the others are kept. */
  function ChangeDayFor(emps: seq<Empleado>, codigo: string, dia: nat, valor: string, penalty: int)
    : (r: seq<Empleado>)
    ensures |r| == |emps|
    ensures forall i :: 0 <= i < |emps| && emps[i].codigo != codigo ==> r[i] == emps[i]
    ensures forall i :: 0 <= i < |emps| && emps[i].codigo == codigo ==>
      r[i].dias == emps[i].dias[dia := valor] && PaidByEditRule(r[i], penalty)
      && r[i].codigo == codigo && r[i].archivoOrigen == emps[i].archivoOrigen && r[i].mes == emps[i].mes
    ensures forall i :: 0 <= i < |emps| && emps[i].codigo == codigo ==> r[i] == ChangeDay(emps[i], dia, valor, penalty)
  {
    seq(|emps|, i requires 0 <= i < |emps| =>
      if emps[i].codigo == codigo then ChangeDay(emps[i], dia, valor, penalty) else emps[i])
  }

  predicate AllRecounted(emps: seq<Empleado>) {
    forall i :: 0 <= i < |emps| ==> Recounted(emps[i])
  }

  /** The list edit keeps every record's counters equal to its recount. */
  lemma ChangeDayForKeepsRecount(emps: seq<Empleado>, codigo: string, dia: nat, valor: string, penalty: int)
    requires AllRecounted(emps)
    ensures AllRecounted(ChangeDayFor(emps, codigo, dia, valor, penalty))
  {
    var r := ChangeDayFor(emps, codigo, dia, valor, penalty);
    forall i | 0 <= i < |r|
      ensures Recounted(r[i])
    {
      if emps[i].codigo == codigo {
        ChangeDayKeepsRecount(emps[i], dia, valor, penalty);
      }
    }
  }
}
