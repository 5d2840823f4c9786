/**
 * The staff directory screen's state: the list of people, the form, the id
 * being edited and the search settings, with the handlers that replace them.
 * The clock (`Date.now()`, today's date) is passed in by the caller.
 */
module PeopleManagement {

  import opened Wrappers
  import opened Seqs
  import opened People
  import opened Text

  class Directory {
    var people: seq<Person>
    var personForm: Person
    var editing: Option<string>
    var searchTerm: string
    var filterField: string

    /** `if (editing)`: an id is being edited (an empty id counts as none). */
    predicate IsEditing()
      reads this
    {
      editing.Some? && editing.value != ""
    }

    /** While a record is being edited, the form carries that record's id. */
    predicate Valid()
      reads this
    {
      editing.Some? ==> personForm.id == editing.value
    }

    constructor (today: string)
      ensures people == [] && personForm == EmptyForm(today) && editing == None
      ensures searchTerm == "" && filterField == ALL_FIELDS
      ensures Valid()
    {
      people := [];
      personForm := EmptyForm(today);
      editing := None;
      searchTerm := "";
      filterField := ALL_FIELDS;
    }

    /** The edit button: the form takes the person, and the person's id is being edited. */
    method BeginEdit(p: Person)
      modifies this
      ensures personForm == p && editing == Some(p.id)
      ensures Valid()
      ensures people == old(people) && searchTerm == old(searchTerm) && filterField == old(filterField)
    {
      personForm := p;
      editing := Some(p.id);
    }

    /**
     * `handlePersonSubmit`: while editing, every record with the edited id
     * becomes the form; otherwise the form is appended under a fresh id. The
     * form is then cleared and nothing is being edited.
     */
    method Submit(stamp: string, today: string)
      requires Valid()
      modifies this
      ensures old(IsEditing()) ==> people == ReplaceById(old(people), old(editing).value, old(personForm))
      ensures old(IsEditing()) ==> |people| == |old(people)|
      ensures old(IsEditing()) ==> forall i :: 0 <= i < |people| ==> people[i].id == old(people)[i].id
      ensures old(IsEditing()) && (forall i :: 0 <= i < |old(people)| ==> old(people)[i].id != old(editing).value)
        ==> people == old(people)
      ensures !old(IsEditing()) ==> people == old(people) + [old(personForm).(id := stamp)]
      ensures personForm == EmptyForm(today) && editing == None
      ensures Valid()
      ensures searchTerm == old(searchTerm) && filterField == old(filterField)
    {
      if IsEditing() {
        if forall i :: 0 <= i < |people| ==> people[i].id != editing.value {
          ReplaceByIdAbsent(people, editing.value, personForm);
        }
        people := ReplaceById(people, editing.value, personForm);
      } else {
        people := people + [personForm.(id := stamp)];
      }
      personForm := EmptyForm(today);
      editing := None;
    }

    /** `handlePersonDelete`: once confirmed, the records with that id go; otherwise nothing changes. */
    method Delete(id: string, confirmed: bool)
      requires Valid()
      modifies this
      ensures confirmed ==> people == RemoveById(old(people), id)
      ensures confirmed ==> forall p :: p in people <==> p in old(people) && p.id != id
      ensures !confirmed ==> people == old(people)
      ensures personForm == old(personForm) && editing == old(editing)
      ensures searchTerm == old(searchTerm) && filterField == old(filterField)
      ensures Valid()
    {
      if confirmed {
        RemoveByIdExact(people, id);
        people := RemoveById(people, id);
      }
    }

    /** `handleImport`: the complete rows become people appended after the existing ones. */
    method Import(rows: seq<Row>, stamp: string, today: string)
      requires Valid()
      modifies this
      ensures people == old(people) + ImportPeople(rows, stamp, today)
      ensures |old(people)| <= |people| <= |old(people)| + |rows|
      ensures personForm == old(personForm) && editing == old(editing)
      ensures searchTerm == old(searchTerm) && filterField == old(filterField)
      ensures Valid()
    {
      people := people + ImportPeople(rows, stamp, today);
    }

    /** The search box. */
    method SetSearchTerm(term: string)
      requires Valid()
      modifies this
      ensures searchTerm == term
      ensures people == old(people) && personForm == old(personForm) && editing == old(editing)
      ensures filterField == old(filterField)
      ensures Valid()
    {
      searchTerm := term;
    }

    /** The field selector of the search. */
    method SetFilterField(field: string)
      requires Valid()
      modifies this
      ensures filterField == field
      ensures people == old(people) && personForm == old(personForm) && editing == old(editing)
      ensures searchTerm == old(searchTerm)
      ensures Valid()
    {
      filterField := field;
    }

    /** The people listed on screen. */
    function Filtered(): (r: seq<Person>)
      reads this
      ensures searchTerm == "" ==> r == people
      ensures Subseq(r, people)
      ensures searchTerm != "" ==> forall p :: p in r <==> p in people && MatchesTerm(p, filterField, Lower(searchTerm))
      ensures searchTerm != "" ==> forall p :: multiset(r)[p] == if MatchesTerm(p, filterField, Lower(searchTerm)) then multiset(people)[p] else 0
    {
      FilteredPeople(people, searchTerm, filterField)
    }

    /** The rows `handleExport` writes, one per person in order. */
    function Export(): (rows: seq<Row>)
      reads this
      ensures |rows| == |people|
      ensures forall i :: 0 <= i < |people| ==> rows[i] == ExportPerson(people[i])
    {
      ExportPeople(people)
    }
  }
}
