/** The event-request page of src/pages/Evenements.tsx: a form kept as a field dictionary, a
    duplicate-free selection of dish ids toggled by check boxes, the selected dishes sent in
    catalogue order, and the rule that enables the submit button. */
module Evenements {
  import opened Wrappers
  import opened Seqs
  import opened Calendar

  type DishId = int

  /** An entry of the event menu (`platsEvenements`). */
  datatype EventDish = EventDish(id: DishId, name: string, description: string)

  // ---------------------------------------------------------------------------------------
  // Dish selection (`togglePlatSelection`)

  /** The filter callback that drops `id`. */
  function Except(id: DishId): DishId -> bool {
    (x: DishId) => x != id
  }

  /** `togglePlatSelection`: a selected id is removed, any other id is appended. */
  function Toggle(selection: seq<DishId>, id: DishId): (r: seq<DishId>)
    ensures id !in selection ==> r == selection + [id]
    ensures id in selection ==> id !in r && IsSubsequence(r, selection)
    ensures forall x :: x != id ==> (x in r <==> x in selection)
  {
    if id in selection then
      var r := Filter(selection, Except(id));
      FilterIsSubsequence(selection, Except(id));
      assert forall x :: x in selection && x != id ==> x in r by {
        forall x | x in selection && x != id ensures x in r {
          var i :| 0 <= i < |selection| && selection[i] == x;
        }
      }
      r
    else selection + [id]
  }

  /** A toggle never creates a duplicate. */
  lemma ToggleKeepsNoDuplicates(selection: seq<DishId>, id: DishId)
    requires NoDuplicates(selection)
    ensures NoDuplicates(Toggle(selection, id))
  {
    if id in selection {
      FilterKeepsNoDuplicates(selection, Except(id));
    }
  }

  /** The selection after the check boxes `ids` were clicked in turn. */
  function ToggleAll(selection: seq<DishId>, ids: seq<DishId>): seq<DishId>
    decreases |ids|
  {
    if |ids| == 0 then selection else ToggleAll(Toggle(selection, ids[0]), ids[1..])
  }

  /** No sequence of clicks, from the empty initial selection or any duplicate-free one,
      produces a duplicate. */
  lemma {:induction false} ToggleAllKeepsNoDuplicates(selection: seq<DishId>, ids: seq<DishId>)
    requires NoDuplicates(selection)
    ensures NoDuplicates(ToggleAll(selection, ids))
    decreases |ids|
  {
    if |ids| > 0 {
      ToggleKeepsNoDuplicates(selection, ids[0]);
      ToggleAllKeepsNoDuplicates(Toggle(selection, ids[0]), ids[1..]);
    }
  }

  /** Clicking an unselected dish twice gives back exactly the original sequence. */
  lemma ToggleTwiceRestores(selection: seq<DishId>, id: DishId)
    requires id !in selection
    ensures Toggle(Toggle(selection, id), id) == selection
  {
    var once := selection + [id];
    assert id in once;
    FilterConcat(selection, [id], Except(id));
    FilterKeepsAll(selection, Except(id));
    assert Filter([id], Except(id)) == [] + Filter([id][1..], Except(id));
  }

  /** As a set, a toggle is the symmetric difference with {id}, so toggling twice is the
      identity. */
  lemma ToggleIsSymmetricDifference(selection: seq<DishId>, id: DishId)
    ensures (set x | x in Toggle(selection, id)) ==
            (set x | x in selection) - {id} + (if id in selection then {} else {id})
    ensures (set x | x in Toggle(Toggle(selection, id), id)) == (set x | x in selection)
  {
  }

  // ---------------------------------------------------------------------------------------
  // Selected dishes (`platsSelectionnesDetails` in `handleSubmit`)

  /** The filter callback `plat => platsSelectionnes.includes(plat.id)`. */
  function SelectedBy(selection: seq<DishId>): EventDish -> bool {
    (d: EventDish) => d.id in selection
  }

  /** The catalogue entries whose id is selected. */
  function SelectedDetails(catalogue: seq<EventDish>, selection: seq<DishId>): (r: seq<EventDish>)
    ensures forall i :: 0 <= i < |r| ==> r[i] in catalogue && r[i].id in selection
    ensures forall i :: 0 <= i < |catalogue| && catalogue[i].id in selection ==> catalogue[i] in r
  {
    var r := Filter(catalogue, SelectedBy(selection));
    assert forall i :: 0 <= i < |r| ==> SelectedBy(selection)(r[i]);
    r
  }

  /** The selected dishes come in catalogue order, and only the set of selected ids matters:
      the order in which boxes were ticked does not. */
  lemma DetailsFollowCatalogueOrder(catalogue: seq<EventDish>, s1: seq<DishId>, s2: seq<DishId>)
    requires forall x :: x in s1 <==> x in s2
    ensures IsSubsequence(SelectedDetails(catalogue, s1), catalogue)
    ensures SelectedDetails(catalogue, s1) == SelectedDetails(catalogue, s2)
  {
    FilterIsSubsequence(catalogue, SelectedBy(s1));
    FilterCongruence(catalogue, SelectedBy(s1), SelectedBy(s2));
  }

  /** Ticking and unticking a dish leaves the dishes sent unchanged. */
  lemma DoubleToggleKeepsDetails(catalogue: seq<EventDish>, selection: seq<DishId>, id: DishId)
    ensures SelectedDetails(catalogue, Toggle(Toggle(selection, id), id)) ==
            SelectedDetails(catalogue, selection)
  {
    var twice := Toggle(Toggle(selection, id), id);
    assert forall x :: x in twice <==> x in selection;
    DetailsFollowCatalogueOrder(catalogue, twice, selection);
  }

  // ---------------------------------------------------------------------------------------
  // Form fields (`handleInputChange`) and the submit button

  /** `formData`: field name to text. */
  type FormData = map<string, string>

  /** The initial (and reset) form. */
  const InitialForm: FormData := map[
    "nomEvenement" := "", "typeEvenement" := "", "nombrePersonnes" := "",
    "budgetClient" := "", "demandesSpeciales" := ""]

  /** `handleInputChange(field, value)`: `{ ...prev, [field]: value }`. */
  function InputChange(form: FormData, field: string, value: string): (r: FormData)
    ensures field in r && r[field] == value
    ensures forall k :: k != field ==> (k in r <==> k in form)
    ensures forall k :: k != field && k in form ==> r[k] == form[k]
  {
    form[field := value]
  }

  /** A later change of the same field overrides an earlier one; changes of different fields
      commute. */
  lemma InputChangesCombine(form: FormData, f1: string, v1: string, f2: string, v2: string)
    ensures f1 == f2 ==> InputChange(InputChange(form, f1, v1), f2, v2) == InputChange(form, f2, v2)
    ensures f1 != f2 ==>
      InputChange(InputChange(form, f1, v1), f2, v2) == InputChange(InputChange(form, f2, v2), f1, v1)
  {
  }

  /** The field holds a non-empty text (an empty string and a missing field are both falsy). */
  predicate Filled(form: FormData, field: string) {
    field in form && form[field] != ""
  }

  /** The submit button's `disabled` expression, negated. */
  function SubmitEnabled(isLoading: bool, form: FormData, date: Option<Date>): (b: bool)
    ensures b <==> !isLoading && date.Some? && Filled(form, "nomEvenement") &&
                   Filled(form, "typeEvenement") && Filled(form, "nombrePersonnes")
  {
    !(isLoading || !Filled(form, "nomEvenement") || !Filled(form, "typeEvenement") ||
      date.None? || !Filled(form, "nombrePersonnes"))
  }

  /** The budget and the special requests are optional: editing them never changes whether
      the form can be sent. */
  lemma OptionalFieldsDoNotMatter(isLoading: bool, form: FormData, date: Option<Date>, v: string)
    ensures SubmitEnabled(isLoading, InputChange(form, "budgetClient", v), date) ==
            SubmitEnabled(isLoading, form, date)
    ensures SubmitEnabled(isLoading, InputChange(form, "demandesSpeciales", v), date) ==
            SubmitEnabled(isLoading, form, date)
  {
  }

  // ---------------------------------------------------------------------------------------
  // Sending the request (`handleSubmit`)

  /** The React state of the page. */
  datatype EventPage = EventPage(
    isLoading: bool, date: Option<Date>, selection: seq<DishId>, form: FormData)

  /** The request `handleSubmit` sends (its `timestamp` is left out). */
  datatype EventRequest = EventRequest(form: FormData, date: Option<Date>, dishes: seq<EventDish>)

  /** `handleSubmit`: sends the form, the date and the selected dishes, then resets the page,
      which leaves the submit button disabled. */
  function HandleSubmit(page: EventPage, catalogue: seq<EventDish>): (out: (EventRequest, EventPage))
    ensures out.0.form == page.form && out.0.date == page.date
    ensures out.0.dishes == SelectedDetails(catalogue, page.selection)
    ensures out.1.selection == [] && out.1.date.None? && !out.1.isLoading
    ensures !SubmitEnabled(out.1.isLoading, out.1.form, out.1.date)
    ensures out.1.form == InitialForm
    ensures forall x :: x in out.1.form ==> out.1.form[x] == ""
  {
    var request := EventRequest(page.form, page.date, SelectedDetails(catalogue, page.selection));
    (request, EventPage(false, None, [], InitialForm))
  }
}
