/**
 * The contract table: the full collection `allAppointments`, the view
 * `appointments` derived from it, the selection and the bulk actions on it,
 * and the pagination state.
 */
module AppointmentTable {
  import opened Options
  import opened Strings
  import opened Seqs
  import opened Appointments
  import opened FilterPanel
  import opened FilterEngine
  import opened Pagination
  import opened Columns

  // ---------------------------------------------------------------- selection

  predicate IsSelected(a: Appointment) {
    a.isSelected
  }

  predicate IsUnselected(a: Appointment) {
    !a.isSelected
  }

  /** `appointments.filter(a => a.isSelected)`. */
  function Selected(view: seq<Appointment>): (r: seq<Appointment>)
    ensures forall x :: x in r <==> x in view && x.isSelected
  {
    Filter(IsSelected, view)
  }

  /** The result of `checkSelectedStatus`. */
  datatype Status = Status(count: nat, allActivated: bool, allDeactivated: bool)

  /** `checkSelectedStatus`: how many rows are selected, and whether all of them are (de)activated. */
  function SelectionStatus(view: seq<Appointment>): (st: Status)
    ensures st.count == |Selected(view)|
    ensures st.count == 0 ==> st == Status(0, false, false)
    ensures st.allActivated <==> st.count > 0 && forall x :: x in view && x.isSelected ==> x.isActivated
    ensures st.allDeactivated <==> st.count > 0 && forall x :: x in view && x.isSelected ==> !x.isActivated
  {
    var sel := Selected(view);
    if |sel| == 0 then Status(0, false, false)
    else
      assert sel[0] in sel;
      Status(|sel|, forall x | x in sel :: x.isActivated, forall x | x in sel :: !x.isActivated)
  }

  /** A selection holding both an activated and a deactivated row allows neither bulk action. */
  lemma MixedSelectionAllowsNeither(view: seq<Appointment>, on: Appointment, off: Appointment)
    requires on in view && on.isSelected && on.isActivated
    requires off in view && off.isSelected && !off.isActivated
    ensures SelectionStatus(view).count >= 2
    ensures !SelectionStatus(view).allActivated && !SelectionStatus(view).allDeactivated
  {
    var sel := Selected(view);
    assert on in sel && off in sel && on != off;
  }

  /** The activate button proceeds exactly when something is selected and every selected row is deactivated. */
  predicate MayActivate(view: seq<Appointment>) {
    var st := SelectionStatus(view);
    st.count > 0 && st.allDeactivated
  }

  /** The deactivate button proceeds exactly when something is selected and every selected row is activated. */
  predicate MayDeactivate(view: seq<Appointment>) {
    var st := SelectionStatus(view);
    st.count > 0 && st.allActivated
  }

  lemma ActivationGates(view: seq<Appointment>)
    ensures MayActivate(view) <==>
      (exists x :: x in view && x.isSelected) && forall x :: x in view && x.isSelected ==> !x.isActivated
    ensures MayDeactivate(view) <==>
      (exists x :: x in view && x.isSelected) && forall x :: x in view && x.isSelected ==> x.isActivated
    ensures !(MayActivate(view) && MayDeactivate(view))
  {
    var sel := Selected(view);
    if |sel| > 0 {
      assert sel[0] in sel;
    }
  }

  // ---------------------------------------------------------------- patches the handlers write

  function ActivationOfSelected(b: bool): Appointment -> Appointment {
    (a: Appointment) => if a.isSelected then a.(isActivated := b) else a
  }

  function ActivationOfIds(ids: set<string>, b: bool): Appointment -> Appointment {
    (a: Appointment) => if a.id in ids then a.(isActivated := b) else a
  }

  function SelectionOfIds(ids: set<string>, b: bool): Appointment -> Appointment {
    (a: Appointment) => if a.id in ids then a.(isSelected := b) else a
  }

  function HasIdOutside(ids: set<string>): Appointment -> bool {
    (a: Appointment) => a.id !in ids
  }

  function HasIdIn(ids: set<string>): Appointment -> bool {
    (a: Appointment) => a.id in ids
  }

  function Anything(): Appointment -> bool {
    (a: Appointment) => true
  }

  /** `handleActivate` / `handleDeactivate` on the view: the selected rows get `isActivated := b`. */
  function ActivateView(view: seq<Appointment>, b: bool): (r: seq<Appointment>)
    ensures |r| == |view|
    ensures forall i :: 0 <= i < |view| ==> r[i] == if view[i].isSelected then view[i].(isActivated := b) else view[i]
  {
    Map(ActivationOfSelected(b), view)
  }

  /** The same handlers on the full collection: the rows whose id is in `ids` get `isActivated := b`. */
  function ActivateAll(all: seq<Appointment>, ids: set<string>, b: bool): (r: seq<Appointment>)
    ensures |r| == |all|
    ensures forall i :: 0 <= i < |all| ==> r[i] == if all[i].id in ids then all[i].(isActivated := b) else all[i]
  {
    Map(ActivationOfIds(ids, b), all)
  }

  /** `allAppointments.filter(a => !selectedIds.has(a.id))`. */
  function DeleteAll(all: seq<Appointment>, ids: set<string>): (r: seq<Appointment>)
    ensures forall x :: x in r <==> x in all && x.id !in ids
    ensures multiset(r) + multiset(Filter(HasIdIn(ids), all)) == multiset(all)
  {
    FilterPartition(Anything(), HasIdOutside(ids), HasIdOutside(ids), HasIdIn(ids), all);
    FilterAllPass(Anything(), all);
    Filter(HasIdOutside(ids), all)
  }

  /** The rows of `s` whose id is in `ids` get `isSelected := b`. */
  function SelectIds(s: seq<Appointment>, ids: set<string>, b: bool): (r: seq<Appointment>)
    ensures |r| == |s|
    ensures forall i :: 0 <= i < |s| ==> r[i] == if s[i].id in ids then s[i].(isSelected := b) else s[i]
  {
    Map(SelectionOfIds(ids, b), s)
  }

  // ---------------------------------------------------------------- laws of the patches

  /** The filter never reads the selection flag. */
  lemma MatchesIgnoresSelection(a: Appointment, c: Criteria, b: bool)
    ensures Matches(a.(isSelected := b), c) == Matches(a, c)
  {
    var a' := a.(isSelected := b);
    forall g | IsFilteredField(g) ensures FieldPasses(a', c, g) == FieldPasses(a, c, g) {
      FieldReadsRecordFields(a', a, c, g);
    }
    MatchesIsEveryField(a, c);
    MatchesIsEveryField(a', c);
  }

  /** The filter reads the activation flag only through the `isActivated` criterion. */
  lemma MatchesIgnoresActivation(a: Appointment, c: Criteria, b: bool)
    requires Value(c, IsActivated) == ""
    ensures Matches(a.(isActivated := b), c) == Matches(a, c)
  {
    var a' := a.(isActivated := b);
    forall g | IsFilteredField(g) ensures FieldPasses(a', c, g) == FieldPasses(a, c, g) {
      if g != IsActivated {
        FieldReadsRecordFields(a', a, c, g);
      }
    }
    MatchesIsEveryField(a, c);
    MatchesIsEveryField(a', c);
  }

  /** On a derived view, a selected id is the id of that selected row only. */
  lemma SelectedIdIsSelectedRow(all: seq<Appointment>, view: seq<Appointment>, x: Appointment)
    requires IdsIdentify(all) && (forall y :: y in view ==> y in all)
    requires x in view && x.id in Ids(Selected(view))
    ensures x.isSelected
  {
    var y :| y in Selected(view) && y.id == x.id;
  }

  /**
   * The direct patch of `handleActivate` / `handleDeactivate` gives the view
   * the re-derive effect then computes, as long as ids identify records and
   * the filter does not constrain `isActivated`.
   */
  lemma ActivatePatchAgreesWithRederive(all: seq<Appointment>, current: Option<Criteria>, b: bool)
    requires IdsIdentify(all)
    requires current.Some? ==> Value(current.value, IsActivated) == ""
    ensures var view := Derive(all, current);
      ActivateView(view, b) == Derive(ActivateAll(all, Ids(Selected(view)), b), current)
  {
    var view := Derive(all, current);
    var ids := Ids(Selected(view));
    var f, g := ActivationOfSelected(b), ActivationOfIds(ids, b);
    forall i | 0 <= i < |view| ensures f(view[i]) == g(view[i]) {
      assert view[i] in view;
      if view[i].id in ids {
        SelectedIdIsSelectedRow(all, view, view[i]);
      }
    }
    MapCongruent(f, g, view);
    if current.Some? {
      var c := current.value;
      forall x | x in all ensures Matching(c)(g(x)) == Matching(c)(x) {
        MatchesIgnoresActivation(x, c, b);
      }
      FilterMap(Matching(c), g, g, all);
    }
  }

  /** Criteria that hold only `isActivated 等于 'true'`. */
  function ActivatedOnly(): Criteria {
    Criteria(map[IsActivated := "true"], map[IsActivated := OpEquals])
  }

  lemma ActivatedOnlyKeepsActivated(a: Appointment)
    ensures Matches(a, ActivatedOnly()) == a.isActivated
  {
    var c := ActivatedOnly();
    forall g | IsFilteredField(g) && g != IsActivated ensures FieldPasses(a, c, g) {
      UnconstrainedFieldPasses(a, c, g);
    }
    MatchesIsEveryField(a, c);
    assert FieldPasses(a, c, IsActivated) == ActivatedPasses(a.isActivated, OpEquals, "true");
  }

  /** A filter on `isActivated` makes the direct patch differ from the re-derived view. */
  lemma ActivatedOnlyOnSingleton(r: Appointment)
    ensures Derive([r], Some(ActivatedOnly())) == if r.isActivated then [r] else []
  {
    ActivatedOnlyKeepsActivated(r);
    if r.isActivated {
      FilterAllPass(Matching(ActivatedOnly()), [r]);
    } else {
      FilterNonePass(Matching(ActivatedOnly()), [r]);
    }
  }

  lemma ActivatePatchDiffersUnderActivationFilter(r: Appointment)
    requires r.isSelected && r.isActivated
    ensures var all := [r];
      Derive(all, Some(ActivatedOnly())) == all
      && ActivateView(all, false) == [r.(isActivated := false)]
      && Derive(ActivateAll(all, Ids(Selected(all)), false), Some(ActivatedOnly())) == []
  {
    ActivatedOnlyOnSingleton(r);
    PatchesOfSingleSelected(r, false);
    ActivatedOnlyOnSingleton(r.(isActivated := false));
  }

  /** On a one-row collection whose row is selected, both patches set that row's flag. */
  lemma PatchesOfSingleSelected(r: Appointment, b: bool)
    requires r.isSelected
    ensures ActivateView([r], b) == [r.(isActivated := b)]
    ensures ActivateAll([r], Ids(Selected([r])), b) == [r.(isActivated := b)]
  {
    var all := [r];
    assert r in Selected(all);
    var ids := Ids(Selected(all));
    assert r.id in ids;
    var all' := ActivateAll(all, ids, b);
    assert all'[0] == r.(isActivated := b);
  }

  /** The direct patch of `handleDelete` gives the view the re-derive effect then computes. */
  lemma DeletePatchAgreesWithRederive(all: seq<Appointment>, current: Option<Criteria>)
    requires IdsIdentify(all)
    ensures var view := Derive(all, current);
      Filter(IsUnselected, view) == Derive(DeleteAll(all, Ids(Selected(view))), current)
  {
    var view := Derive(all, current);
    var ids := Ids(Selected(view));
    match current {
      case None =>
        forall x | x in all ensures IsUnselected(x) == HasIdOutside(ids)(x) {
          if x.id in ids {
            SelectedIdIsSelectedRow(all, view, x);
          }
        }
        FilterCongruent(IsUnselected, HasIdOutside(ids), all);
      case Some(c) =>
        var m := Matching(c);
        forall x | x in all
          ensures (IsUnselected(x) && m(x)) == (m(x) && HasIdOutside(ids)(x))
        {
          if m(x) {
            assert x in view;
            if x.isSelected {
              assert x in Selected(view);
            } else if x.id in ids {
              SelectedIdIsSelectedRow(all, view, x);
            }
          }
        }
        FilterTwiceCongruent(IsUnselected, m, m, HasIdOutside(ids), all);
    }
  }

  /** Toggling the selection never changes which records the filter keeps. */
  lemma SelectionPatchCommutesWithFilter(all: seq<Appointment>, current: Option<Criteria>, ids: set<string>, b: bool)
    ensures Derive(SelectIds(all, ids, b), current) == SelectIds(Derive(all, current), ids, b)
  {
    if current.Some? {
      var c := current.value;
      var g := SelectionOfIds(ids, b);
      forall x | x in all ensures Matching(c)(g(x)) == Matching(c)(x) {
        MatchesIgnoresSelection(x, c, b);
      }
      FilterMap(Matching(c), g, g, all);
    }
  }

  /** After an add, the re-derived view is the old one with the new record at the end when the filter keeps it. */
  lemma AddThenRederive(all: seq<Appointment>, current: Option<Criteria>, added: Appointment)
    ensures Derive(all + [added], current)
         == Derive(all, current) + (if current.None? || Matches(added, current.value) then [added] else [])
  {
    if current.Some? {
      var c := current.value;
      FilterConcat(Matching(c), all, [added]);
      FilterSingleton(Matching(c), added);
    }
  }

  /** `a.id === updated.id ? updated : a` over the full collection. */
  function EditAll(all: seq<Appointment>, updated: Appointment): (r: seq<Appointment>)
    ensures |r| == |all|
    ensures forall i :: 0 <= i < |all| ==> r[i] == if all[i].id == updated.id then updated else all[i]
  {
    Map((a: Appointment) => if a.id == updated.id then updated else a, all)
  }

  /** `a.isSelected ? updated : a` over the view. */
  function EditView(view: seq<Appointment>, updated: Appointment): (r: seq<Appointment>)
    ensures |r| == |view|
    ensures forall i :: 0 <= i < |view| ==> r[i] == if view[i].isSelected then updated else view[i]
  {
    Map((a: Appointment) => if a.isSelected then updated else a, view)
  }

  /** An edit whose id matches no record leaves the full collection as it was. */
  lemma EditOfUnknownIdChangesNothing(all: seq<Appointment>, updated: Appointment)
    requires forall x :: x in all ==> x.id != updated.id
    ensures EditAll(all, updated) == all
  {
    var r := EditAll(all, updated);
    forall i | 0 <= i < |all| ensures r[i] == all[i] {
      assert all[i] in all;
    }
  }

  /**
   * The edit-save view patch writes the edited record over every selected
   * row, while the full collection changes only the row with its id: with two
   * rows selected the view briefly shows the edited record twice.
   */
  lemma EditPatchOverwritesEverySelectedRow(x: Appointment, y: Appointment, updated: Appointment)
    requires x.isSelected && y.isSelected && x.id != y.id && updated.id == x.id
    ensures EditView([x, y], updated.(isSelected := true)) == [updated.(isSelected := true), updated.(isSelected := true)]
    ensures EditAll([x, y], updated.(isSelected := true)) == [updated.(isSelected := true), y]
  {
  }

  // ---------------------------------------------------------------- the default columns

  /** The eleven columns the table starts with, in display order. */
  const DefaultColumns: seq<ColumnConfig> := [
    ColumnConfig("id", "船公司约号", true, 0),
    ColumnConfig("line", "适用航线", true, 1),
    ColumnConfig("shippingCompany", "船公司", true, 2),
    ColumnConfig("priceNature", "约价性质", true, 3),
    ColumnConfig("isNAC", "是否NAC", true, 4),
    ColumnConfig("nac", "NAC", true, 5),
    ColumnConfig("applicableProducts", "适用品名", true, 6),
    ColumnConfig("mqc", "MQC", true, 7),
    ColumnConfig("cabinProtection", "舱保", true, 8),
    ColumnConfig("validPeriod", "有效期", true, 9),
    ColumnConfig("isActivated", "是否启用", true, 10)
  ]

  /** The pending confirmation: which handler the confirm dialog will run. */
  datatype BulkAction = DeleteAction | ActivateAction | DeactivateAction

  /** What `handleEdit` does with the current selection. */
  datatype EditOutcome = EditorOpened | TooManySelected | NothingSelected

  // ---------------------------------------------------------------- the component state

  class Table {
    var all: seq<Appointment>
    var view: seq<Appointment>
    var currentFilters: Option<Criteria>
    var currentPage: nat
    var pageSize: nat
    var totalPages: nat
    var paginated: seq<Appointment>
    var goToPage: string
    var columnConfigs: seq<ColumnConfig>
    var isAddMode: bool
    var isModalOpen: bool
    var selectedAppointment: Option<Appointment>
    var pending: Option<BulkAction>

    ghost predicate Valid()
      reads this
    {
      pageSize > 0 && currentPage >= 1 && totalPages >= 1
    }

    /** The pagination effect has run on the current view. */
    ghost predicate Paged()
      reads this
    {
      Valid()
      && totalPages == TotalPages(|view|, pageSize)
      && currentPage == SettledPage(currentPage, |view|, pageSize)
      && paginated == PageItems(view, currentPage, pageSize)
    }

    /** Both effects have run: the view is derived from the full collection and paged. */
    ghost predicate Settled()
      reads this
    {
      Paged() && view == Derive(all, currentFilters)
    }

    /** Mounting: the view is the full collection and the first page is shown. */
    constructor(seed: seq<Appointment>)
      ensures all == seed && view == seed && currentFilters.None?
      ensures columnConfigs == DefaultColumns && pageSize == 10 && currentPage == 1
      ensures !isAddMode && !isModalOpen && selectedAppointment.None? && pending.None? && goToPage == ""
      ensures Settled()
    {
      all := seed;
      view := seed;
      currentFilters := None;
      currentPage := 1;
      pageSize := 10;
      totalPages := TotalPages(|seed|, 10);
      paginated := PageItems(seed, 1, 10);
      goToPage := "";
      columnConfigs := DefaultColumns;
      isAddMode := false;
      isModalOpen := false;
      selectedAppointment := None;
      pending := None;
    }

    // -------------------------------------------------------------- what a handler leaves alone

    /** The full collection, the view and the applied filter are as they were. */
    twostate predicate StoreKept()
      reads this
    {
      all == old(all) && view == old(view) && currentFilters == old(currentFilters)
    }

    /** The page, the page size, the page count, the page slice and the go-to text are as they were. */
    twostate predicate PagingKept()
      reads this
    {
      currentPage == old(currentPage) && pageSize == old(pageSize) && totalPages == old(totalPages)
      && paginated == old(paginated) && goToPage == old(goToPage)
    }

    /** The editor dialog's fields are as they were. */
    twostate predicate EditorKept()
      reads this
    {
      isAddMode == old(isAddMode) && isModalOpen == old(isModalOpen)
      && selectedAppointment == old(selectedAppointment)
    }

    // -------------------------------------------------------------- the two effects

    /** The effect on `allAppointments`: re-apply the current filter, or show everything. */
    method Rederive()
      modifies this`view
      ensures view == Derive(all, currentFilters)
      ensures all == old(all) && currentFilters == old(currentFilters)
      ensures PagingKept() && EditorKept() && columnConfigs == old(columnConfigs) && pending == old(pending)
      ensures Valid() == old(Valid())
    {
      match currentFilters {
        case Some(c) => view := FilterRecords(all, c);
        case None => view := all;
      }
    }

    /**
     * The effect on `appointments`, `currentPage` and `pageSize`: recount the
     * pages, slice the current page, and go back to page 1 when the page is
     * past the end of a non-empty view (which runs the effect once more).
     */
    method Paginate()
      requires Valid()
      modifies this`totalPages, this`paginated, this`currentPage
      ensures Paged()
      ensures currentPage == SettledPage(old(currentPage), |view|, pageSize)
      ensures old(currentPage) > CeilDiv(|view|, pageSize) > 0 ==> currentPage == 1
      ensures StoreKept() && pageSize == old(pageSize) && goToPage == old(goToPage)
      ensures EditorKept() && columnConfigs == old(columnConfigs) && pending == old(pending)
    {
      var total := CeilDiv(|view|, pageSize);
      totalPages := if total == 0 then 1 else total;
      paginated := PageItems(view, currentPage, pageSize);
      if currentPage > total && total > 0 {
        currentPage := 1;
        paginated := PageItems(view, currentPage, pageSize);
      }
    }

    /** Every change to the full collection is followed by both effects. */
    method Refresh()
      requires Valid()
      modifies this`view, this`totalPages, this`paginated, this`currentPage
      ensures Settled()
      ensures currentPage == SettledPage(old(currentPage), |view|, pageSize)
      ensures old(currentPage) > CeilDiv(|view|, pageSize) > 0 ==> currentPage == 1
      ensures all == old(all) && currentFilters == old(currentFilters)
      ensures pageSize == old(pageSize) && goToPage == old(goToPage)
      ensures EditorKept() && columnConfigs == old(columnConfigs) && pending == old(pending)
    {
      Rederive();
      Paginate();
    }

    // -------------------------------------------------------------- filter and search

    /** `handleFilter`: remember the criteria and show the records that pass them. */
    method ApplyFilter(c: Criteria)
      modifies this`currentFilters, this`view
      ensures currentFilters == Some(c) && view == FilterRecords(all, c)
      ensures view == Derive(all, currentFilters)
      ensures all == old(all)
      ensures PagingKept() && EditorKept() && columnConfigs == old(columnConfigs) && pending == old(pending)
      ensures Valid() == old(Valid())
    {
      currentFilters := Some(c);
      view := FilterRecords(all, c);
    }

    /** `handleSearch`. */
    method Search(term: string)
      modifies this`view
      ensures view == FilterEngine.Search(all, currentFilters, term)
      ensures all == old(all) && currentFilters == old(currentFilters)
      ensures PagingKept() && EditorKept() && columnConfigs == old(columnConfigs) && pending == old(pending)
      ensures Valid() == old(Valid())
    {
      if IsBlank(term) {
        match currentFilters {
          case Some(c) => view := FilterRecords(all, c);
          case None => view := all;
        }
      } else {
        view := Filter(Hitting(term), all);
      }
    }

    // -------------------------------------------------------------- selection

    /**
     * `toggleSelection(index)`: flip the row at `(currentPage - 1) * pageSize + index`
     * of the view and give every record of the full collection with its id the
     * same flag. An index off the view changes nothing.
     */
    method ToggleSelection(index: int)
      modifies this`view, this`all
      ensures var k := (currentPage - 1) * pageSize + index;
        if 0 <= k < |old(view)| then
          var flag := !old(view)[k].isSelected;
          view == old(view)[k := old(view)[k].(isSelected := flag)]
          && all == SelectIds(old(all), {old(view)[k].id}, flag)
        else view == old(view) && all == old(all)
      ensures currentFilters == old(currentFilters)
      ensures PagingKept() && EditorKept() && columnConfigs == old(columnConfigs) && pending == old(pending)
      ensures Valid() == old(Valid())
    {
      var actualIndex := (currentPage - 1) * pageSize + index;
      if 0 <= actualIndex < |view| {
        var newStatus := !view[actualIndex].isSelected;
        var appointmentId := view[actualIndex].id;
        view := view[actualIndex := view[actualIndex].(isSelected := newStatus)];
        all := SelectIds(all, {appointmentId}, newStatus);
      }
    }

    /** `handleToggleSelectAll`: the rows of the current page are selected or cleared in both lists. */
    method ToggleSelectAll(checked: bool)
      modifies this`view, this`all
      ensures var ids := Ids(old(paginated));
        view == SelectIds(old(view), ids, checked) && all == SelectIds(old(all), ids, checked)
      ensures currentFilters == old(currentFilters)
      ensures PagingKept() && EditorKept() && columnConfigs == old(columnConfigs) && pending == old(pending)
      ensures Valid() == old(Valid())
    {
      var currentPageIds := Ids(paginated);
      view := SelectIds(view, currentPageIds, checked);
      all := SelectIds(all, currentPageIds, checked);
    }

    // -------------------------------------------------------------- opening the editor

    /** `handleAdd`. */
    method Add()
      modifies this`isAddMode, this`selectedAppointment, this`isModalOpen
      ensures isAddMode && selectedAppointment.None? && isModalOpen
      ensures StoreKept() && PagingKept() && columnConfigs == old(columnConfigs) && pending == old(pending)
      ensures Valid() == old(Valid()) && Settled() == old(Settled())
    {
      isAddMode := true;
      selectedAppointment := None;
      isModalOpen := true;
    }

    /** `handleEdit`: the editor opens only on exactly one selected row. */
    method Edit() returns (outcome: EditOutcome)
      modifies this`isAddMode, this`selectedAppointment, this`isModalOpen
      ensures var sel := Selected(view);
        (|sel| == 1 ==> outcome == EditorOpened && !isAddMode && selectedAppointment == Some(sel[0]) && isModalOpen)
        && (|sel| > 1 ==> outcome == TooManySelected)
        && (|sel| == 0 ==> outcome == NothingSelected)
      ensures outcome != EditorOpened ==> EditorKept()
      ensures StoreKept() && PagingKept() && columnConfigs == old(columnConfigs) && pending == old(pending)
      ensures Valid() == old(Valid()) && Settled() == old(Settled())
    {
      var selected := Selected(view);
      if |selected| == 1 {
        isAddMode := false;
        selectedAppointment := Some(selected[0]);
        isModalOpen := true;
        outcome := EditorOpened;
      } else if |selected| > 1 {
        outcome := TooManySelected;
      } else {
        outcome := NothingSelected;
      }
    }

    /**
     * `handleSaveAppointment`. Adding appends the record, unselected, to the
     * full collection; with a filter in force the view is filtered again from
     * the collection as it was before the append (the handler's closure), else
     * the record is appended to the view. Editing writes the record, selected,
     * over every selected view row and over the same-id record of the collection.
     */
    method SaveAppointment(appointment: Appointment)
      modifies this`all, this`view
      ensures isAddMode ==>
        all == old(all) + [appointment.(isSelected := false)]
        && (old(currentFilters).Some? ==> view == FilterRecords(old(all), old(currentFilters).value))
        && (old(currentFilters).None? ==> view == old(view) + [appointment.(isSelected := false)])
      ensures !isAddMode ==>
        view == EditView(old(view), appointment.(isSelected := true))
        && all == EditAll(old(all), appointment.(isSelected := true))
      ensures currentFilters == old(currentFilters)
      ensures PagingKept() && EditorKept() && columnConfigs == old(columnConfigs) && pending == old(pending)
      ensures Valid() == old(Valid())
    {
      if isAddMode {
        var newAppointment := appointment.(isSelected := false);
        var before := all;
        all := all + [newAppointment];
        match currentFilters {
          case Some(c) => view := FilterRecords(before, c);
          case None => view := view + [newAppointment];
        }
      } else {
        var updatedAppointment := appointment.(isSelected := true);
        view := EditView(view, updatedAppointment);
        all := EditAll(all, updatedAppointment);
      }
    }

    // -------------------------------------------------------------- bulk actions

    /** `handleDeleteClick`: ask for confirmation when something is selected. */
    method DeleteClick() returns (asked: bool)
      modifies this`pending
      ensures asked <==> |Selected(view)| > 0
      ensures pending == if asked then Some(DeleteAction) else old(pending)
      ensures StoreKept() && PagingKept() && EditorKept() && columnConfigs == old(columnConfigs)
      ensures Valid() == old(Valid()) && Settled() == old(Settled())
    {
      asked := |Selected(view)| > 0;
      if asked {
        pending := Some(DeleteAction);
      }
    }

    /** `handleActivateClick`: ask for confirmation only when every selected row is deactivated. */
    method ActivateClick() returns (asked: bool)
      modifies this`pending
      ensures asked <==> MayActivate(view)
      ensures pending == if asked then Some(ActivateAction) else old(pending)
      ensures StoreKept() && PagingKept() && EditorKept() && columnConfigs == old(columnConfigs)
      ensures Valid() == old(Valid()) && Settled() == old(Settled())
    {
      var status := SelectionStatus(view);
      if status.count == 0 {
        return false;
      }
      if !status.allDeactivated {
        return false;
      }
      pending := Some(ActivateAction);
      asked := true;
    }

    /** `handleDeactivateClick`: ask for confirmation only when every selected row is activated. */
    method DeactivateClick() returns (asked: bool)
      modifies this`pending
      ensures asked <==> MayDeactivate(view)
      ensures pending == if asked then Some(DeactivateAction) else old(pending)
      ensures StoreKept() && PagingKept() && EditorKept() && columnConfigs == old(columnConfigs)
      ensures Valid() == old(Valid()) && Settled() == old(Settled())
    {
      var status := SelectionStatus(view);
      if status.count == 0 {
        return false;
      }
      if !status.allActivated {
        return false;
      }
      pending := Some(DeactivateAction);
      asked := true;
    }

    /** The confirm dialog's cancel button. */
    method Cancel()
      modifies this`pending
      ensures pending.None?
      ensures StoreKept() && PagingKept() && EditorKept() && columnConfigs == old(columnConfigs)
      ensures Valid() == old(Valid()) && Settled() == old(Settled())
    {
      pending := None;
    }

    /**
     * `handleDelete`: drop the selected view rows and every record of the full
     * collection with a selected id; returns how many rows were selected.
     * With nothing selected it changes nothing, and the confirm dialog stays open.
     */
    method Delete() returns (count: nat)
      modifies this`view, this`all, this`pending
      ensures count == |Selected(old(view))|
      ensures count > 0 ==>
        view == Filter(IsUnselected, old(view)) && all == DeleteAll(old(all), Ids(Selected(old(view))))
        && pending.None?
      ensures count == 0 ==> view == old(view) && all == old(all) && pending == old(pending)
      ensures currentFilters == old(currentFilters)
      ensures PagingKept() && EditorKept() && columnConfigs == old(columnConfigs)
      ensures Valid() == old(Valid())
    {
      count := |Selected(view)|;
      if count > 0 {
        RemoveSelected();
      }
    }

    /** The branch of `handleDelete` that runs when something is selected. */
    method RemoveSelected()
      modifies this`view, this`all, this`pending
      ensures view == Filter(IsUnselected, old(view)) && all == DeleteAll(old(all), Ids(Selected(old(view))))
      ensures pending.None?
    {
      var selectedIds := Ids(Selected(view));
      view := Filter(IsUnselected, view);
      all := DeleteAll(all, selectedIds);
      pending := None;
    }

    /** `handleActivate` (`b` true) and `handleDeactivate` (`b` false). */
    method SetActivation(b: bool)
      modifies this`view, this`all, this`pending
      ensures var ids := Ids(Selected(old(view)));
        view == ActivateView(old(view), b) && all == ActivateAll(old(all), ids, b)
      ensures pending.None?
      ensures currentFilters == old(currentFilters)
      ensures PagingKept() && EditorKept() && columnConfigs == old(columnConfigs)
      ensures Valid() == old(Valid())
    {
      var selectedIds := Ids(Selected(view));
      view := ActivateView(view, b);
      all := ActivateAll(all, selectedIds, b);
      pending := None;
    }

    /**
     * The confirm dialog's confirm button runs the handler the click stored.
     * The dialog closes, except for a delete that finds nothing selected.
     */
    method Confirm() returns (deleted: nat)
      requires pending.Some?
      modifies this`view, this`all, this`pending
      ensures old(pending) == Some(DeleteAction) ==>
        deleted == |Selected(old(view))|
        && (deleted > 0 ==>
              view == Filter(IsUnselected, old(view)) && all == DeleteAll(old(all), Ids(Selected(old(view))))
              && pending.None?)
        && (deleted == 0 ==> view == old(view) && all == old(all) && pending == old(pending))
      ensures old(pending) != Some(DeleteAction) ==>
        var b := old(pending) == Some(ActivateAction);
        deleted == 0 && view == ActivateView(old(view), b) && all == ActivateAll(old(all), Ids(Selected(old(view))), b)
        && pending.None?
      ensures currentFilters == old(currentFilters)
      ensures PagingKept() && EditorKept() && columnConfigs == old(columnConfigs)
      ensures Valid() == old(Valid())
    {
      match pending.value {
        case DeleteAction => deleted := Delete();
        case ActivateAction => SetActivation(true); deleted := 0;
        case DeactivateAction => SetActivation(false); deleted := 0;
      }
    }

    /**
     * A confirmed bulk action followed by the two effects React runs on the
     * changed lists: the table settles on the new collection.
     */
    method ConfirmAndSettle() returns (deleted: nat)
      requires Valid() && pending.Some?
      modifies this`view, this`all, this`pending, this`totalPages, this`paginated, this`currentPage
      ensures Settled()
      ensures old(pending) == Some(DeleteAction) ==>
        deleted == |Selected(old(view))|
        && all == (if deleted > 0 then DeleteAll(old(all), Ids(Selected(old(view)))) else old(all))
      ensures old(pending) != Some(DeleteAction) ==>
        deleted == 0 && all == ActivateAll(old(all), Ids(Selected(old(view))), old(pending) == Some(ActivateAction))
      ensures pending == if old(pending) == Some(DeleteAction) && deleted == 0 then old(pending) else None
      ensures currentFilters == old(currentFilters) && pageSize == old(pageSize) && goToPage == old(goToPage)
      ensures EditorKept() && columnConfigs == old(columnConfigs)
    {
      deleted := Confirm();
      Refresh();
    }

    // -------------------------------------------------------------- paging handlers

    /** `handlePageChange`: a page outside `1 .. totalPages` is ignored. */
    method PageChange(page: int)
      requires Valid()
      modifies this`currentPage
      ensures currentPage == if 1 <= page <= old(totalPages) then page else old(currentPage)
      ensures Valid()
      ensures StoreKept() && pageSize == old(pageSize) && totalPages == old(totalPages)
      ensures paginated == old(paginated) && goToPage == old(goToPage)
      ensures EditorKept() && columnConfigs == old(columnConfigs) && pending == old(pending)
    {
      if page >= 1 && page <= totalPages {
        currentPage := page;
      }
    }

    /** `handlePageSizeChange`: the select's value is read with `parseInt`, and the page goes back to 1. */
    method PageSizeChange(value: string)
      requires Valid()
      requires ParseInt(value).Some? && ParseInt(value).value in PageSizes
      modifies this`pageSize, this`currentPage
      ensures pageSize == ParseInt(value).value && currentPage == 1
      ensures Valid()
      ensures StoreKept() && totalPages == old(totalPages) && paginated == old(paginated) && goToPage == old(goToPage)
      ensures EditorKept() && columnConfigs == old(columnConfigs) && pending == old(pending)
    {
      var parsed := ParseInt(value);
      pageSize := parsed.value;
      currentPage := 1;
    }

    /** `handleGoToPageChange`. */
    method GoToPageChange(text: string)
      modifies this`goToPage
      ensures goToPage == text
      ensures StoreKept() && currentPage == old(currentPage) && pageSize == old(pageSize)
      ensures totalPages == old(totalPages) && paginated == old(paginated)
      ensures EditorKept() && columnConfigs == old(columnConfigs) && pending == old(pending)
      ensures Valid() == old(Valid()) && Settled() == old(Settled())
    {
      goToPage := text;
    }

    /** `handleGoToPageSubmit`: jump when the typed text reads as a page in range, then clear it. */
    method GoToPageSubmit()
      requires Valid()
      modifies this`currentPage, this`goToPage
      ensures var p := ParseInt(old(goToPage));
        currentPage == if p.Some? && 1 <= p.value <= old(totalPages) then p.value else old(currentPage)
      ensures goToPage == "" && Valid()
      ensures StoreKept() && pageSize == old(pageSize) && totalPages == old(totalPages) && paginated == old(paginated)
      ensures EditorKept() && columnConfigs == old(columnConfigs) && pending == old(pending)
    {
      var page := ParseInt(goToPage);
      if page.Some? && page.value >= 1 && page.value <= totalPages {
        currentPage := page.value;
      }
      goToPage := "";
    }

    /** `getPageNumbers` on the current state. */
    method PageButtons() returns (pages: seq<int>)
      requires Valid()
      ensures |pages| == Min(5, totalPages)
      ensures pages[0] == Max(1, Min(currentPage - 2, totalPages - 4))
      ensures forall k :: 0 < k < |pages| ==> pages[k] == pages[k - 1] + 1
      ensures forall k :: 0 <= k < |pages| ==> 1 <= pages[k] <= totalPages
      ensures currentPage <= totalPages ==> currentPage in pages
    {
      pages := PageNumbers(currentPage, totalPages);
    }

    /** `handleColumnConfigChange`: the saved columns replace the table's columns. */
    method ColumnConfigChange(newConfigs: seq<ColumnConfig>)
      modifies this`columnConfigs
      ensures columnConfigs == newConfigs
      ensures StoreKept() && PagingKept() && EditorKept() && pending == old(pending)
      ensures Valid() == old(Valid()) && Settled() == old(Settled())
    {
      columnConfigs := newConfigs;
    }
  }

  // ---------------------------------------------------------------- laws of the settled state

  /** In a settled state the view is an order-preserving subsequence of the full collection. */
  lemma SettledViewIsSubsequence(all: seq<Appointment>, current: Option<Criteria>)
    ensures Subsequence(Derive(all, current), all)
    ensures forall x :: x in Derive(all, current) ==> x in all
  {
    match current {
      case None => SubsequenceOfItself(all);
      case Some(c) => FilterKeepsOrder(all, c);
    }
  }

  /**
   * The page reset waits for a non-empty view: the page stays where it was
   * when the view empties, so it may lie past the single page then counted.
   */
  lemma EmptyViewKeepsPage(page: nat, size: nat)
    requires size > 0 && page > 1
    ensures SettledPage(page, 0, size) == page && TotalPages(0, size) == 1
  {
  }

  /** On a non-empty view the settled page always lies within `1 .. totalPages`. */
  lemma SettledPageInRange(page: nat, n: nat, size: nat)
    requires size > 0 && n > 0 && page >= 1
    ensures 1 <= SettledPage(page, n, size) <= TotalPages(n, size)
  {
  }
}
