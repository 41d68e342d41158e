/**
 * The page-level coordinator: a refresh counter whose every increment makes
 * the list and the summary fetch again, the record being edited (if any),
 * and three filter selections. `AppState`, `Step` and `Run` are the
 * specification; the class `App` holds the same state in fields and has one
 * method per handler, each proved to move its state as `Step` does.
 */
module AppCoordinator {
  import opened Wrappers
  import opened Expenses
  import opened ExpenseFormLogic

  /** The three filter selections; the empty string means "no constraint". */
  datatype Selection = Selection(category: string, year: string, month: string)

  const NoSelection: Selection := Selection("", "", "")

  /** The keys of the filter map handed to the list. */
  const CategoryKey: string := "category"
  const YearKey: string := "year"
  const MonthKey: string := "month"

  datatype AppState = AppState(refreshKey: nat, expenseToEdit: Option<Expense>, selection: Selection)

  /** The state initialisers: counter 0, create mode, no filter. */
  function Initial(): AppState {
    AppState(0, None, NoSelection)
  }

  /** The handlers App passes down, and the list's onDataChange (which is triggerRefresh). */
  datatype Event =
    | Refresh
    | EditClick(expense: Expense)
    | CancelEdit
    | SaveComplete
    | CategoryChange(value: string)
    | YearChange(value: string)
    | MonthChange(value: string)
    | ClearFilters

  predicate IsFilterEvent(e: Event) {
    e.CategoryChange? || e.YearChange? || e.MonthChange? || e.ClearFilters?
  }

  /** triggerRefresh */
  function Refreshed(s: AppState): AppState {
    s.(refreshKey := s.refreshKey + 1, expenseToEdit := None)
  }

  /**
   * Setting the selections, then the filter effect: it runs triggerRefresh
   * when one of its three dependencies differs from the previous render.
   */
  function Select(s: AppState, sel: Selection): AppState {
    if sel == s.selection then s else Refreshed(s.(selection := sel))
  }

  /** One handler call. */
  function Step(s: AppState, e: Event): (t: AppState)
    ensures t.refreshKey == s.refreshKey || t.refreshKey == s.refreshKey + 1
    ensures t.refreshKey != s.refreshKey ==> t.expenseToEdit == None
    ensures t.selection != s.selection ==> t.refreshKey == s.refreshKey + 1
    ensures !IsFilterEvent(e) ==> t.selection == s.selection
    ensures e.EditClick? ==> t == s.(expenseToEdit := Some(e.expense))
    ensures e.CancelEdit? ==> t == s.(expenseToEdit := None)
    ensures e.Refresh? || e.SaveComplete? ==> t == Refreshed(s)
    ensures e.CategoryChange? ==> t.selection == s.selection.(category := e.value)
    ensures e.YearChange? ==> t.selection == s.selection.(year := e.value)
    ensures e.MonthChange? ==> t.selection == s.selection.(month := e.value)
    ensures e.ClearFilters? ==> t.selection == NoSelection
    ensures IsFilterEvent(e) && t.selection == s.selection ==> t == s
  {
    match e
    case Refresh => Refreshed(s)
    case EditClick(x) => s.(expenseToEdit := Some(x))
    case CancelEdit => s.(expenseToEdit := None)
    case SaveComplete => Refreshed(s)
    case CategoryChange(v) => Select(s, s.selection.(category := v))
    case YearChange(v) => Select(s, s.selection.(year := v))
    case MonthChange(v) => Select(s, s.selection.(month := v))
    case ClearFilters => Select(s, NoSelection)
  }

  /** A sequence of handler calls, in order. */
  function Run(s: AppState, evs: seq<Event>): AppState
    decreases |evs|
  {
    if evs == [] then s else Run(Step(s, evs[0]), evs[1..])
  }

  /** The counter never goes down, and goes up by at most one per handler call. */
  lemma {:induction false} RunKeyBounds(s: AppState, evs: seq<Event>)
    ensures s.refreshKey <= Run(s, evs).refreshKey <= s.refreshKey + |evs|
    decreases |evs|
  {
    if evs != [] {
      RunKeyBounds(Step(s, evs[0]), evs[1..]);
    }
  }

  /** From mount on, the counter is always positive. */
  lemma MountedKeyPositive(evs: seq<Event>)
    ensures Run(Step(Initial(), Refresh), evs).refreshKey >= 1
  {
    RunKeyBounds(Step(Initial(), Refresh), evs);
  }

  /** The selections change only when the counter does: the list never keeps showing stale filters. */
  lemma {:induction false} SelectionChangeForcesRefresh(s: AppState, evs: seq<Event>)
    ensures Run(s, evs).selection != s.selection ==> Run(s, evs).refreshKey > s.refreshKey
    decreases |evs|
  {
    if evs != [] {
      var t := Step(s, evs[0]);
      SelectionChangeForcesRefresh(t, evs[1..]);
      RunKeyBounds(t, evs[1..]);
    }
  }

  /** Handlers other than the filter handlers never touch the selections. */
  lemma {:induction false} SelectionOnlyByFilterEvents(s: AppState, evs: seq<Event>)
    requires forall i :: 0 <= i < |evs| ==> !IsFilterEvent(evs[i])
    ensures Run(s, evs).selection == s.selection
    decreases |evs|
  {
    if evs != [] {
      SelectionOnlyByFilterEvents(Step(s, evs[0]), evs[1..]);
    }
  }

  /** A record is being edited only if it was already, or an Edit click chose it. */
  lemma {:induction false} EditTargetOrigin(s: AppState, evs: seq<Event>)
    ensures Run(s, evs).expenseToEdit.Some? ==>
      Run(s, evs).expenseToEdit == s.expenseToEdit ||
      EditClick(Run(s, evs).expenseToEdit.value) in evs
    decreases |evs|
  {
    if evs != [] {
      var t := Step(s, evs[0]);
      EditTargetOrigin(t, evs[1..]);
      assert evs == [evs[0]] + evs[1..];
    }
  }

  class App {
    var refreshKey: nat
    var expenseToEdit: Option<Expense>
    var selectedCategory: string
    var selectedYear: string
    var selectedMonth: string

    function CurrentSelection(): Selection
      reads this
    {
      Selection(selectedCategory, selectedYear, selectedMonth)
    }

    function State(): AppState
      reads this
    {
      AppState(refreshKey, expenseToEdit, CurrentSelection())
    }

    /** The state initialisers, before any effect has run. */
    constructor ()
      ensures State() == Initial()
    {
      refreshKey := 0;
      expenseToEdit := None;
      selectedCategory := "";
      selectedYear := "";
      selectedMonth := "";
    }

    /** The filter effect's first run, right after mounting. */
    method Mount()
      modifies this
      ensures refreshKey == old(refreshKey) + 1 && expenseToEdit == None
      ensures CurrentSelection() == old(CurrentSelection())
      ensures State() == Step(old(State()), Refresh)
    {
      TriggerRefresh();
    }

    method TriggerRefresh()
      modifies this
      ensures refreshKey == old(refreshKey) + 1 && expenseToEdit == None
      ensures CurrentSelection() == old(CurrentSelection())
      ensures State() == Step(old(State()), Refresh)
    {
      refreshKey := refreshKey + 1;
      expenseToEdit := None;
    }

    method HandleEditClick(expense: Expense)
      modifies this
      ensures expenseToEdit == Some(expense) && refreshKey == old(refreshKey)
      ensures CurrentSelection() == old(CurrentSelection())
      ensures State() == Step(old(State()), EditClick(expense))
    {
      expenseToEdit := Some(expense);
    }

    method HandleCancelEdit()
      modifies this
      ensures expenseToEdit == None && refreshKey == old(refreshKey)
      ensures CurrentSelection() == old(CurrentSelection())
      ensures State() == Step(old(State()), CancelEdit)
    {
      expenseToEdit := None;
    }

    method HandleSaveComplete()
      modifies this
      ensures refreshKey == old(refreshKey) + 1 && expenseToEdit == None
      ensures CurrentSelection() == old(CurrentSelection())
      ensures State() == Step(old(State()), SaveComplete)
    {
      TriggerRefresh();
    }

    /** The filter effect after a render: triggerRefresh if a dependency changed. */
    method FilterEffect(before: Selection)
      modifies this
      ensures CurrentSelection() == old(CurrentSelection())
      ensures before == CurrentSelection() ==> State() == old(State())
      ensures before != CurrentSelection() ==> State() == Refreshed(old(State()))
    {
      if before != CurrentSelection() {
        TriggerRefresh();
      }
    }

    method HandleCategoryChange(value: string)
      modifies this
      ensures selectedCategory == value
      ensures selectedYear == old(selectedYear) && selectedMonth == old(selectedMonth)
      ensures value == old(selectedCategory) ==>
        refreshKey == old(refreshKey) && expenseToEdit == old(expenseToEdit)
      ensures value != old(selectedCategory) ==>
        refreshKey == old(refreshKey) + 1 && expenseToEdit == None
      ensures State() == Step(old(State()), CategoryChange(value))
    {
      var before := CurrentSelection();
      selectedCategory := value;
      FilterEffect(before);
    }

    method HandleYearChange(value: string)
      modifies this
      ensures selectedYear == value
      ensures selectedCategory == old(selectedCategory) && selectedMonth == old(selectedMonth)
      ensures value == old(selectedYear) ==>
        refreshKey == old(refreshKey) && expenseToEdit == old(expenseToEdit)
      ensures value != old(selectedYear) ==>
        refreshKey == old(refreshKey) + 1 && expenseToEdit == None
      ensures State() == Step(old(State()), YearChange(value))
    {
      var before := CurrentSelection();
      selectedYear := value;
      FilterEffect(before);
    }

    method HandleMonthChange(value: string)
      modifies this
      ensures selectedMonth == value
      ensures selectedCategory == old(selectedCategory) && selectedYear == old(selectedYear)
      ensures value == old(selectedMonth) ==>
        refreshKey == old(refreshKey) && expenseToEdit == old(expenseToEdit)
      ensures value != old(selectedMonth) ==>
        refreshKey == old(refreshKey) + 1 && expenseToEdit == None
      ensures State() == Step(old(State()), MonthChange(value))
    {
      var before := CurrentSelection();
      selectedMonth := value;
      FilterEffect(before);
    }

    /** The three setters are batched into one render, so the effect runs at most once. */
    method ClearFilters()
      modifies this
      ensures selectedCategory == "" && selectedYear == "" && selectedMonth == ""
      ensures old(CurrentSelection()) == NoSelection ==> State() == old(State())
      ensures old(CurrentSelection()) != NoSelection ==>
        refreshKey == old(refreshKey) + 1 && expenseToEdit == None
      ensures State() == Step(old(State()), Event.ClearFilters)
    {
      var before := CurrentSelection();
      selectedCategory := "";
      selectedYear := "";
      selectedMonth := "";
      FilterEffect(before);
    }

    /** `currentFilters`: a key for each non-empty selection, holding that selection. */
    method CurrentFilters() returns (filters: map<string, string>)
      ensures filters.Keys <= {CategoryKey, YearKey, MonthKey}
      ensures CategoryKey in filters <==> selectedCategory != ""
      ensures YearKey in filters <==> selectedYear != ""
      ensures MonthKey in filters <==> selectedMonth != ""
      ensures CategoryKey in filters ==> filters[CategoryKey] == selectedCategory
      ensures YearKey in filters ==> filters[YearKey] == selectedYear
      ensures MonthKey in filters ==> filters[MonthKey] == selectedMonth
      ensures CurrentSelection() == NoSelection ==> filters == map[]
    {
      filters := map[];
      if selectedCategory != "" {
        filters := filters[CategoryKey := selectedCategory];
      }
      if selectedYear != "" {
        filters := filters[YearKey := selectedYear];
      }
      if selectedMonth != "" {
        filters := filters[MonthKey := selectedMonth];
      }
    }

    /**
     * The form as App wires it: its edit target is App's, its onSaveComplete
     * is handleSaveComplete. Only a successful save refreshes and leaves edit
     * mode; a rejected or failed one leaves App's state as it was.
     */
    method SubmitForm(form: ExpenseForm, parse: string -> Option<real>, outcome: Outcome)
      returns (s: Submission)
      requires form.expenseToEdit == expenseToEdit && form.hasSaveCallback
      modifies this
      ensures s.request.Some? <==> Validate(form.Fields(), parse).Accepted?
      ensures s.request.Some? ==> s.request.value.payload == Validate(form.Fields(), parse).payload
      ensures s.request.Some? ==> (s.request.value.Update? <==> old(expenseToEdit).Some?)
      ensures s.request.Some? && old(expenseToEdit).Some? ==>
        s.request.value.id == old(expenseToEdit).value.id
      ensures s.request.Some? ==>
        s.notice == (if outcome.Success? then Saved(outcome.returnedTitle) else SaveFailed)
      ensures s.request.None? ==>
        s.notice == (if AnyRequiredEmpty(form.Fields()) then FillRequired else AmountNotPositive)
      ensures s.saveCompleted <==> Validate(form.Fields(), parse).Accepted? && outcome.Success?
      ensures s.saveCompleted ==> State() == Step(old(State()), SaveComplete)
      ensures !s.saveCompleted ==> State() == old(State())
      ensures form.Fields() == old(form.Fields())
    {
      s := form.Submit(parse, outcome);
      if s.saveCompleted {
        HandleSaveComplete();
      }
    }
  }
}
