/**
 * The toolbar above the todo list: the search box, the status and priority filter
 * dropdowns, and the task counts.
 */
module TodoToolbar {
  import opened Seqs
  import opened TodoTypes

  /** `handleFilterChange(key, value)`: which filter is set and to what. */
  datatype FilterChange = StatusTo(status: StatusFilter) | PriorityTo(priority: PriorityFilter)

  /** `{...filters, [key]: value}`. */
  function ApplyChange(f: Filters, c: FilterChange): (r: Filters)
    ensures c.StatusTo? ==> r.status == c.status && r.priority == f.priority
    ensures c.PriorityTo? ==> r.priority == c.priority && r.status == f.status
  {
    match c
    case StatusTo(s) => f.(status := s)
    case PriorityTo(p) => f.(priority := p)
  }

  /** Choosing the same entry twice is the same as choosing it once. */
  lemma ApplyChangeIdempotent(f: Filters, c: FilterChange)
    ensures ApplyChange(ApplyChange(f, c), c) == ApplyChange(f, c)
  {
  }

  /** The two dropdowns are independent: setting both, in either order, gives both. */
  lemma ChangesCommute(f: Filters, s: StatusFilter, p: PriorityFilter)
    ensures ApplyChange(ApplyChange(f, StatusTo(s)), PriorityTo(p)) == Filters(s, p)
    ensures ApplyChange(ApplyChange(f, PriorityTo(p)), StatusTo(s)) == Filters(s, p)
  {
  }

  /** `totalTodos - completedTodos`. */
  function ActiveTodos(total: int, completed: int): (n: int)
    ensures n + completed == total
  {
    total - completed
  }

  /** With the page's counts, the active count is the number of incomplete todos. */
  lemma ActiveCountsIncomplete(todos: seq<TodoItem>)
    ensures ActiveTodos(|todos|, CompletedCount(todos)) == Count(todos, IsIncomplete)
  {
    CountComplement(todos, IsCompleted, IsIncomplete);
  }

  /** The noun after the total. */
  function TaskLabel(total: int): (noun: string)
    ensures noun == "task" <==> total == 1
    ensures noun == "tasks" <==> total != 1
  {
    if total == 1 then "task" else "tasks"
  }

  class Toolbar {
    var searchQuery: string
    var filters: Filters
    var showStatusDropdown: bool
    var showPriorityDropdown: bool

    constructor ()
      ensures searchQuery == [] && filters == Filters(AllStatuses, AllPriorities)
      ensures !showStatusDropdown && !showPriorityDropdown
    {
      searchQuery := [];
      filters := InitialFilters;
      showStatusDropdown := false;
      showPriorityDropdown := false;
    }

    /** `handleSearch`: the query is stored and forwarded unchanged. */
    method HandleSearch(query: string) returns (forwarded: string)
      modifies this`searchQuery
      ensures searchQuery == query && forwarded == query
    {
      searchQuery := query;
      forwarded := query;
    }

    /**
     * `handleFilterChange`: only the chosen filter changes, `onFilter` receives exactly
     * what was stored, and both dropdowns close.
     */
    method HandleFilterChange(change: FilterChange) returns (emitted: Filters)
      modifies this`filters, this`showStatusDropdown, this`showPriorityDropdown
      ensures filters == ApplyChange(old(filters), change)
      ensures emitted == filters
      ensures !showStatusDropdown && !showPriorityDropdown
    {
      var newFilters := ApplyChange(filters, change);
      filters := newFilters;
      emitted := newFilters;
      showStatusDropdown := false;
      showPriorityDropdown := false;
    }

    method ToggleStatusDropdown()
      modifies this`showStatusDropdown
      ensures showStatusDropdown == !old(showStatusDropdown)
    {
      showStatusDropdown := !showStatusDropdown;
    }

    method TogglePriorityDropdown()
      modifies this`showPriorityDropdown
      ensures showPriorityDropdown == !old(showPriorityDropdown)
    {
      showPriorityDropdown := !showPriorityDropdown;
    }
  }
}
