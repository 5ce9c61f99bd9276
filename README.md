# Task Manager core, modelled in Dafny

This project models the logic of the Task Manager web application: the todo page, its
components, the task dashboard, the task-room relay between browsers, the request
middleware and the session helpers. Each part is modelled in the form its source has:

- Pure computations are Dafny functions with lemmas about them. These cover the
  filtering and ordering of todos, the analytics figures, the task merge, `encodeURI`
  and the middleware decision.
- Components and hooks that keep state are classes. Their fields are that state, and
  their methods are the handlers: React `useState` setters become field assignments,
  and the `socketRef` ref becomes a field.
- Requests, clocks, random draws and token signing are parameters. A handler that awaits
  a `fetch` receives the request's outcome as an argument. It returns the request it
  would send, so its contract can state both.

Modules, one per source file (plus shared helpers):

| module | source |
|---|---|
| `Wrappers`, `Text`, `Seqs` | JavaScript built-ins the code relies on: optional values, `trim`, `toLowerCase`, `includes`, `startsWith`, `filter` |
| `TodoTypes`, `TodoList`, `TodoPage` | `deploymate/src/app/page.tsx` |
| `TodoForm` | `deploymate/src/app/components/TodoForm.tsx` |
| `TaskAnalytics` | `deploymate/src/app/components/TaskAnalytics.tsx` |
| `TodoToolbar` | `deploymate/src/app/components/TodoToolbar.tsx` |
| `TodoComponent` | `deploymate/src/app/components/Todo.tsx` |
| `SubtaskComponent` | `deploymate/src/app/components/Subtask.tsx` |
| `KeyboardShortcuts` | `deploymate/src/app/components/KeyboardShortcuts.tsx` |
| `Tasks` | `src/app/types/task.ts` |
| `Dashboard` | `deploymate/src/app/dashboard/page.tsx` |
| `SocketClient` | `deploymate/src/app/lib/socket/client.ts` |
| `SocketServer` | `deploymate/src/app/lib/socket/server.ts` |
| `Middleware` | `deploymate/src/middleware.ts` |
| `Auth` | `src/app/lib/auth/auth.ts` |

Modelling choices:

- Dates are integer millisecond timestamps. Where the code parses a date string, a
  `parseDate` parameter stands for `new Date(...)`.
- `toLowerCase` is ASCII case mapping. `trim` uses the full JavaScript white-space set.
- `Math.round` of a percentage is computed exactly on integers, rounding halves up.
  The page computes it in floating point, so the two can differ by one (see "Left out").
  `x > total * 0.3` is `10 * x > 3 * total`.
- The relay and the middleware import `decrypt` from a copy of the auth module that
  is not part of this model. The middleware uses `Auth.Decrypt`, as
  `src/app/lib/auth/auth.ts` defines it. The relay takes `decrypt` as a parameter whose
  outcome may also be an exception, since its handshake code catches one.

## Model

| member | source | states |
|---|---|---|
| Text.Trim | deploymate/src/app/components/TodoForm.tsx:42 | `trim` is empty iff the string is all white space; otherwise it starts and ends with a non-space; it is never longer |
| Text.IsBlank | deploymate/src/app/components/Subtask.tsx:63 | the `!x.trim()` test: every character is white space, the empty string included; `Trim` is empty exactly for these |
| Text.IsSpace | deploymate/src/app/components/TodoForm.tsx:42 | the characters `trim` removes: the JavaScript white-space and line-terminator set |
| Text.TrimStart | deploymate/src/app/components/TodoForm.tsx:42 | the result is a suffix of the string that is empty or starts with a non-space, and everything dropped is white space |
| Text.TrimEnd | deploymate/src/app/components/TodoForm.tsx:42 | the result is a prefix of the string that is empty or ends with a non-space, and everything dropped is white space |
| Text.Contains | deploymate/src/app/page.tsx:108 | `includes` holds iff the query occurs at some index |
| Text.StartsWith | deploymate/src/middleware.ts:13 | `startsWith`: the prefix fits in the string and equals its first characters |
| Text.Lower | deploymate/src/app/page.tsx:106 | `toLowerCase` maps each character and leaves no upper-case ASCII letter |
| Seqs.Filter | deploymate/src/app/page.tsx:107-110 | `filter` returns only elements that pass, and never more than it was given; `FilterMultiset` gives the multiplicities, `FilterAppend` the order |
| Seqs.FilterMultiset | deploymate/src/app/page.tsx:107-110 | `filter` keeps each element that passes, as often as it occurs, and no other |
| Seqs.FilterAppend | deploymate/src/app/page.tsx:107-110 | filtering a concatenation filters each part in place, so `filter` keeps the original order |
| Seqs.FilterKeepsAll | deploymate/src/app/page.tsx:107-110 | a filter every element passes returns the list itself |
| Seqs.FilterSame | deploymate/src/app/page.tsx:101-123 | predicates that agree on every value filter alike |
| Seqs.FilterTwice | deploymate/src/app/page.tsx:101-123 | filtering in two stages equals filtering once by the conjunction, in the same order |
| Seqs.FilterSwap | deploymate/src/app/page.tsx:126-157 | swapping neighbours that a filter does not both keep leaves the filtered list unchanged |
| Seqs.CountComplement | deploymate/src/app/components/TaskAnalytics.tsx:36-37 | what a filter keeps plus what its negation keeps is the whole list |
| Seqs.CountPartition3 | deploymate/src/app/components/TaskAnalytics.tsx:48-52 | three exclusive filters that cover the list count all of it |
| Seqs.CountDisjoint3 | deploymate/src/app/components/TaskAnalytics.tsx:48-52 | three exclusive filters never count more than the list |
| TodoTypes.CompletedCount | deploymate/src/app/page.tsx:480 | `todos.filter(t => t.completed).length`: the number of completed todos |
| TodoList.FindById | deploymate/src/app/page.tsx:260 | `find` gives nothing iff no todo has the id, else the first todo with it |
| TodoList.FindUnique | deploymate/src/app/page.tsx:346 | with unique ids, `find` returns exactly the todo with that id |
| TodoList.Prepend | deploymate/src/app/page.tsx:191 | the new todo comes first, followed by the old list |
| TodoList.PrependFind | deploymate/src/app/page.tsx:191 | a prepended todo is what `find` returns for its id |
| TodoList.ReplaceById | deploymate/src/app/page.tsx:240 | every todo with the id is replaced, every other one kept, length unchanged |
| TodoList.ReplaceThenFind | deploymate/src/app/page.tsx:240 | after a replace, the id finds the new todo and other ids find what they found before |
| TodoList.RemoveById | deploymate/src/app/page.tsx:329 | no todo with the id remains; every other todo stays as often as it was there; `RemoveByIdKeepsOrder` fixes the order |
| TodoList.RemoveByIdKeepsOrder | deploymate/src/app/page.tsx:329 | removal works part by part, so the remaining todos keep their order; a list without the id is unchanged |
| TodoList.RemoveCount | deploymate/src/app/page.tsx:329 | removal shrinks the list by the number of todos with that id, and `find` then fails |
| TodoList.ToggleSubtaskIn | deploymate/src/app/page.tsx:370-372 | only the `completed` flag of subtasks with the id flips; ids and titles stay |
| TodoList.ToggleSubtaskInvolution | deploymate/src/app/page.tsx:370-372 | toggling a subtask twice restores the list |
| TodoList.DeleteSubtaskIn | deploymate/src/app/page.tsx:387 | no subtask with the id remains; the others stay; `DeleteSubtaskInKeepsOrder` fixes the order |
| TodoList.DeleteSubtaskInKeepsOrder | deploymate/src/app/page.tsx:387 | deletion works part by part, keeping the order of the remaining subtasks; a list without the id is unchanged; deleting twice equals deleting once |
| TodoList.NewSubtask | deploymate/src/app/page.tsx:400-404 | a new subtask has the given id and title and is not completed |
| TodoList.SetSubtasks | deploymate/src/app/page.tsx:374-379 | only the subtasks of todos with the id are replaced |
| TodoList.ToggleSubtask | deploymate/src/app/page.tsx:366-381 | an unknown todo, or one without subtasks, changes nothing; otherwise every todo with the id gets the first such todo's subtasks with that subtask toggled, and no other todo changes |
| TodoList.DeleteSubtask | deploymate/src/app/page.tsx:383-394 | an unknown todo, or one without subtasks, changes nothing; otherwise every todo with the id gets the first such todo's subtasks without that subtask, and no other todo changes |
| TodoList.AddSubtask | deploymate/src/app/page.tsx:396-413 | only the chosen todo's subtasks change; an unknown todo changes nothing |
| TodoList.AddSubtaskAppends | deploymate/src/app/page.tsx:406 | with unique ids the new, uncompleted subtask is appended to that todo's list, a missing list counting as empty |
| TodoList.ToggleSubtaskTwice | deploymate/src/app/page.tsx:366-381 | with unique ids, toggling the same subtask twice restores the todos |
| TodoList.SetSubtasksAt | deploymate/src/app/page.tsx:374-379 | with unique ids, the `map` replaces the subtasks of exactly the todo with the id |
| TodoList.ToggleSubtaskAt | deploymate/src/app/page.tsx:366-381 | with unique ids, toggling replaces exactly that todo, by its subtasks with the subtask toggled |
| TodoList.DeleteSubtaskAt | deploymate/src/app/page.tsx:383-394 | with unique ids, deleting from the todo at an index replaces exactly that todo, by its subtasks without the subtask |
| TodoList.DeleteSubtaskTwice | deploymate/src/app/page.tsx:383-394 | with unique ids, deleting the same subtask twice equals deleting it once |
| TodoList.KeepsSearch | deploymate/src/app/page.tsx:105-111 | an empty query keeps all; a query keeps a todo iff it occurs, lower-cased, in the title or in a non-empty description |
| TodoList.KeepsStatus | deploymate/src/app/page.tsx:114-118 | 'completed' keeps exactly completed todos, 'active' exactly open ones, 'all' everything |
| TodoList.KeepsPriority | deploymate/src/app/page.tsx:121-123 | a priority filter keeps only that exact priority, so a todo without one is dropped by 'medium' though it sorts as medium |
| TodoList.MatchesSearch | deploymate/src/app/page.tsx:105-111 | the search test: an empty query, or the lower-cased query inside the lower-cased title or non-empty description |
| TodoList.PassesSearch | deploymate/src/app/page.tsx:105-111 | the search stage: an empty query passes everything, otherwise the lower-cased query must match |
| TodoList.MatchesStatus | deploymate/src/app/page.tsx:114-118 | the status test: completed for 'completed', open for 'active', anything otherwise |
| TodoList.MatchesPriority | deploymate/src/app/page.tsx:121-123 | the priority test: anything for 'all', else exactly that priority |
| TodoList.Keeps | deploymate/src/app/page.tsx:101-123 | a todo is kept iff it passes all three tests |
| TodoList.Keeper | deploymate/src/app/page.tsx:101-123 | the three tests as one predicate |
| TodoList.Kept | deploymate/src/app/page.tsx:101-123 | the todos of the list that pass the tests, in list order, each as often as it occurs |
| TodoList.EffectivePriority | deploymate/src/app/page.tsx:139-140 | a missing priority counts as medium |
| TodoList.Rank | deploymate/src/app/page.tsx:133-137 | the `priorityOrder` table: high 0, medium 1, low 2, so a lower rank sorts first |
| TodoList.Compare | deploymate/src/app/page.tsx:126-157 | the comparator: open before completed, then higher priority, then earlier due date, dated before undated, then newer first among undated |
| TodoList.SameSortKey | deploymate/src/app/page.tsx:126-157 | the fields the comparator looks at agree |
| TodoList.CompareZeroIffSameKey | deploymate/src/app/page.tsx:126-157 | the comparator returns 0 iff the two todos agree on every field it looks at |
| TodoList.CompareAntisymmetric | deploymate/src/app/page.tsx:126-157 | the comparator is antisymmetric |
| TodoList.CompareTransitive | deploymate/src/app/page.tsx:126-157 | the comparator's order is transitive |
| TodoList.SortedIncompleteFirst | deploymate/src/app/page.tsx:128-130 | in the sorted list no completed todo comes before an open one |
| TodoList.SortedByPriority | deploymate/src/app/page.tsx:139-144 | within the same completion state, high comes before medium before low, a missing priority counting as medium |
| TodoList.SortedTieBreaks | deploymate/src/app/page.tsx:147-156 | then earlier due dates first, dated before undated, and among undated the newest first |
| TodoList.TiesOf | deploymate/src/app/page.tsx:126-157 | the todos that rank equal to a given one, in their order |
| TodoList.StableFrom | deploymate/src/app/page.tsx:126-157 | stability: every class of equally ranked todos appears in the same order |
| TodoList.SwapKeepsTies | deploymate/src/app/page.tsx:126-157 | swapping neighbours that rank differently leaves every class of equals in place |
| TodoList.SwapStable | deploymate/src/app/page.tsx:126-157 | such a swap keeps the array stable with respect to what it was |
| TodoList.SwapNeighbours | deploymate/src/app/page.tsx:126-157 | swapping neighbours with different sort keys exchanges exactly those two, keeps the todos and is stable |
| TodoList.StableTrans | deploymate/src/app/page.tsx:126-157 | stability composes across steps |
| TodoList.SortedStableUnique | deploymate/src/app/page.tsx:126-157 | two sorted, stable arrangements of the same todos are equal, so a stable sort's result is fixed |
| TodoList.InsertInto | deploymate/src/app/page.tsx:126-157 | one insertion step: the prefix stays sorted, the array a permutation, and the order among equals kept |
| TodoList.SortTodos | deploymate/src/app/page.tsx:126-157 | `sort` leaves the array sorted by the comparator, a permutation of what it was, and stable: todos the comparator ranks equal keep their order |
| TodoList.SortedCopy | deploymate/src/app/page.tsx:126-157 | the sorted list is sorted, a permutation of its input, and stable |
| TodoList.SelectAndSort | deploymate/src/app/page.tsx:101-160 | the view holds exactly the todos that pass search, status and priority, each as often as in the list, sorted, with tied todos in list order |
| TodoPage.WithExtras | deploymate/src/app/page.tsx:182-188 | the server's fields are kept and the page-only fields are the given ones |
| TodoPage.DueOf | deploymate/src/app/page.tsx:184 | a due date is set iff the form carried one |
| TodoPage.Home.constructor | deploymate/src/app/page.tsx:37-61 | the initial page state: loading, nothing loaded, filters at 'all', dialog closed |
| TodoPage.Home.CompletedTodos | deploymate/src/app/page.tsx:480 | the completed count never exceeds the number of todos |
| TodoPage.Home.ApplyFilters | deploymate/src/app/page.tsx:101-160 | the filtered view is the kept todos of the list, sorted, with equally ranked todos in list order |
| TodoPage.Home.FetchTodos | deploymate/src/app/page.tsx:71-99 | success replaces the list by the server's todos, decorated, and clears the error; failure reports 'Failed to load todos'; loading ends |
| TodoPage.Home.AddTodo | deploymate/src/app/page.tsx:162-206 | sends title and description; success prepends the todo with the form's priority and due date, the tags and no subtasks |
| TodoPage.Home.UpdateTodo | deploymate/src/app/page.tsx:208-256 | nothing is sent unless a todo is being edited; success replaces it, keeps its tags and subtasks and ends editing |
| TodoPage.Home.ToggleTodo | deploymate/src/app/page.tsx:258-300 | an unknown id sends nothing; otherwise the todo is sent with `completed` negated, and success replaces it keeping the page-only fields |
| TodoPage.Home.DeleteTodo | deploymate/src/app/page.tsx:317-343 | success removes every todo with the id and reports it; failure reports 'Failed to delete todo' |
| TodoPage.Home.ConfirmDeleteTodo | deploymate/src/app/page.tsx:302-315 | an unknown id changes nothing; otherwise the dialog opens asking about that todo's title |
| TodoPage.DeleteQuestion | deploymate/src/app/page.tsx:309 | the question names the todo's title in quotes and says it cannot be undone |
| TodoPage.Home.ConfirmDialogAccept | deploymate/src/app/page.tsx:309-313 | confirming runs the pending delete and closes the dialog |
| TodoPage.Home.ConfirmDialogCancel | deploymate/src/app/page.tsx:613 | cancelling closes the dialog and nothing else |
| TodoPage.Home.HandleEditTodo | deploymate/src/app/page.tsx:345-352 | editing starts on the todo with the id, if there is one |
| TodoPage.Home.HandleCancelEdit | deploymate/src/app/page.tsx:354-356 | editing ends |
| TodoPage.Home.HandleSearch | deploymate/src/app/page.tsx:358-360 | the query is stored as given |
| TodoPage.Home.HandleFilter | deploymate/src/app/page.tsx:362-364 | the filters are stored as given |
| TodoPage.Home.HandleToggleSubtask | deploymate/src/app/page.tsx:366-381 | the todos become `ToggleSubtask` of the old ones |
| TodoPage.Home.HandleDeleteSubtask | deploymate/src/app/page.tsx:383-394 | the todos become `DeleteSubtask` of the old ones |
| TodoPage.Home.HandleAddSubtask | deploymate/src/app/page.tsx:396-413 | the todos become `AddSubtask` of the old ones |
| TodoPage.Home.ToggleAnalytics | deploymate/src/app/page.tsx:415-417 | the analytics panel flag flips |
| TodoForm.TextOrEmpty | deploymate/src/app/components/TodoForm.tsx:23-26 | a missing initial value is the empty string |
| TodoForm.PriorityOrMedium | deploymate/src/app/components/TodoForm.tsx:25 | a missing initial priority is medium |
| TodoForm.PriorityColorInjective | deploymate/src/app/components/TodoForm.tsx:71-82 | high, medium and low get three different colours |
| TodoForm.PriorityColor | deploymate/src/app/components/TodoForm.tsx:71-82 | red for high, yellow for medium, green for low |
| TodoForm.FormState.constructor | deploymate/src/app/components/TodoForm.tsx:23-28 | fields start from the initial data with their defaults, and no errors |
| TodoForm.FormState.SyncInitial | deploymate/src/app/components/TodoForm.tsx:30-37 | new initial data resets the fields with the same defaults; none changes nothing |
| TodoForm.FormState.Validate | deploymate/src/app/components/TodoForm.tsx:39-48 | valid iff the trimmed title is non-empty; errors are empty or exactly 'Title is required' on title |
| TodoForm.FormState.HandleSubmit | deploymate/src/app/components/TodoForm.tsx:50-69 | an invalid form submits nothing; otherwise it submits the fields, an empty due date as none, and resets them only when adding |
| TaskAnalytics.PercentIsNearest | deploymate/src/app/components/TaskAnalytics.tsx:45 | the rate is the integer nearest to 100·part/whole, halves up |
| TaskAnalytics.Percent | deploymate/src/app/components/TaskAnalytics.tsx:45 | the rounded percentage of part in whole, 0 for an empty whole |
| TaskAnalytics.IsOverdueAt | deploymate/src/app/components/TaskAnalytics.tsx:39-42 | overdue: a due date before now and not completed |
| TaskAnalytics.PercentBounds | deploymate/src/app/components/TaskAnalytics.tsx:45 | a share of a whole is a percentage between 0 and 100 |
| TaskAnalytics.Analytics | deploymate/src/app/components/TaskAnalytics.tsx:31-59 | figures exist iff the panel is shown |
| TaskAnalytics.CompletionSplit | deploymate/src/app/components/TaskAnalytics.tsx:35-37 | total is the todo count, and completed plus open make it up |
| TaskAnalytics.OverdueBound | deploymate/src/app/components/TaskAnalytics.tsx:39-42 | overdue todos are open ones, so there are never more of them than open todos |
| TaskAnalytics.PriorityDistribution | deploymate/src/app/components/TaskAnalytics.tsx:38-52 | the high count agrees in both places, and the three shares never exceed the total |
| TaskAnalytics.PriorityDistributionComplete | deploymate/src/app/components/TaskAnalytics.tsx:48-52 | when every todo has a priority, the three shares make up the total |
| TaskAnalytics.RatesInRange | deploymate/src/app/components/TaskAnalytics.tsx:45-56 | both rates are 0 for no todos, else the rounded percentages, within 0..100 |
| TaskAnalytics.CompletionColor | deploymate/src/app/components/TaskAnalytics.tsx:73 | green iff the rate is above 50, otherwise yellow |
| TaskAnalytics.OverdueColor | deploymate/src/app/components/TaskAnalytics.tsx:78 | red iff something is overdue, otherwise green |
| TaskAnalytics.HighPriorityColor | deploymate/src/app/components/TaskAnalytics.tsx:83 | red iff high-priority todos exceed 30% of all, otherwise green |
| TodoToolbar.ApplyChange | deploymate/src/app/components/TodoToolbar.tsx:38 | a change sets its own filter and leaves the other one |
| TodoToolbar.ApplyChangeIdempotent | deploymate/src/app/components/TodoToolbar.tsx:38 | choosing the same entry twice equals choosing it once |
| TodoToolbar.ChangesCommute | deploymate/src/app/components/TodoToolbar.tsx:38 | setting status and priority in either order gives both |
| TodoToolbar.ActiveTodos | deploymate/src/app/components/TodoToolbar.tsx:47 | active plus completed is the total |
| TodoToolbar.ActiveCountsIncomplete | deploymate/src/app/components/TodoToolbar.tsx:47 | with the page's counts, active is exactly the number of open todos |
| TodoToolbar.TaskLabel | deploymate/src/app/components/TodoToolbar.tsx:64 | 'task' iff the total is 1, otherwise 'tasks' |
| TodoToolbar.Toolbar.constructor | deploymate/src/app/components/TodoToolbar.tsx:23-29 | empty query, both filters 'all', dropdowns closed |
| TodoToolbar.Toolbar.HandleSearch | deploymate/src/app/components/TodoToolbar.tsx:31-35 | the query is stored and forwarded unchanged |
| TodoToolbar.Toolbar.HandleFilterChange | deploymate/src/app/components/TodoToolbar.tsx:37-45 | only the chosen filter changes, `onFilter` gets exactly what was stored, both dropdowns close |
| TodoToolbar.Toolbar.ToggleStatusDropdown | deploymate/src/app/components/TodoToolbar.tsx:76 | the status dropdown flag flips |
| TodoToolbar.Toolbar.TogglePriorityDropdown | deploymate/src/app/components/TodoToolbar.tsx:110 | the priority dropdown flag flips |
| TodoComponent.IsOverdue | deploymate/src/app/components/Todo.tsx:69-72 | no due date is never overdue; otherwise overdue iff the due date is valid and before now and the todo is open |
| TodoComponent.CompletedNeverOverdue | deploymate/src/app/components/Todo.tsx:71 | a completed todo is never overdue |
| TodoComponent.OverdueStays | deploymate/src/app/components/Todo.tsx:71 | an overdue todo stays overdue as time passes |
| TodoComponent.CompletedSubtasks | deploymate/src/app/components/Todo.tsx:75 | completed subtasks never outnumber the subtasks |
| TodoComponent.AllDoneIsFull | deploymate/src/app/components/Todo.tsx:75 | when every subtask is done, all are counted |
| TodoComponent.NoSubtasksNoProgress | deploymate/src/app/components/Todo.tsx:74-75 | without subtasks nothing is counted |
| TodoComponent.HasSubtasks | deploymate/src/app/components/Todo.tsx:74 | `hasSubtasks`: the list is non-empty |
| TodoComponent.PriorityClass | deploymate/src/app/components/Todo.tsx:47-58 | 'priority-high', 'priority-medium' or 'priority-low' |
| TodoComponent.PriorityClassInjective | deploymate/src/app/components/Todo.tsx:47-58 | the three priorities get three different classes |
| TodoComponent.WithDefaults | deploymate/src/app/components/Todo.tsx:32-35 | missing props default to medium, no tags and no subtasks |
| TodoComponent.ToggleControl.constructor | deploymate/src/app/components/Todo.tsx:45 | not animating, no pending timer, no calls |
| TodoComponent.ToggleControl.Checked | deploymate/src/app/components/Todo.tsx:98 | a completed todo's box is always ticked |
| TodoComponent.ToggleControl.HandleToggle | deploymate/src/app/components/Todo.tsx:77-87 | an open todo starts animating and a timer; a completed one calls `onToggle(id, completed)` at once |
| TodoComponent.ToggleControl.FireTimer | deploymate/src/app/components/Todo.tsx:80-83 | a timer calls `onToggle(id, completed)` once and stops the animation; every click is called back once |
| SubtaskComponent.Callback | deploymate/src/app/components/Subtask.tsx:28-34 | the checkbox calls toggle and the button calls delete, each with the row's own subtask id |
| SubtaskComponent.AddDisabled | deploymate/src/app/components/Subtask.tsx:91 | Add is disabled iff the title is blank |
| SubtaskComponent.SubtaskList.constructor | deploymate/src/app/components/Subtask.tsx:59 | the input starts empty |
| SubtaskComponent.SubtaskList.SetTitle | deploymate/src/app/components/Subtask.tsx:85 | typing stores the title |
| SubtaskComponent.SubtaskList.HandleAddSubtask | deploymate/src/app/components/Subtask.tsx:61-67 | a blank title does nothing; otherwise the trimmed title is passed on and the input cleared; what is passed on is never blank |
| KeyboardShortcuts.FirstMatch | deploymate/src/app/components/KeyboardShortcuts.tsx:39-40 | the first shortcut whose key equals the pressed one, ignoring case, or none |
| KeyboardShortcuts.KeyMatches | deploymate/src/app/components/KeyboardShortcuts.tsx:40 | keys match when equal after lower-casing |
| KeyboardShortcuts.Editable | deploymate/src/app/components/KeyboardShortcuts.tsx:42-48 | inputs, textareas and editable elements |
| KeyboardShortcuts.ShowsHelp | deploymate/src/app/components/KeyboardShortcuts.tsx:25 | '?' with ctrl, meta or shift |
| KeyboardShortcuts.TogglesHelp | deploymate/src/app/components/KeyboardShortcuts.tsx:32 | '?' with none of ctrl, meta and alt |
| KeyboardShortcuts.Respond | deploymate/src/app/components/KeyboardShortcuts.tsx:23-55 | the reaction to a keypress: show help, toggle help, nothing in an editable element, else the first matching shortcut |
| KeyboardShortcuts.EditableNeverRuns | deploymate/src/app/components/KeyboardShortcuts.tsx:42-48 | typing into an input, textarea or editable element never runs a shortcut |
| KeyboardShortcuts.RunsFirstMatch | deploymate/src/app/components/KeyboardShortcuts.tsx:39-53 | outside editable elements, a non-help key runs exactly the first matching shortcut |
| KeyboardShortcuts.AltQuestionMarkIsShortcut | deploymate/src/app/components/KeyboardShortcuts.tsx:25-36 | '?' with alt alone neither shows nor toggles the help |
| KeyboardShortcuts.ShiftQuestionMarkOnlyShows | deploymate/src/app/components/KeyboardShortcuts.tsx:25-36 | '?' with shift shows the help whether or not alt is held, and never toggles it; '?' with no modifier toggles it |
| KeyboardShortcuts.ShortcutHandler.constructor | deploymate/src/app/components/KeyboardShortcuts.tsx:14-18 | help hidden, nothing fired |
| KeyboardShortcuts.ShortcutHandler.HandleKeyDown | deploymate/src/app/components/KeyboardShortcuts.tsx:20-59 | when disabled nothing happens; otherwise the keypress shows, toggles, runs one action or does nothing, as `Respond` says, and the default is prevented iff it did something |
| KeyboardShortcuts.ShortcutHandler.CloseHelp | deploymate/src/app/components/KeyboardShortcuts.tsx:67 | the backdrop and 'Got it' hide the help |
| Auth.Decrypt | src/app/lib/auth/auth.ts:17-24 | nothing iff verification fails, otherwise the verified claims |
| Auth.Falsy | src/app/lib/auth/auth.ts:28 | a missing or empty cookie value |
| Auth.GetSession | src/app/lib/auth/auth.ts:26-30 | nothing without a token cookie, otherwise exactly `decrypt(token)` |
| Auth.CookieStore.constructor | src/app/lib/auth/auth.ts:41 | the store holds the given cookies |
| Auth.CookieStore.UpdateSession | src/app/lib/auth/auth.ts:32-42 | an absent or undecryptable session changes nothing; otherwise the claims expire 86400000 ms after now and are re-signed into 'session' with that expiry |
| Auth.ValidateUser | src/app/lib/auth/auth.ts:44-49 | false without a user or with a missing or empty email or name, true otherwise |
| Tasks.StatusText | src/app/types/task.ts:12-16 | the wire values 'pending', 'in-progress' and 'completed' |
| Tasks.StatusTextInjective | src/app/types/task.ts:12-16 | distinct statuses have distinct wire values |
| Dashboard.Merge | deploymate/src/app/dashboard/page.tsx:55 | each field the update carries replaces the task's; every other field is kept |
| Dashboard.MergeNoChange | deploymate/src/app/dashboard/page.tsx:55 | an empty update changes nothing |
| Dashboard.MergeIdempotent | deploymate/src/app/dashboard/page.tsx:55 | merging the same update twice equals merging it once |
| Dashboard.MergeThen | deploymate/src/app/dashboard/page.tsx:55 | two merges equal one merge of the combined update, the later field winning |
| Dashboard.MergeInto | deploymate/src/app/dashboard/page.tsx:53-57 | the task with the update's id is merged; other tasks are unchanged |
| Dashboard.MergeIntoIdempotent | deploymate/src/app/dashboard/page.tsx:53-57 | delivering an update twice equals delivering it once |
| Dashboard.RepeatedListenersHarmless | deploymate/src/app/dashboard/page.tsx:44-67 | the listeners piled up by re-running the effect act together as one |
| Dashboard.SetStatusIsMerge | deploymate/src/app/dashboard/page.tsx:126-128 | a status change equals merging `{status}` |
| Dashboard.SetStatus | deploymate/src/app/dashboard/page.tsx:126-128 | the task with the id gets the new status, the list keeps its length |
| Dashboard.StatusEchoHarmless | deploymate/src/app/dashboard/page.tsx:126-131 | the relay's echo of one's own status change changes nothing more |
| Dashboard.RemoveTask | deploymate/src/app/dashboard/page.tsx:149 | no task with the id remains; every other task stays as often as it was there; `RemoveTaskKeepsOrder` fixes the order |
| Dashboard.RemoveTaskKeepsOrder | deploymate/src/app/dashboard/page.tsx:149 | removal works part by part, so the remaining tasks keep their order; a list without the id is unchanged |
| Dashboard.ErrorText | deploymate/src/app/dashboard/page.tsx:29 | the response's error if it is non-empty, else the fallback |
| Dashboard.FailureMessage | deploymate/src/app/dashboard/page.tsx:33-34 | an HTTP error shows its error text, an exception its own message |
| Dashboard.CleanupLeavesJoinedRooms | deploymate/src/app/dashboard/page.tsx:45-65 | the effect joins one room per task, and its cleanup leaves exactly that set of rooms |
| Dashboard.JoinAll | deploymate/src/app/dashboard/page.tsx:47-49 | one join per task, in list order |
| Dashboard.LeaveAll | deploymate/src/app/dashboard/page.tsx:61-65 | one leave per task, in list order |
| Dashboard.DashboardPage.constructor | deploymate/src/app/dashboard/page.tsx:10-15 | no tasks, loading, no error, empty fields |
| Dashboard.DashboardPage.FetchTasks | deploymate/src/app/dashboard/page.tsx:18-41 | a 401 goes to '/auth/login' without setting tasks; other failures report their message; success sets the tasks; loading ends |
| Dashboard.DashboardPage.HandleCreateTask | deploymate/src/app/dashboard/page.tsx:69-107 | a blank title gives 'Task title is required' and no request; success prepends the task, clears both fields and joins its room |
| Dashboard.DashboardPage.HandleStatusChange | deploymate/src/app/dashboard/page.tsx:109-135 | sends `{status}`; success changes only that task's status and emits `{status}` for its id |
| Dashboard.DashboardPage.HandleDeleteTask | deploymate/src/app/dashboard/page.tsx:137-156 | success removes the task and leaves its room; failure reports its message |
| Dashboard.DashboardPage.DismissError | deploymate/src/app/dashboard/page.tsx:175 | the error banner's button clears the error |
| Dashboard.DashboardPage.SocketEffect | deploymate/src/app/dashboard/page.tsx:44-59 | with a connection, one join per task in list order and one listener; without one, nothing |
| Dashboard.DashboardPage.SocketCleanup | deploymate/src/app/dashboard/page.tsx:61-65 | one leave per task of the effect's snapshot |
| Dashboard.DashboardPage.OnTaskUpdated | deploymate/src/app/dashboard/page.tsx:52-58 | the list becomes the merge of the update into it |
| SocketClient.ServerUrl | deploymate/src/app/lib/socket/client.ts:12 | the configured URL if non-empty, else 'http://localhost:3000' |
| SocketClient.EventName | deploymate/src/app/lib/socket/client.ts:26-38 | 'join-task-room', 'leave-task-room' and 'task-update' |
| SocketClient.EmitOn | deploymate/src/app/lib/socket/client.ts:26 | an emit reaches the current connection, and is nothing without one |
| SocketClient.Client.constructor | deploymate/src/app/lib/socket/client.ts:7 | no connection yet |
| SocketClient.Client.Connect | deploymate/src/app/lib/socket/client.ts:9-19 | no token opens nothing; a token opens a new connection presenting it, which becomes current |
| SocketClient.Client.Disconnect | deploymate/src/app/lib/socket/client.ts:20-22 | the teardown disconnects the connection its run opened |
| SocketClient.Client.ChangeToken | deploymate/src/app/lib/socket/client.ts:9-23 | a token change disconnects the previous run's connection, then connects anew; without a token the ref keeps the old connection |
| SocketClient.Client.JoinTaskRoom | deploymate/src/app/lib/socket/client.ts:25-27 | emits exactly ('join-task-room', id) on the current connection, or nothing |
| SocketClient.Client.LeaveTaskRoom | deploymate/src/app/lib/socket/client.ts:29-31 | emits exactly ('leave-task-room', id), or nothing |
| SocketClient.Client.EmitTaskUpdate | deploymate/src/app/lib/socket/client.ts:33-35 | emits ('task-update', {taskId, update}), or nothing |
| SocketClient.Client.OnTaskUpdate | deploymate/src/app/lib/socket/client.ts:37-39 | registers the callback under 'task-updated' on the current connection, or nothing |
| SocketServer.Authenticate | deploymate/src/app/lib/socket/server.ts:14-31 | admitted iff a token decrypts to claims; 'Invalid token' iff it decrypts to null; 'Authentication error' iff there is no token or decryption throws |
| SocketServer.RoomNameInjective | deploymate/src/app/lib/socket/server.ts:37 | distinct task ids have distinct rooms |
| SocketServer.RoomName | deploymate/src/app/lib/socket/server.ts:37 | 'task-' followed by the task id |
| SocketServer.Recipients | deploymate/src/app/lib/socket/server.ts:45 | the connections that received something |
| SocketServer.DistinctRecipientsCount | deploymate/src/app/lib/socket/server.ts:45-48 | with no repeated recipient there are as many deliveries as recipients |
| SocketServer.FanOutExactlyOnce | deploymate/src/app/lib/socket/server.ts:45-48 | a fan-out delivers once per room member and never to a non-member |
| SocketServer.FanOut | deploymate/src/app/lib/socket/server.ts:45-48 | every delivery carries the task id and update, the recipients are exactly the room members, none twice |
| SocketServer.FanOutTo | deploymate/src/app/lib/socket/server.ts:45-48 | the deliveries of one broadcast form a fan-out of the update to the room's members |
| SocketServer.FanOutWithin | deploymate/src/app/lib/socket/server.ts:45-48 | a fan-out to members of a set delivers only inside that set |
| SocketServer.FanOutExtend | deploymate/src/app/lib/socket/server.ts:45-48 | delivering to one more member extends a fan-out |
| SocketServer.Relay.constructor | deploymate/src/app/lib/socket/server.ts:7 | no users, no rooms, nothing delivered |
| SocketServer.Relay.Connect | deploymate/src/app/lib/socket/server.ts:14-34 | the handshake verdict is `Authenticate`'s; an admitted connection carries its claims and is logged; a rejected one leaves no trace |
| SocketServer.Relay.JoinTaskRoom | deploymate/src/app/lib/socket/server.ts:36-38 | an admitted connection joins room 'task-'+id; others change nothing |
| SocketServer.Relay.LeaveTaskRoom | deploymate/src/app/lib/socket/server.ts:40-42 | the connection leaves that room and no other |
| SocketServer.Relay.TaskUpdate | deploymate/src/app/lib/socket/server.ts:44-49 | every member of the task's room, the sender included when it is one, receives the identical id and update exactly once; nobody else does |
| SocketServer.Relay.Disconnect | deploymate/src/app/lib/socket/server.ts:51-53 | only logs the user's email; rooms and users are untouched |
| SocketServer.Relay.DropConnection | deploymate/src/app/lib/socket/server.ts:51 | the library's own teardown, stated as an assumption: the connection leaves every room |
| Middleware.SomePrefix | deploymate/src/middleware.ts:13 | `some(startsWith)` holds iff some listed prefix starts the path |
| Middleware.ProtectedIffPrefix | deploymate/src/middleware.ts:6-13 | protected iff the path starts with '/dashboard' or '/api/tasks' |
| Middleware.IsProtected | deploymate/src/middleware.ts:6-13 | some protected path is a prefix of the path |
| Middleware.Utf8 | deploymate/src/middleware.ts:19 | the UTF-8 bytes of a character: one to four bytes, a single one exactly for ASCII; `Utf8RoundTrip` reads them back |
| Middleware.EncodeURI | deploymate/src/middleware.ts:19 | `encodeURI`: never shorter than its input; its output and its behaviour per character are given by the lemmas below |
| Middleware.Utf8RoundTrip | deploymate/src/middleware.ts:19 | the UTF-8 bytes `encodeURI` escapes read back to the character |
| Middleware.PercentEncode | deploymate/src/middleware.ts:19 | three characters per byte, all '%' or hex digits |
| Middleware.EncodeURIOutput | deploymate/src/middleware.ts:19 | the encoded path holds only unescaped characters, '%' and hex digits |
| Middleware.EncodeURIKeepsPlainPaths | deploymate/src/middleware.ts:19 | a path of unescaped characters is unchanged |
| Middleware.EncodeURIAppend | deploymate/src/middleware.ts:19 | encoding works character by character |
| Middleware.Middleware | deploymate/src/middleware.ts:8-35 | a redirect happens iff the path is protected and the token is missing or fails to decrypt; it always goes to '/auth/login' with the encoded path as callback |
| Middleware.HandleRequest | deploymate/src/middleware.ts:38-44 | unmatched paths pass; matched ones get the middleware's verdict |
| Middleware.Matched | deploymate/src/middleware.ts:38-44 | the matcher: each listed path and anything below it |
| Middleware.NotificationsPassUnchecked | deploymate/src/middleware.ts:38-43 | '/api/notifications' paths are matched but never protected, so they pass without a token |
| Middleware.NotificationsUnprotected | deploymate/src/middleware.ts:6-13 | no protected prefix starts a '/api/notifications' path |
| Middleware.ProtectedPrefixes | deploymate/src/middleware.ts:13 | the prefix test protects anything under '/dashboard' or '/api/tasks', '/dashboardX' included |
| Middleware.LookalikeNeverChecked | deploymate/src/middleware.ts:38-43 | the matcher never runs the middleware on '/dashboardX', so it passes although the prefix test would protect it |
| Middleware.LookalikeUnmatched | deploymate/src/middleware.ts:38-43 | '/dashboardX' is none of the matcher's paths and below none of them |

## Left out

- Rendering, CSS classes and DOM access are not modelled. This covers JSX, focus and scroll, the page's keyboard-shortcut actions (deploymate/src/app/page.tsx:448-478), `Header`, `ConfirmDialog`, layouts and configuration.
- Requests, the API routes and the database are not modelled. Each handler's request outcome is a parameter.
- The three-second `setTimeout` that clears messages is not modelled. Every other timeout is modelled only as a pending-then-fired step (`ToggleControl`).
- The demo data drawn with `Math.random` is not modelled. `FetchTodos` takes the draws as the `decorate` parameter, and `HandleAddSubtask` takes the new subtask id.
- `averageTasksPerDay` and the percentage bar widths are floating point and are not modelled.
- JWT signing and verification are not modelled. They are the `verify` and `sign` parameters.
- Date parsing and locale formatting are not modelled. Dates are integer timestamps, and `parseDate` parameters stand for `new Date(...)`.
- Case mapping covers ASCII letters only. Unicode case folding is not modelled.
- Socket.io transport is not modelled: CORS, reconnection, buffering of emits on a disconnected socket, and delivery order. Its disconnect-time room cleanup is `DropConnection`, stated as an assumption.
- `deploymate/server.js` is not part of this model. It does not wire the relay in.
- Stale closures and interleaving of async handlers are not modelled. Each handler runs atomically against the current state.
- React render scheduling is not modelled, including whether the dashboard sees `socketRef.current` at a given render. The socket effect and its cleanup take the hook's current connection as they find it.
- The middleware models `callbackUrl` as the parameter's value only. The serialisation of the redirect URL is not modelled.
- TaskAnalytics.Percent: the page computes `Math.round((part / total) * 100)` in double-precision floating point, while the model rounds the exact ratio half up. The two differ when the product lands just below a half: for 23 of 40 the page computes 57.49999999999999 and shows 57, the model gives 58; 46 of 80, 69 of 120 and 29 of 200 differ the same way. `PercentIsNearest`, `PercentBounds` and `RatesInRange` state the exact rounding.
- Dashboard.Merge: the update is typed as the task update request (title, description, status, due date). An update carrying other fields, such as `id`, is not modelled.
- SocketServer.Relay.Connect: a connection id is fresh. The library issues new ids, and the precondition states this.
