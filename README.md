# Todo list model

A Dafny model of the todo-list exercise of `lesson_2`: a `Todo` is a task with a fixed
description and a mutable done flag, and a `TodoList` is a titled, ordered sequence of
references to todos. The list appends todos (refusing anything that is not a todo with a
`TypeError`), gives positional access (`first`, `last`, `item_at`, failing with an
`IndexError` outside `0 <= i < size`), removes by position (`shift`, `pop`, `remove_at`)
keeping the order of the rest, marks todos done or not done one by one or all at once,
filters (`select`, `all_done`, `all_not_done`), searches by description, and renders
itself as text.

The implementation file `lesson_2/todolist.rb` is not part of this model; only its test
suite is, so the model states the contract those tests pin down.

Files and modules:

- `wrappers.dfy` (`Wrappers`): `Option` for Ruby's `nil`, `Result`/`Outcome` for raised errors.
- `text.dfy` (`Text`): joining lines with `"\n"` (no newline after the last line) and
  splitting text back into lines, with the round trip `Split(Join(ls)) == ls`.
- `todo.dfy` (`Todos`): the `Todo` class (`description` is a `const`, `done` a `var`),
  its `View` snapshot, and its rendered line `[X] desc` / `[ ] desc` with a parser that
  reads it back.
- `todolist.dfy` (`TodoLists`): the `TodoList` class (`title` is a `const`, `items` a
  `seq<Todo>` the mutators reassign), the two error kinds, the values `add` may receive,
  and the specification functions (`Selected`, `FirstIndexOf`, `Without`, `Views`,
  `Render`) with their lemmas.
- `todolist_test.dfy` (`TodoListTests`): the `setup` fixture and one method per
  `test_*` method, each proving the test's assertions from the method contracts and the
  function definitions.

Mutators carry `modifies` clauses: `add`, `<<`, `shift`, `pop` and `remove_at` change the
list's `items`; the marking operations change the `done` field of the todos in `items`
and nothing else. Marking is stated per todo object, so the contracts stay right when one
todo sits at several positions (the list holds references, as the tests rely on when they
mark `@todo1` directly and observe the change through the list).

## Model

| member | source | states |
|---|---|---|
| `Todos.Todo.constructor` | lesson_2/todolist_test.rb:13-15 | a new todo has the given description and is not done |
| `Todos.Todo.MarkDone` | lesson_2/todolist_test.rb:93-95 | `done!` leaves the todo done |
| `Todos.Todo.MarkUndone` | lesson_2/todolist_test.rb:91-100 | unmarking leaves the todo not done |
| `Todos.Todo.IsDone` | lesson_2/todolist_test.rb:86-88 | `done?` of a todo is its current done flag |
| `Todos.Todo.ToString` | lesson_2/todolist_test.rb:115-150 | the rendered line shows `[X] ` exactly when the todo is done, and parsing it gives back the description and the flag |
| `Todos.ParseOfLine` | lesson_2/todolist_test.rb:115-150 | a todo line determines the todo: `ParseLine(Line(v)) == Some(v)` |
| `Text.JoinSplit` | lesson_2/todolist_test.rb:116-121 | joining the lines of any text gives back the text, so the lines determine the rendered text |
| `Text.SplitJoin` | lesson_2/todolist_test.rb:116-121 | text joined from single lines splits back into exactly those lines (no trailing empty line, as the chomped heredoc demands) |
| `TodoLists.TodoList.constructor` | lesson_2/todolist_test.rb:18 | a new list has the given title and no todos |
| `TodoLists.TodoList.Add` | lesson_2/todolist_test.rb:54-62 | a todo is appended at the end; an integer or string raises `TypeError` and leaves the list unchanged |
| `TodoLists.TodoList.Append` | lesson_2/todolist_test.rb:64-69 | `<<` has exactly the contract of `add` |
| `TodoListTests.AddAll` | lesson_2/todolist_test.rb:71-76 | adding todos one by one leaves them in the list in insertion order |
| `TodoListTests.Setup` | lesson_2/todolist_test.rb:12-22 | the fixture: three distinct new todos, not done, in a list titled "Today's Todos" in that order |
| `TodoLists.TodoList.Size` | lesson_2/todolist_test.rb:28-30 | `size` is the number of todos in the list |
| `TodoLists.TodoList.ToSeq` | lesson_2/todolist_test.rb:24-26 | `to_a` is the todos of the list, in order, as the same references |
| `TodoLists.TodoList.First` | lesson_2/todolist_test.rb:32-34 | `first` is the todo `item_at(0)` returns |
| `TodoLists.TodoList.Last` | lesson_2/todolist_test.rb:36-38 | `last` is the todo `item_at(size - 1)` returns |
| `TodoLists.TodoList.ItemAt` | lesson_2/todolist_test.rb:78-81 | `item_at(i)` succeeds exactly when `0 <= i < size`, with the todo at position i; otherwise `IndexError` |
| `TodoLists.TodoList.Shift` | lesson_2/todolist_test.rb:40-43 | `shift` returns the first todo and leaves the rest in order |
| `TodoLists.TodoList.Pop` | lesson_2/todolist_test.rb:45-48 | `pop` returns the last todo and leaves the rest in order |
| `TodoLists.TodoList.RemoveAt` | lesson_2/todolist_test.rb:109-113 | `remove_at(i)` returns what `item_at(i)` returns and removes exactly position i; `IndexError` leaves the list unchanged |
| `TodoLists.WithoutKeepsOrder` | lesson_2/todolist_test.rb:109-113 | removing position i keeps the todos before i in place and shifts those after it down by one |
| `TodoLists.TodoList.MarkDoneAt` | lesson_2/todolist_test.rb:83-89 | only the todo at position i becomes done, every other todo keeps its flag; out of range gives `IndexError` and changes nothing |
| `TodoLists.TodoList.MarkUndoneAt` | lesson_2/todolist_test.rb:91-100 | only the todo at position i is cleared, every other todo keeps its flag; out of range gives `IndexError` and changes nothing |
| `TodoLists.TodoList.MarkAllDone` | lesson_2/todolist_test.rb:191-196 | every todo of the list is done afterwards and the list is `done?` |
| `TodoLists.TodoList.Done` | lesson_2/todolist_test.rb:102-107 | `done!` on the list: every todo is done afterwards and the list is `done?` |
| `TodoLists.TodoList.MarkAllUndone` | lesson_2/todolist_test.rb:198-206 | no todo of the list is done afterwards, so a non-empty list is not `done?` |
| `TodoLists.TodoList.IsDone` | lesson_2/todolist_test.rb:50-52 | `done?` of the list holds exactly when no todo of the list is left not done |
| `TodoLists.AllFinishedIffNonePending` | lesson_2/todolist_test.rb:50-52 | the list is `done?` exactly when `all_not_done` would be empty |
| `TodoLists.TodoList.Each` | lesson_2/todolist_test.rb:152-160 | the block is applied to every todo in list order, and the list itself is returned |
| `TodoLists.Selected` | lesson_2/todolist_test.rb:162-169 | the selection holds only todos of the list the block accepts, and every todo of the list the block accepts |
| `TodoLists.SelectedIsSubsequence` | lesson_2/todolist_test.rb:162-179 | the selection keeps the todos in their original relative order |
| `TodoLists.SelectedConcat` | lesson_2/todolist_test.rb:162-179 | selecting from two lists put together is selecting from each, in order |
| `TodoLists.SelectedPartition` | lesson_2/todolist_test.rb:171-179 | a block and its negation split the list: the two selections together are the list as a multiset, with no todo in both |
| `TodoLists.DoneSplitsList` | lesson_2/todolist_test.rb:171-179 | `all_done` and `all_not_done` together hold every todo of the list, none twice |
| `TodoLists.TodoList.Select` | lesson_2/todolist_test.rb:162-169 | `select` returns a new list with the same title holding the selected todos |
| `TodoLists.TodoList.AllDone` | lesson_2/todolist_test.rb:171-174 | `all_done` returns a new list with the same title holding the done todos in order |
| `TodoLists.TodoList.AllNotDone` | lesson_2/todolist_test.rb:176-179 | `all_not_done` returns a new list with the same title holding the todos not done, in order |
| `TodoLists.FirstIndexOf` | lesson_2/todolist_test.rb:181-184 | the position of the first todo with exactly that description, or none when no todo has it |
| `TodoLists.TodoList.FindByTitle` | lesson_2/todolist_test.rb:181-184 | `find_by_title` is nil exactly when no todo has the description; otherwise it is the first todo that has it |
| `TodoLists.FirstIndexIsFirstSelected` | lesson_2/todolist_test.rb:181-184 | the search finds nothing exactly when selecting by description is empty, and otherwise finds the first selected todo |
| `TodoLists.TodoList.MarkDone` | lesson_2/todolist_test.rb:186-189 | `mark_done(description)` marks the todo `find_by_title` finds and no other; no match changes nothing |
| `TodoLists.RenderAppend` | lesson_2/todolist_test.rb:115-150 | each further todo adds exactly one newline and its own line at the end of the text |
| `TodoLists.RenderLines` | lesson_2/todolist_test.rb:115-150 | with one-line title and descriptions, the text is exactly the header `---- title ----` followed by one line per todo in order |
| `TodoLists.TodoList.ToString` | lesson_2/todolist_test.rb:115-150 | `to_s` splits into the header and the todo lines in list order |
| `TodoListTests.TestToSeq` | lesson_2/todolist_test.rb:24-26 | `to_a` of the fixture is the three todos in order |
| `TodoListTests.TestSize` | lesson_2/todolist_test.rb:28-30 | the fixture has size 3 |
| `TodoListTests.TestFirst` | lesson_2/todolist_test.rb:32-34 | `first` is the first todo |
| `TodoListTests.TestLast` | lesson_2/todolist_test.rb:36-38 | `last` is the third todo |
| `TodoListTests.TestShift` | lesson_2/todolist_test.rb:40-43 | `shift` gives the first todo and leaves the other two |
| `TodoListTests.TestPop` | lesson_2/todolist_test.rb:45-48 | `pop` gives the last todo and leaves the other two |
| `TodoListTests.TestDone` | lesson_2/todolist_test.rb:50-52 | the fixture is not `done?` |
| `TodoListTests.TestAddRaiseError` | lesson_2/todolist_test.rb:54-62 | adding 1 or 'string' raises `TypeError` |
| `TodoListTests.TestShovel` | lesson_2/todolist_test.rb:64-69 | `<<` appends a fourth todo |
| `TodoListTests.TestAdd` | lesson_2/todolist_test.rb:71-76 | `add` appends a fourth todo |
| `TodoListTests.TestItemAt` | lesson_2/todolist_test.rb:78-81 | `item_at(3)` raises `IndexError`, `item_at(0)` is the first todo |
| `TodoListTests.TestMarkDoneAt` | lesson_2/todolist_test.rb:83-89 | index 3 raises; index 0 marks only the first todo |
| `TodoListTests.TestMarkUndoneAt` | lesson_2/todolist_test.rb:91-100 | index 3 raises; index 1 clears only the second todo |
| `TodoListTests.TestDoneBang` | lesson_2/todolist_test.rb:102-107 | `done!` marks all three todos |
| `TodoListTests.TestRemoveAt` | lesson_2/todolist_test.rb:109-113 | index 3 raises; index 1 leaves the first and third todos |
| `TodoListTests.TestToString` | lesson_2/todolist_test.rb:115-124 | the fixture renders with three `[ ]` lines |
| `TodoListTests.TestToString1` | lesson_2/todolist_test.rb:126-137 | after `mark_done_at(0)` the first line shows `[X]` |
| `TodoListTests.TestToString2` | lesson_2/todolist_test.rb:139-150 | after `done!` every line shows `[X]` |
| `TodoListTests.TestEach` | lesson_2/todolist_test.rb:152-156 | `each` visits the three todos in order |
| `TodoListTests.TestEach2` | lesson_2/todolist_test.rb:158-160 | `each` returns the list itself |
| `TodoListTests.TestSelect` | lesson_2/todolist_test.rb:162-169 | selecting the done todos gives a list with the same title and the same text as a list holding only the first todo |
| `TodoListTests.TestAllDone` | lesson_2/todolist_test.rb:171-174 | `all_done` holds only the second todo |
| `TodoListTests.TestAllNotDone` | lesson_2/todolist_test.rb:176-179 | `all_not_done` holds the first and third todos |
| `TodoListTests.TestFindByTitle` | lesson_2/todolist_test.rb:181-184 | "Clean room" finds the second todo, "Learn French" finds nil |
| `TodoListTests.TestMarkDone` | lesson_2/todolist_test.rb:186-189 | `mark_done("Clean room")` marks the second todo |
| `TodoListTests.TestMarkAllDone` | lesson_2/todolist_test.rb:191-196 | `mark_all_done` marks all three todos |
| `TodoListTests.TestMarkAllUndone` | lesson_2/todolist_test.rb:198-206 | `mark_all_undone` clears all three todos |

## Left out

- `lesson_2/todolist.rb` is not part of this model: where the tests say nothing, the model makes the choices listed below.
- Coverage and test-runner setup (SimpleCov, Minitest reporters, lines 1-6) is tooling, not behaviour.
- Ruby's runtime class check in `add` is modelled by the `Value` datatype: a todo, an integer or a string; other Ruby objects are not modelled.
- TodoLists.TodoList.ItemAt: a negative index is out of range (`IndexError`); Ruby arrays would count negative indices from the end, which the tests never exercise.
- TodoLists.TodoList.Add: returns `Pass` or `Fail(TypeError)` rather than a value usable for chaining; the tests never look at what `add` returns.
- TodoLists.TodoList.Each: the block is a function of the todo reference, so it can see the fixed description but not the done flag, and its side effects are represented by the trace of its results; a block that changes the list or its todos is not modelled.
- TodoLists.TodoList.Select: the block is a predicate over a snapshot (description and done flag) of each todo; a block with side effects is not modelled.
- TodoLists.TodoList.First: `first`, `last`, `shift` and `pop` require a non-empty list, since the tests never call them on an empty one; `done?` on an empty list is vacuously true and an empty list renders as its header alone.
- `assert_equal` on todos and lists is modelled as reference identity; value equality of two lists or todos is not modelled.
- TodoLists.TodoList.ToString: the line-by-line statement assumes the title and the descriptions hold no newline; with newlines inside them the text is still the joined lines, but it no longer splits back uniquely.
