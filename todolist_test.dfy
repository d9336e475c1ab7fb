/** The list's test suite as verified client code: the fixture, then one method per test. */
module TodoListTests {
  import opened Wrappers
  import opened Todos
  import opened TodoLists

  /** Adds the todos one by one, in order. */
  method AddAll(list: TodoList, todos: seq<Todo>)
    modifies list
    ensures list.items == old(list.items) + todos
  {
    var k := 0;
    while k < |todos|
      invariant 0 <= k <= |todos|
      invariant list.items == old(list.items) + todos[..k]
    {
      var r := list.Add(TodoValue(todos[k]));
      assert todos[..k + 1] == todos[..k] + [todos[k]];
      k := k + 1;
    }
    assert todos[..k] == todos;
  }

  /** The fixture: three new, not done todos added to "Today's Todos" in order. */
  method Setup() returns (todo1: Todo, todo2: Todo, todo3: Todo, list: TodoList)
    ensures fresh(todo1) && fresh(todo2) && fresh(todo3) && fresh(list)
    ensures todo1 != todo2 && todo1 != todo3 && todo2 != todo3
    ensures todo1.description == "Buy milk" && !todo1.done
    ensures todo2.description == "Clean room" && !todo2.done
    ensures todo3.description == "Go to gym" && !todo3.done
    ensures list.title == "Today's Todos" && list.items == [todo1, todo2, todo3]
  {
    todo1 := new Todo("Buy milk");
    todo2 := new Todo("Clean room");
    todo3 := new Todo("Go to gym");
    list := new TodoList("Today's Todos");
    AddAll(list, [todo1, todo2, todo3]);
  }

  /** The rendering of a three-todo list, line by line. */
  lemma RenderThree(title: string, a: View, b: View, c: View)
    ensures Render(title, [a, b, c]) ==
            Header(title) + "\n" + Line(a) + "\n" + Line(b) + "\n" + Line(c)
  {
    RenderEmpty(title);
    assert [] + [a] == [a];
    RenderAppend(title, [], a);
    assert [a] + [b] == [a, b];
    RenderAppend(title, [a], b);
    assert [a, b] + [c] == [a, b, c];
    RenderAppend(title, [a, b], c);
  }

  /** What the fixture's list renders as, in terms of its three todos. */
  lemma ShowsThree(list: TodoList, todo1: Todo, todo2: Todo, todo3: Todo)
    requires list.title == "Today's Todos" && list.items == [todo1, todo2, todo3]
    ensures list.ToString() == "---- Today's Todos ----\n" + todo1.ToString() + "\n" +
                               todo2.ToString() + "\n" + todo3.ToString()
  {
    assert Views(list.items) == [todo1.Snapshot(), todo2.Snapshot(), todo3.Snapshot()];
    assert list.ToString() == Render(list.title, Views(list.items));
    RenderThree(list.title, todo1.Snapshot(), todo2.Snapshot(), todo3.Snapshot());
  }

  /** A proof step of the rendering tests, with no property of its own: the fixture's text
      when nothing is done, from its three lines. */
  lemma NoneDoneText(text: string, line1: string, line2: string, line3: string)
    requires line1 == "[ ] Buy milk" && line2 == "[ ] Clean room" && line3 == "[ ] Go to gym"
    requires text == "---- Today's Todos ----\n" + line1 + "\n" + line2 + "\n" + line3
    ensures text == "---- Today's Todos ----\n[ ] Buy milk\n[ ] Clean room\n[ ] Go to gym"
  {
  }

  /** A proof step of the rendering tests, with no property of its own: the fixture's text
      when only the first todo is done, from its three lines. */
  lemma FirstDoneText(text: string, line1: string, line2: string, line3: string)
    requires line1 == "[X] Buy milk" && line2 == "[ ] Clean room" && line3 == "[ ] Go to gym"
    requires text == "---- Today's Todos ----\n" + line1 + "\n" + line2 + "\n" + line3
    ensures text == "---- Today's Todos ----\n[X] Buy milk\n[ ] Clean room\n[ ] Go to gym"
  {
  }

  /** A proof step of the rendering tests, with no property of its own: the fixture's text
      when every todo is done, from its three lines. */
  lemma AllDoneText(text: string, line1: string, line2: string, line3: string)
    requires line1 == "[X] Buy milk" && line2 == "[X] Clean room" && line3 == "[X] Go to gym"
    requires text == "---- Today's Todos ----\n" + line1 + "\n" + line2 + "\n" + line3
    ensures text == "---- Today's Todos ----\n[X] Buy milk\n[X] Clean room\n[X] Go to gym"
  {
  }

  /** Selecting from a three-todo list decides each todo on its own. */
  lemma SelectedThree(t1: Todo, t2: Todo, t3: Todo, p: View -> bool)
    ensures Selected([t1, t2, t3], p) ==
            (if p(t1.Snapshot()) then [t1] else []) +
            (if p(t2.Snapshot()) then [t2] else []) +
            (if p(t3.Snapshot()) then [t3] else [])
  {
    assert [t1, t2, t3] == [t1] + [t2] + [t3];
    SelectedConcat([t1] + [t2], [t3], p);
    SelectedConcat([t1], [t2], p);
  }

  method TestToSeq() {
    var todo1, todo2, todo3, list := Setup();
    assert list.ToSeq() == [todo1, todo2, todo3];
  }

  method TestSize() {
    var todo1, todo2, todo3, list := Setup();
    assert list.Size() == 3;
  }

  method TestFirst() {
    var todo1, todo2, todo3, list := Setup();
    assert list.First() == todo1;
  }

  method TestLast() {
    var todo1, todo2, todo3, list := Setup();
    assert list.Last() == todo3;
  }

  method TestShift() {
    var todo1, todo2, todo3, list := Setup();
    var t := list.Shift();
    assert t == todo1;
    assert list.ToSeq() == [todo2, todo3];
  }

  method TestPop() {
    var todo1, todo2, todo3, list := Setup();
    var t := list.Pop();
    assert t == todo3;
    assert list.ToSeq() == [todo1, todo2];
  }

  method TestDone() {
    var todo1, todo2, todo3, list := Setup();
    assert !list.IsDone() by {
      assert !list.items[0].done;
    }
  }

  method TestAddRaiseError() {
    var todo1, todo2, todo3, list := Setup();
    var r := list.Add(IntegerValue(1));
    assert r == Fail(TypeError);
    r := list.Add(StringValue("string"));
    assert r == Fail(TypeError);
    assert list.Size() == 3;
  }

  method TestShovel() {
    var todo1, todo2, todo3, list := Setup();
    var todo4 := new Todo("Take out trash");
    var r := list.Append(TodoValue(todo4));
    assert list.ToSeq() == [todo1, todo2, todo3, todo4];
  }

  method TestAdd() {
    var todo1, todo2, todo3, list := Setup();
    var todo4 := new Todo("Take out trash");
    var r := list.Add(TodoValue(todo4));
    assert list.ToSeq() == [todo1, todo2, todo3, todo4];
  }

  method TestItemAt() {
    var todo1, todo2, todo3, list := Setup();
    assert list.ItemAt(3) == Err(IndexError);
    assert list.ItemAt(0) == Ok(todo1);
  }

  method TestMarkDoneAt() {
    var todo1, todo2, todo3, list := Setup();
    var r := list.MarkDoneAt(3);
    assert r == Fail(IndexError);
    r := list.MarkDoneAt(0);
    assert todo1.done;
    assert !todo2.done;
    assert !todo3.done;
  }

  method TestMarkUndoneAt() {
    var todo1, todo2, todo3, list := Setup();
    var r := list.MarkUndoneAt(3);
    assert r == Fail(IndexError);
    todo1.MarkDone();
    todo2.MarkDone();
    todo3.MarkDone();
    r := list.MarkUndoneAt(1);
    assert todo1.done;
    assert !todo2.done;
    assert todo3.done;
  }

  method TestDoneBang() {
    var todo1, todo2, todo3, list := Setup();
    list.Done();
    assert todo1.done && todo2.done && todo3.done;
  }

  method TestRemoveAt() {
    var todo1, todo2, todo3, list := Setup();
    var r := list.RemoveAt(3);
    assert r == Err(IndexError);
    r := list.RemoveAt(1);
    assert list.ToSeq() == [todo1, todo3];
  }

  method TestToString() {
    var todo1, todo2, todo3, list := Setup();
    var line1, line2, line3 := todo1.ToString(), todo2.ToString(), todo3.ToString();
    assert line1 == "[ ] Buy milk";
    assert line2 == "[ ] Clean room";
    assert line3 == "[ ] Go to gym";
    ShowsThree(list, todo1, todo2, todo3);
    var text := list.ToString();
    NoneDoneText(text, line1, line2, line3);
    assert text == "---- Today's Todos ----\n[ ] Buy milk\n[ ] Clean room\n[ ] Go to gym";
  }

  method TestToString1() {
    var todo1, todo2, todo3, list := Setup();
    var r := list.MarkDoneAt(0);
    var line1, line2, line3 := todo1.ToString(), todo2.ToString(), todo3.ToString();
    assert line1 == "[X] Buy milk";
    assert line2 == "[ ] Clean room";
    assert line3 == "[ ] Go to gym";
    ShowsThree(list, todo1, todo2, todo3);
    var text := list.ToString();
    FirstDoneText(text, line1, line2, line3);
    assert text == "---- Today's Todos ----\n[X] Buy milk\n[ ] Clean room\n[ ] Go to gym";
  }

  method TestToString2() {
    var todo1, todo2, todo3, list := Setup();
    list.Done();
    var line1, line2, line3 := todo1.ToString(), todo2.ToString(), todo3.ToString();
    assert line1 == "[X] Buy milk";
    assert line2 == "[X] Clean room";
    assert line3 == "[X] Go to gym";
    ShowsThree(list, todo1, todo2, todo3);
    var text := list.ToString();
    AllDoneText(text, line1, line2, line3);
    assert text == "---- Today's Todos ----\n[X] Buy milk\n[X] Clean room\n[X] Go to gym";
  }

  /** The block `{ |todo| results << todo }` collects the todos themselves. */
  function Collect(t: Todo): Todo { t }

  /** The block `{ |_| nil }`. */
  function Ignore(t: Todo): () { () }

  method TestEach() {
    var todo1, todo2, todo3, list := Setup();
    var results, same := list.Each(Collect);
    assert results == [todo1, todo2, todo3];
  }

  method TestEach2() {
    var todo1, todo2, todo3, list := Setup();
    var results, same := list.Each(Ignore);
    assert same == list;
  }

  method TestSelect() {
    var todo1, todo2, todo3, list := Setup();
    todo1.MarkDone();
    var newList := new TodoList(list.title);
    var r := newList.Add(TodoValue(todo1));
    assert newList.title == list.title;
    SelectedThree(todo1, todo2, todo3, Finished);
    var selected := list.Select(Finished);
    assert selected.items == [todo1];
    assert newList.ToString() == selected.ToString();
  }

  method TestAllDone() {
    var todo1, todo2, todo3, list := Setup();
    todo2.MarkDone();
    SelectedThree(todo1, todo2, todo3, Finished);
    var done := list.AllDone();
    assert done.ToSeq() == [todo2];
  }

  method TestAllNotDone() {
    var todo1, todo2, todo3, list := Setup();
    todo2.MarkDone();
    SelectedThree(todo1, todo2, todo3, Pending);
    var notDone := list.AllNotDone();
    assert notDone.ToSeq() == [todo1, todo3];
  }

  method TestFindByTitle() {
    var todo1, todo2, todo3, list := Setup();
    assert list.items[1].description == "Clean room";
    assert list.FindByTitle("Clean room") == Some(todo2);
    assert list.FindByTitle("Learn French") == None;
  }

  method TestMarkDone() {
    var todo1, todo2, todo3, list := Setup();
    list.MarkDone("Clean room");
    assert todo2.done;
  }

  method TestMarkAllDone() {
    var todo1, todo2, todo3, list := Setup();
    list.MarkAllDone();
    assert todo1.done && todo2.done && todo3.done;
  }

  method TestMarkAllUndone() {
    var todo1, todo2, todo3, list := Setup();
    todo1.MarkDone();
    todo2.MarkDone();
    todo3.MarkDone();
    list.MarkAllUndone();
    assert !todo1.done && !todo2.done && !todo3.done;
  }
}
