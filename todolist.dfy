/** A titled, ordered list of todo references with positional access, bulk marking, filters and rendering. */
module TodoLists {
  import opened Wrappers
  import opened Text
  import opened Todos

  /** The two errors a list raises: a non-todo insertion, and an index outside the list. */
  datatype Error = TypeError | IndexError

  /** A value handed to `add` or `<<`: a todo, or one of the non-todo values the list refuses. */
  datatype Value = TodoValue(todo: Todo) | IntegerValue(n: int) | StringValue(s: string)

  /** `todo.done?` as a block over a snapshot. */
  function Finished(v: View): bool { v.done }

  /** `!todo.done?` as a block over a snapshot. */
  function Pending(v: View): bool { !v.done }

  /** The snapshots of the todos, position by position. */
  function Views(items: seq<Todo>): (vs: seq<View>)
    reads items
    ensures |vs| == |items|
    ensures forall k :: 0 <= k < |items| ==> vs[k] == View(items[k].description, items[k].done)
  {
    if items == [] then [] else [items[0].Snapshot()] + Views(items[1..])
  }

  /** Every todo in the list is done (vacuously so for an empty list). */
  predicate AllFinished(items: seq<Todo>)
    reads items
  {
    forall k :: 0 <= k < |items| ==> items[k].done
  }

  /** The todos whose snapshot satisfies `p`, in their original order. */
  function Selected(items: seq<Todo>, p: View -> bool): (r: seq<Todo>)
    reads items
    ensures |r| <= |items|
    ensures forall t :: t in r ==> t in items && p(t.Snapshot())
    ensures forall t :: t in items && p(t.Snapshot()) ==> t in r
  {
    if items == [] then []
    else (if p(items[0].Snapshot()) then [items[0]] else []) + Selected(items[1..], p)
  }

  /** `a` is `b` with some elements left out and the rest in their order. */
  predicate IsSubsequence<T(==)>(a: seq<T>, b: seq<T>) {
    if b == [] then a == []
    else (a != [] && a[0] == b[0] && IsSubsequence(a[1..], b[1..])) || IsSubsequence(a, b[1..])
  }

  /** The index of the first todo with exactly this description, if there is one. */
  function FirstIndexOf(items: seq<Todo>, description: string): (r: Option<nat>)
    ensures r.Some? ==> r.value < |items| && items[r.value].description == description
    ensures r.Some? ==> forall j :: 0 <= j < r.value ==> items[j].description != description
    ensures r.None? ==> forall j :: 0 <= j < |items| ==> items[j].description != description
  {
    if items == [] then None
    else if items[0].description == description then Some(0)
    else match FirstIndexOf(items[1..], description)
      case None => None
      case Some(i) => Some(i + 1)
  }

  /** The sequence with position `i` taken out. */
  function Without<T>(s: seq<T>, i: nat): seq<T>
    requires i < |s|
  {
    s[..i] + s[i + 1..]
  }

  /** The header line of a rendered list. */
  function Header(title: string): string {
    "---- " + title + " ----"
  }

  /** One rendered line per snapshot, in order. */
  function Lines(vs: seq<View>): (ls: seq<string>)
    ensures |ls| == |vs|
    ensures forall k :: 0 <= k < |vs| ==> ls[k] == Line(vs[k])
  {
    if vs == [] then [] else [Line(vs[0])] + Lines(vs[1..])
  }

  /** The rendered list: the header, then one line per todo, without a newline at the end. */
  function Render(title: string, vs: seq<View>): string {
    Join([Header(title)] + Lines(vs))
  }

  // ---------------------------------------------------------------------------
  // Properties of the specification functions

  /** An empty list renders as its header alone. */
  lemma RenderEmpty(title: string)
    ensures Render(title, []) == Header(title)
  {
    assert [Header(title)] + Lines([]) == [Header(title)];
  }

  /** Adding a todo at the end adds exactly one line, after a single newline. */
  lemma RenderAppend(title: string, vs: seq<View>, v: View)
    ensures Render(title, vs + [v]) == Render(title, vs) + "\n" + Line(v)
  {
    assert [Header(title)] + Lines(vs + [v]) == ([Header(title)] + Lines(vs)) + [Line(v)];
    JoinAppend([Header(title)] + Lines(vs), Line(v));
  }

  /** A one-line title gives a one-line header. */
  lemma HeaderIsLine(title: string)
    requires IsLine(title)
    ensures IsLine(Header(title))
  {
    ConcatLine("---- ", title);
    ConcatLine("---- " + title, " ----");
  }

  /** When the title and descriptions are single lines, the rendering consists of exactly
      the header and the todo lines, in order: nothing more, and no trailing empty line. */
  lemma RenderLines(title: string, vs: seq<View>)
    requires IsLine(title)
    requires forall k :: 0 <= k < |vs| ==> IsLine(vs[k].description)
    ensures Split(Render(title, vs)) == [Header(title)] + Lines(vs)
  {
    var ls := [Header(title)] + Lines(vs);
    HeaderIsLine(title);
    forall k | 0 <= k < |ls| ensures IsLine(ls[k]) {
      if k > 0 {
        assert ls[k] == Line(vs[k - 1]);
        LineIsLine(vs[k - 1]);
      }
    }
    SplitJoin(ls);
  }

  /** The selection is an order-preserving subsequence of the list. */
  lemma {:induction false} SelectedIsSubsequence(items: seq<Todo>, p: View -> bool)
    ensures IsSubsequence(Selected(items, p), items)
  {
    if items != [] {
      SelectedIsSubsequence(items[1..], p);
      var rest := Selected(items[1..], p);
      if p(items[0].Snapshot()) {
        assert Selected(items, p) == [items[0]] + rest;
        assert Selected(items, p)[1..] == rest;
      } else {
        assert Selected(items, p) == rest;
      }
    }
  }

  /** Selection works piece by piece: selecting from two lists put together selects from each, in order. */
  lemma {:induction false} SelectedConcat(a: seq<Todo>, b: seq<Todo>, p: View -> bool)
    ensures Selected(a + b, p) == Selected(a, p) + Selected(b, p)
  {
    if a == [] {
      assert a + b == b;
    } else {
      assert (a + b)[1..] == a[1..] + b;
      SelectedConcat(a[1..], b, p);
    }
  }

  /** Selecting by `p` and by its negation splits the list: every todo lands in exactly one. */
  lemma {:induction false} SelectedPartition(items: seq<Todo>, p: View -> bool, q: View -> bool)
    requires forall v :: q(v) == !p(v)
    ensures multiset(Selected(items, p)) + multiset(Selected(items, q)) == multiset(items)
    ensures forall t :: t in Selected(items, p) ==> t !in Selected(items, q)
  {
    if items != [] {
      SelectedPartition(items[1..], p, q);
      assert items == [items[0]] + items[1..];
    }
  }

  /** The done and the not-done todos together are the list, and no todo is in both. */
  lemma DoneSplitsList(items: seq<Todo>)
    ensures multiset(Selected(items, Finished)) + multiset(Selected(items, Pending)) == multiset(items)
    ensures forall t :: t in Selected(items, Finished) ==> t !in Selected(items, Pending)
  {
    SelectedPartition(items, Finished, Pending);
  }

  /** The list is done exactly when no todo is left not done. */
  lemma {:induction false} AllFinishedIffNonePending(items: seq<Todo>)
    ensures AllFinished(items) <==> Selected(items, Pending) == []
  {
    if !AllFinished(items) {
      var k :| 0 <= k < |items| && !items[k].done;
      assert items[k] in Selected(items, Pending);
    }
    if Selected(items, Pending) != [] {
      var t := Selected(items, Pending)[0];
      assert t in items && !t.done;
      var k :| 0 <= k < |items| && items[k] == t;
    }
  }

  /** Search by description finds the first todo that selection by description keeps. */
  lemma {:induction false} FirstIndexIsFirstSelected(items: seq<Todo>, description: string)
    ensures FirstIndexOf(items, description).None? <==>
            Selected(items, (v: View) => v.description == description) == []
    ensures FirstIndexOf(items, description).Some? ==>
            Selected(items, (v: View) => v.description == description)[0] == items[FirstIndexOf(items, description).value]
  {
    if items != [] {
      FirstIndexIsFirstSelected(items[1..], description);
    }
  }

  /** Removing a position keeps every other todo, in the same relative order. */
  lemma WithoutKeepsOrder<T>(s: seq<T>, i: nat)
    requires i < |s|
    ensures |Without(s, i)| == |s| - 1
    ensures forall k :: 0 <= k < i ==> Without(s, i)[k] == s[k]
    ensures forall k :: i <= k < |s| - 1 ==> Without(s, i)[k] == s[k + 1]
  {
  }

  class TodoList {
    /** The title, given at creation. */
    const title: string
    /** The todos, in insertion order; the list holds references, not copies. */
    var items: seq<Todo>

    /** `TodoList.new(title)`: an empty list. */
    constructor (title: string)
      ensures this.title == title && items == []
    {
      this.title := title;
      items := [];
    }

    /** `add`: appends a todo; any other value raises TypeError and leaves the list as it was. */
    method Add(v: Value) returns (r: Outcome<Error>)
      modifies this
      ensures v.TodoValue? ==> r == Pass && items == old(items) + [v.todo]
      ensures !v.TodoValue? ==> r == Fail(TypeError) && items == old(items)
    {
      if v.TodoValue? {
        items := items + [v.todo];
        r := Pass;
      } else {
        r := Fail(TypeError);
      }
    }

    /** `<<`: the same as `add`. */
    method Append(v: Value) returns (r: Outcome<Error>)
      modifies this
      ensures v.TodoValue? ==> r == Pass && items == old(items) + [v.todo]
      ensures !v.TodoValue? ==> r == Fail(TypeError) && items == old(items)
    {
      r := Add(v);
    }

    /** `size` */
    function Size(): nat
      reads this
    {
      |items|
    }

    /** `to_a`: the todos in order; a new sequence of the same references. */
    function ToSeq(): seq<Todo>
      reads this
    {
      items
    }

    /** `first` (not defined on an empty list). */
    function First(): (t: Todo)
      reads this
      requires |items| > 0
      ensures ItemAt(0) == Ok(t)
    {
      items[0]
    }

    /** `last` (not defined on an empty list). */
    function Last(): (t: Todo)
      reads this
      requires |items| > 0
      ensures ItemAt(|items| - 1) == Ok(t)
    {
      items[|items| - 1]
    }

    /** `item_at`: the todo at a position, or IndexError outside `0 <= i < size`. */
    function ItemAt(i: int): (r: Result<Todo, Error>)
      reads this
      ensures r.Ok? <==> 0 <= i < |items|
      ensures r.Ok? ==> r.value == items[i]
      ensures r.Err? ==> r.error == IndexError
    {
      if 0 <= i < |items| then Ok(items[i]) else Err(IndexError)
    }

    /** `shift`: removes and returns the first todo (not defined on an empty list). */
    method Shift() returns (t: Todo)
      requires |items| > 0
      modifies this
      ensures t == old(First())
      ensures items == old(items[1..])
    {
      t := items[0];
      items := items[1..];
    }

    /** `pop`: removes and returns the last todo (not defined on an empty list). */
    method Pop() returns (t: Todo)
      requires |items| > 0
      modifies this
      ensures t == old(Last())
      ensures items == old(items[..|items| - 1])
    {
      t := items[|items| - 1];
      items := items[..|items| - 1];
    }

    /** `remove_at`: removes exactly position `i` and returns its todo; IndexError leaves the list as it was. */
    method RemoveAt(i: int) returns (r: Result<Todo, Error>)
      modifies this
      ensures r == old(ItemAt(i))
      ensures 0 <= i < old(|items|) ==> items == Without(old(items), i)
      ensures !(0 <= i < old(|items|)) ==> items == old(items)
    {
      r := ItemAt(i);
      if r.Ok? {
        items := Without(items, i);
      }
    }

    /** `mark_done_at`: marks the todo at `i` done and leaves every other todo as it was;
        IndexError changes nothing. Stated per todo object, so it also holds when one todo
        is in the list at several positions. */
    method MarkDoneAt(i: int) returns (r: Outcome<Error>)
      modifies items
      ensures r == if 0 <= i < |items| then Pass else Fail(IndexError)
      ensures forall t :: t in items ==> t.done == (old(t.done) || (0 <= i < |items| && t == items[i]))
    {
      var found := ItemAt(i);
      match found {
        case Ok(t) =>
          t.MarkDone();
          r := Pass;
        case Err(e) =>
          r := Fail(e);
      }
    }

    /** `mark_undone_at`: clears the todo at `i` and leaves every other todo as it was;
        IndexError changes nothing. */
    method MarkUndoneAt(i: int) returns (r: Outcome<Error>)
      modifies items
      ensures r == if 0 <= i < |items| then Pass else Fail(IndexError)
      ensures forall t :: t in items ==> t.done == (old(t.done) && !(0 <= i < |items| && t == items[i]))
    {
      var found := ItemAt(i);
      match found {
        case Ok(t) =>
          t.MarkUndone();
          r := Pass;
        case Err(e) =>
          r := Fail(e);
      }
    }

    /** `mark_all_done`: every todo of the list is done afterwards, so the list is done. */
    method MarkAllDone()
      modifies items
      ensures forall t :: t in items ==> t.done
      ensures IsDone()
    {
      var k := 0;
      while k < |items|
        invariant 0 <= k <= |items|
        invariant forall j :: 0 <= j < k ==> items[j].done
      {
        items[k].MarkDone();
        k := k + 1;
      }
    }

    /** `done!`: the same effect as `mark_all_done`. */
    method Done()
      modifies items
      ensures forall t :: t in items ==> t.done
      ensures IsDone()
    {
      MarkAllDone();
    }

    /** `mark_all_undone`: no todo of the list is done afterwards. */
    method MarkAllUndone()
      modifies items
      ensures forall t :: t in items ==> !t.done
      ensures |items| > 0 ==> !IsDone()
    {
      var k := 0;
      while k < |items|
        invariant 0 <= k <= |items|
        invariant forall j :: 0 <= j < k ==> !items[j].done
      {
        items[k].MarkUndone();
        k := k + 1;
      }
      assert |items| > 0 ==> !items[0].done;
    }

    /** `done?`: every todo is done, that is, no todo is left for `all_not_done`. */
    predicate IsDone()
      reads this, items
      ensures IsDone() <==> Selected(items, Pending) == []
    {
      AllFinishedIffNonePending(items);
      AllFinished(items)
    }

    /** `each`: hands every todo to the block, in order, and returns the list itself.
        `trace` holds what the block gave back for each todo, in visiting order. */
    method Each<T>(block: Todo -> T) returns (trace: seq<T>, list: TodoList)
      ensures list == this
      ensures |trace| == |items|
      ensures forall k :: 0 <= k < |items| ==> trace[k] == block(items[k])
    {
      trace := [];
      var k := 0;
      while k < |items|
        invariant 0 <= k <= |items|
        invariant |trace| == k
        invariant forall j :: 0 <= j < k ==> trace[j] == block(items[j])
      {
        trace := trace + [block(items[k])];
        k := k + 1;
      }
      list := this;
    }

    /** `select`: a new list with the same title holding the todos the block accepts, in order. */
    method Select(p: View -> bool) returns (r: TodoList)
      ensures fresh(r)
      ensures r.title == title && r.items == Selected(items, p)
    {
      r := new TodoList(title);
      r.items := Selected(items, p);
    }

    /** `all_done`: the done todos, as a list with the same title. */
    method AllDone() returns (r: TodoList)
      ensures fresh(r)
      ensures r.title == title && r.items == Selected(items, Finished)
    {
      r := Select(Finished);
    }

    /** `all_not_done`: the todos not yet done, as a list with the same title. */
    method AllNotDone() returns (r: TodoList)
      ensures fresh(r)
      ensures r.title == title && r.items == Selected(items, Pending)
    {
      r := Select(Pending);
    }

    /** `find_by_title`: the first todo whose description is exactly `description`, or nil. */
    function FindByTitle(description: string): (r: Option<Todo>)
      reads this
      ensures r.None? <==> forall k :: 0 <= k < |items| ==> items[k].description != description
      ensures r.Some? ==> exists k :: 0 <= k < |items| && items[k] == r.value &&
                            r.value.description == description &&
                            forall j :: 0 <= j < k ==> items[j].description != description
    {
      match FirstIndexOf(items, description)
      case None => None
      case Some(i) => Some(items[i])
    }

    /** `mark_done(description)`: marks the todo `find_by_title` finds; no match changes nothing. */
    method MarkDone(description: string)
      modifies items
      ensures forall t :: t in items ==> t.done == (old(t.done) || FindByTitle(description) == Some(t))
    {
      var found := FindByTitle(description);
      if found.Some? {
        found.value.MarkDone();
      }
    }

    /** `to_s`: the header `---- <title> ----`, then each todo's line in order, joined by newlines. */
    function ToString(): (s: string)
      reads this, items
      ensures IsLine(title) && (forall k :: 0 <= k < |items| ==> IsLine(items[k].description)) ==>
                Split(s) == [Header(title)] + Lines(Views(items))
    {
      if IsLine(title) && forall k :: 0 <= k < |items| ==> IsLine(items[k].description) then
        RenderLines(title, Views(items));
        Render(title, Views(items))
      else
        Render(title, Views(items))
    }
  }
}
