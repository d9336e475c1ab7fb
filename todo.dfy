/** A single task: a fixed description and a completion flag changed in place. */
module Todos {
  import opened Wrappers

  /** What a todo looks like at one moment: its description and whether it is done. */
  datatype View = View(description: string, done: bool)

  /** The marker that opens the rendered line of a todo. */
  function Marker(done: bool): string {
    if done then "[X] " else "[ ] "
  }

  /** The textual form of a todo: `[X] <description>` when done, `[ ] <description>` when not. */
  function Line(v: View): string {
    Marker(v.done) + v.description
  }

  /** Reads a rendered todo line back into the todo it shows. */
  function ParseLine(s: string): Option<View> {
    if |s| >= 4 && s[..4] == Marker(true) then Some(View(s[4..], true))
    else if |s| >= 4 && s[..4] == Marker(false) then Some(View(s[4..], false))
    else None
  }

  /** The rendered line of a todo determines the todo: parsing it gives back both fields. */
  lemma ParseOfLine(v: View)
    ensures ParseLine(Line(v)) == Some(v)
  {
    var s := Line(v);
    assert s[..4] == Marker(v.done);
    assert s[4..] == v.description;
  }

  /** A todo whose description is one line renders as one line. */
  lemma LineIsLine(v: View)
    requires forall k :: 0 <= k < |v.description| ==> v.description[k] != '\n'
    ensures forall k :: 0 <= k < |Line(v)| ==> Line(v)[k] != '\n'
  {
    var s := Line(v);
    forall k | 0 <= k < |s| ensures s[k] != '\n' {
      if k >= 4 {
        assert s[k] == v.description[k - 4];
      }
    }
  }

  class Todo {
    /** The description, fixed when the todo is created. */
    const description: string
    /** Whether the task is completed. */
    var done: bool

    /** `Todo.new(description)`: a new, not yet done todo. */
    constructor (description: string)
      ensures this.description == description && !done
    {
      this.description := description;
      done := false;
    }

    /** The current description and flag of this todo. */
    function Snapshot(): (v: View)
      reads this
      ensures v.description == description && v.done == done
    {
      View(description, done)
    }

    /** `done?` */
    function IsDone(): bool
      reads this
    {
      done
    }

    /** `done!`: marks the todo done; calling it again changes nothing. */
    method MarkDone()
      modifies this
      ensures done
    {
      done := true;
    }

    /** Clears the done flag (what `mark_undone_at` does to the todo it picks). */
    method MarkUndone()
      modifies this
      ensures !done
    {
      done := false;
    }

    /** `to_s`: the rendered line, from which the todo's state can be read back. */
    function ToString(): (s: string)
      reads this
      ensures ParseLine(s) == Some(View(description, done))
      ensures done <==> s[..4] == "[X] "
    {
      ParseOfLine(Snapshot());
      Line(Snapshot())
    }
  }
}
