/** The notification list of the issue list (`flags`, with `addFlag` and
    `dismissFlag`, static/hello-world/src/IssuesList.js:46, :137-154) and the
    texts its completion handlers put in it (:177-242). */
module Flags {
  import opened Replies

  datatype Icon = SuccessIcon | ErrorIcon

  /** One notification; `id` doubles as the React `key`. */
  datatype Flag = Flag(id: string, title: string, description: string, icon: Icon)

  /** `addFlag`: the new flag goes in front. */
  function Add(flags: seq<Flag>, f: Flag): (r: seq<Flag>)
    ensures |r| == |flags| + 1 && r[0] == f && r[1..] == flags
  {
    [f] + flags
  }

  /** `dismissFlag(id)`: `flags.filter(flag => flag.id !== id)`. */
  function Dismiss(flags: seq<Flag>, id: string): (r: seq<Flag>)
    ensures |r| <= |flags|
    ensures forall f :: f in r <==> f in flags && f.id != id
  {
    if flags == [] then []
    else if flags[0].id == id then Dismiss(flags[1..], id)
    else [flags[0]] + Dismiss(flags[1..], id)
  }

  /** Dismissing works flag by flag, so the flags it keeps stay in their order. */
  lemma {:induction false} DismissKeepsOrder(a: seq<Flag>, b: seq<Flag>, id: string)
    ensures Dismiss(a + b, id) == Dismiss(a, id) + Dismiss(b, id)
    decreases |a|
  {
    if a == [] {
      assert a + b == b;
    } else {
      assert (a + b)[0] == a[0];
      assert (a + b)[1..] == a[1..] + b;
      DismissKeepsOrder(a[1..], b, id);
    }
  }

  /** Dismissing an id no flag carries leaves the list as it is. */
  lemma {:induction false} DismissAbsent(flags: seq<Flag>, id: string)
    requires forall i :: 0 <= i < |flags| ==> flags[i].id != id
    ensures Dismiss(flags, id) == flags
    decreases |flags|
  {
    if flags != [] {
      DismissAbsent(flags[1..], id);
    }
  }

  /** Dismissing a flag just added with a fresh id undoes the add. */
  lemma DismissUndoesAdd(flags: seq<Flag>, f: Flag)
    requires forall i :: 0 <= i < |flags| ==> flags[i].id != f.id
    ensures Dismiss(Add(flags, f), f.id) == flags
  {
    DismissAbsent(flags, f.id);
  }

  /** The arguments the issue list's completion handlers receive:
      `(success, message, issueKey)`, or nothing at all (`onCreate()`), in
      which case all three read as `undefined`. */
  datatype Completion = Args(success: bool, message: string, issueKey: string) | NoArgs {

    /** `if (success)`: `undefined` is falsy. */
    predicate Succeeded() {
      Args? && success
    }

    /** `${message}`. */
    function MessageText(): string {
      if Args? then message else "undefined"
    }

    /** `${issueKey}`. */
    function KeyText(): string {
      if Args? then issueKey else "undefined"
    }
  }

  /** The flag `handleUpdateComplete` adds (IssuesList.js:177-192). */
  function UpdateFlag(id: string, c: Completion): (f: Flag)
    ensures f.id == id
    ensures f.icon == SuccessIcon <==> c.Succeeded()
    ensures c.Succeeded() ==> f.description == "Issue " + c.KeyText() + " updated successfully!"
    ensures !c.Succeeded() ==> f.description == "Failed to update issue: " + c.MessageText()
  {
    if c.Succeeded() then Flag(id, "Issue Updated", "Issue " + c.KeyText() + " updated successfully!", SuccessIcon)
    else Flag(id, "Issue Update Failed", "Failed to update issue: " + c.MessageText(), ErrorIcon)
  }

  /** The flag `handleCreateComplete` adds (IssuesList.js:203-218). */
  function CreateFlag(id: string, c: Completion): (f: Flag)
    ensures f.id == id
    ensures f.icon == SuccessIcon <==> c.Succeeded()
    ensures c.Succeeded() ==> f.description == "Issue " + c.KeyText() + " created successfully!"
    ensures !c.Succeeded() ==> f.description == "Failed to create issue: " + c.MessageText()
  {
    if c.Succeeded() then Flag(id, "Issue Created", "Issue " + c.KeyText() + " created successfully!", SuccessIcon)
    else Flag(id, "Issue Creation Failed", "Failed to create issue: " + c.MessageText(), ErrorIcon)
  }

  /** The create dialog reports a created issue with `onCreate()` and no
      arguments, so the issue list announces it as a failure. */
  lemma CreateWithoutArgumentsReadsAsFailure(id: string)
    ensures CreateFlag(id, NoArgs) == Flag(id, "Issue Creation Failed", "Failed to create issue: undefined", ErrorIcon)
  {
  }

  /** The flag `handleDelete` adds once the `deleteIssue` call has settled
      (IssuesList.js:224-238): the error's message, or "Unknown Error". */
  function DeleteFlag(id: string, issueKey: string, reply: Reply<()>): (f: Flag)
    ensures f.id == id
    ensures f.icon == SuccessIcon <==> reply.Returned?
    ensures reply.Returned? ==> f.description == "Issue " + issueKey + " deleted successfully!"
    ensures reply.Threw? ==> f.description == "Failed to delete issue: " + Or(reply.message, "Unknown Error")
    ensures reply.Threw? && reply.message == "" ==> f.description == "Failed to delete issue: Unknown Error"
  {
    match reply
    case Returned(_) => Flag(id, "Issue Deleted", "Issue " + issueKey + " deleted successfully!", SuccessIcon)
    case Threw(m) => Flag(id, "Issue Deletion Failed", "Failed to delete issue: " + Or(m, "Unknown Error"), ErrorIcon)
  }
}
