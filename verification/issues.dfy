/** The issue records the front end receives from the gateway, the shapes of
    the gateway's replies, and the status colour shared by both issue lists
    (static/hello-world/src/IssuesList.js and its older copy App.js). */
module Issues {
  import opened Replies

  datatype IssueType = IssueType(id: string, name: string)

  datatype Status = Status(id: string, name: string)

  /** An assignee; `accountId` is what the update dialog compares and sends. */
  datatype User = User(accountId: string, displayName: string)

  /** An entry of `fields.subtasks`: only its key is used. */
  datatype SubtaskRef = SubtaskRef(key: string)

  /** The field projection requested by the list: every entry may be missing. */
  datatype Fields = Fields(
    summary: Option<string>,
    description: Option<string>,
    issuetype: Option<IssueType>,
    status: Option<Status>,
    assignee: Option<User>,
    subtasks: Option<seq<SubtaskRef>>)

  /** An issue as the tracker returns it; `fields` itself may be missing. */
  datatype Issue = Issue(id: string, key: string, fields: Option<Fields>)

  /** A root issue annotated with its subtasks: `{ ...issue, children }`. */
  datatype TreeIssue = TreeIssue(issue: Issue, children: seq<Issue>)

  /** The payload of `getListIssues`. */
  datatype ListRequest = ListRequest(maxResults: nat, nextPageToken: string)

  /** The reply of `getListIssues`: `{ issues, nextPageToken, isLast }`. */
  datatype ListReply = ListReply(issues: Option<seq<Issue>>, nextPageToken: Option<string>, isLast: Option<bool>)

  /** The reply of `getIssuesByKeys`: `{ issues }`. */
  datatype SearchReply = SearchReply(issues: Option<seq<Issue>>)

  /** The gateway operations the issue lists call, as functions of their payload.
      `issuesByKeys` takes the comma-joined subtask keys. */
  datatype Gateway = Gateway(
    listIssues: ListRequest -> Reply<ListReply>,
    issuesByKeys: string -> Reply<SearchReply>)

  // ---------------------------------------------------------------------
  // Status colour (IssuesList.js:253-265, App.js:112-124)
  // ---------------------------------------------------------------------

  const NoStatusColour := "#dfe1e6"
  const DoneColour := "#36B37E"
  const InProgressColour := "#0052CC"
  const ToDoColour := "#42526E"

  /** `toLowerCase` on one character, for the ASCII letters. */
  function LowerChar(c: char): (r: char)
    ensures 'A' <= c <= 'Z' ==> r as int == c as int + 32
    ensures !('A' <= c <= 'Z') ==> r == c
  {
    if 'A' <= c <= 'Z' then (c as int + 32) as char else c
  }

  /** `toLowerCase`, for the ASCII letters. */
  function ToLower(s: string): (r: string)
    ensures |r| == |s|
    ensures forall i :: 0 <= i < |s| ==> r[i] == LowerChar(s[i])
  {
    seq(|s|, i requires 0 <= i < |s| => LowerChar(s[i]))
  }

  /** The issue has `fields.status`, so its colour depends on the status name. */
  predicate HasStatus(issue: Option<Issue>) {
    issue.Some? && issue.value.fields.Some? && issue.value.fields.value.status.Some?
  }

  /** The lower-cased status name of an issue that has a status. */
  function StatusKey(issue: Option<Issue>): string
    requires HasStatus(issue)
  {
    ToLower(issue.value.fields.value.status.value.name)
  }

  /** `getIssueStatusColor`: grey without a status, then a fixed table keyed by
      the lower-cased status name, with the "to do" colour for any other name. */
  function StatusColor(issue: Option<Issue>): (colour: string)
    ensures colour == NoStatusColour <==> !HasStatus(issue)
    ensures HasStatus(issue) ==> (colour == DoneColour <==> StatusKey(issue) == "done")
    ensures HasStatus(issue) ==> (colour == InProgressColour <==> StatusKey(issue) == "in progress")
    ensures HasStatus(issue) ==>
      (colour == ToDoColour <==> StatusKey(issue) != "done" && StatusKey(issue) != "in progress")
  {
    if !HasStatus(issue) then NoStatusColour
    else
      var name := StatusKey(issue);
      if name == "done" then DoneColour
      else if name == "in progress" then InProgressColour
      else if name == "to do" then ToDoColour
      else ToDoColour
  }

  /** An issue whose only field is a status with the given name. */
  function WithStatusName(name: string): Option<Issue> {
    Some(Issue("", "", Some(Fields(None, None, None, Some(Status("", name)), None, None))))
  }

  /** The colour table ignores letter case: "Done", "DONE" and "done" agree. */
  lemma {:induction false} StatusColorIgnoresCase(a: string, b: string)
    requires ToLower(a) == ToLower(b)
    ensures StatusColor(WithStatusName(a)) == StatusColor(WithStatusName(b))
  {
    assert StatusKey(WithStatusName(a)) == ToLower(a);
    assert StatusKey(WithStatusName(b)) == ToLower(b);
  }

  /** Jira's own capitalisation "Done" and "In Progress" reach their colours. */
  lemma JiraStatusNames()
    ensures StatusColor(WithStatusName("Done")) == DoneColour
    ensures StatusColor(WithStatusName("In Progress")) == InProgressColour
    ensures StatusColor(WithStatusName("To Do")) == ToDoColour
  {
    assert ToLower("Done") == "done";
    assert ToLower("In Progress") == "in progress";
  }
}
