/** One page of the issue tree, as `fetchIssues` assembles it
    (static/hello-world/src/IssuesList.js:55-101, duplicated in App.js:36-85):
    a page of root issues from `getListIssues`, then, for every root with
    subtasks, one `getIssuesByKeys` call whose issues become its `children`. */
module PageAssembly {
  import opened Replies
  import opened Issues

  /** `MAX_RESULTS`: the page size both lists ask for. */
  const MaxResults: nat := 5

  /** `issue.fields.subtasks?.length > 0`. */
  predicate HasSubtasks(issue: Issue)
    requires issue.fields.Some?
  {
    issue.fields.value.subtasks.Some? && |issue.fields.value.subtasks.value| > 0
  }

  /** `subtasks.map(sub => sub.key).join(",")`: empty for no subtasks,
      otherwise starting with the first key and ending with the last. */
  function JoinKeys(subs: seq<SubtaskRef>): (r: string)
    ensures |subs| == 0 ==> r == ""
    ensures |subs| == 1 ==> r == subs[0].key
    ensures |subs| > 0 ==> |subs[0].key| <= |r| && r[..|subs[0].key|] == subs[0].key
    ensures |subs| > 0 ==> |subs[|subs| - 1].key| <= |r| && r[|r| - |subs[|subs| - 1].key|..] == subs[|subs| - 1].key
    ensures |subs| > 1 ==> |r| > |subs[0].key| && r[|subs[0].key|] == ','
  {
    if |subs| == 0 then ""
    else if |subs| == 1 then subs[0].key
    else JoinKeys(subs[..|subs| - 1]) + "," + subs[|subs| - 1].key
  }

  /** The payload of a root's subtask request. */
  function SubtaskKeys(issue: Issue): string
    requires issue.fields.Some? && HasSubtasks(issue)
  {
    JoinKeys(issue.fields.value.subtasks.value)
  }

  /** The `children` one root gets: the issues of its subtask reply, and `[]`
      when it has no subtasks, when the request throws, or when the reply has
      no `issues`. */
  function ChildrenOf(issue: Issue, byKeys: string -> Reply<SearchReply>): (r: seq<Issue>)
    requires issue.fields.Some?
    ensures |r| > 0 ==> HasSubtasks(issue) && byKeys(SubtaskKeys(issue)) == Returned(SearchReply(Some(r)))
    ensures HasSubtasks(issue) && byKeys(SubtaskKeys(issue)).Returned?
            && byKeys(SubtaskKeys(issue)).value.issues.Some?
            ==> r == byKeys(SubtaskKeys(issue)).value.issues.value
  {
    if HasSubtasks(issue) then
      match byKeys(SubtaskKeys(issue))
      case Threw(_) => []
      case Returned(reply) => reply.issues.GetOr([])
    else []
  }

  /** Some root lacks `fields`, so reading `issue.fields.subtasks` throws. */
  predicate SomeRootLacksFields(roots: seq<Issue>) {
    exists i :: 0 <= i < |roots| && roots[i].fields.None?
  }

  /** `Promise.all(rootIssues.map(...))`: every root annotated with its
      children, in the order of `roots`; the whole step fails when reading some
      root's fields throws. */
  function AttachChildren(roots: seq<Issue>, byKeys: string -> Reply<SearchReply>): (r: Option<seq<TreeIssue>>)
    ensures r.None? <==> SomeRootLacksFields(roots)
    ensures r.Some? ==> |r.value| == |roots|
    ensures r.Some? ==> forall i :: 0 <= i < |roots| ==>
      roots[i].fields.Some? && r.value[i] == TreeIssue(roots[i], ChildrenOf(roots[i], byKeys))
    decreases |roots|
  {
    if roots == [] then Some([])
    else
      var rest := AttachChildren(roots[1..], byKeys);
      if roots[0].fields.None? then None
      else if rest.None? then
        assert forall i :: 0 <= i < |roots| - 1 ==> roots[1..][i] == roots[i + 1];
        None
      else
        Some([TreeIssue(roots[0], ChildrenOf(roots[0], byKeys))] + rest.value)
  }

  /** A root's children depend on its own subtask reply and nothing else. */
  lemma ChildrenDependOnOwnReply(issue: Issue, f: string -> Reply<SearchReply>, g: string -> Reply<SearchReply>)
    requires issue.fields.Some?
    requires HasSubtasks(issue) ==> f(SubtaskKeys(issue)) == g(SubtaskKeys(issue))
    ensures ChildrenOf(issue, f) == ChildrenOf(issue, g)
  {
  }

  /** A failed or different subtask reply for one root changes that root's
      children only: a root whose own reply is the same under `f` and `g` gets
      the same entry in both assembled pages. */
  lemma SubtaskFailureIsLocal(roots: seq<Issue>, f: string -> Reply<SearchReply>, g: string -> Reply<SearchReply>, j: nat)
    requires !SomeRootLacksFields(roots)
    requires j < |roots|
    requires HasSubtasks(roots[j]) ==> f(SubtaskKeys(roots[j])) == g(SubtaskKeys(roots[j]))
    ensures AttachChildren(roots, f).Some? && AttachChildren(roots, g).Some?
    ensures AttachChildren(roots, g).value[j] == AttachChildren(roots, f).value[j]
  {
    ChildrenDependOnOwnReply(roots[j], f, g);
    var rf := AttachChildren(roots, f).value;
    var rg := AttachChildren(roots, g).value;
    assert rf[j] == TreeIssue(roots[j], ChildrenOf(roots[j], f));
    assert rg[j] == TreeIssue(roots[j], ChildrenOf(roots[j], g));
  }

  /** What a successful fetch stores: the tree, `nextPageToken || ""` and
      `isLast || false`. */
  datatype Page = Page(issues: seq<TreeIssue>, nextToken: string, isLast: bool)

  /** The roots of a list reply: `result.issues || []`. */
  function RootsOf(reply: ListReply): seq<Issue> {
    reply.issues.GetOr([])
  }

  /** The body of `fetchIssues(token)` up to the state updates: `None` when
      `getListIssues` throws or assembling the tree throws. */
  function FetchPage(token: string, gw: Gateway): (r: Option<Page>)
    ensures r.Some? <==>
      && gw.listIssues(ListRequest(MaxResults, token)).Returned?
      && !SomeRootLacksFields(RootsOf(gw.listIssues(ListRequest(MaxResults, token)).value))
    ensures r.Some? ==>
      var reply := gw.listIssues(ListRequest(MaxResults, token)).value;
      && |r.value.issues| == |RootsOf(reply)|
      && (forall i :: 0 <= i < |r.value.issues| ==> r.value.issues[i].issue == RootsOf(reply)[i])
      && r.value.nextToken == OrElse(reply.nextPageToken, "")
      && r.value.isLast == reply.isLast.GetOr(false)
    ensures r.Some? ==>
      var reply := gw.listIssues(ListRequest(MaxResults, token)).value;
      Some(r.value.issues) == AttachChildren(RootsOf(reply), gw.issuesByKeys)
  {
    match gw.listIssues(ListRequest(MaxResults, token))
    case Threw(_) => None
    case Returned(reply) =>
      match AttachChildren(RootsOf(reply), gw.issuesByKeys)
      case None => None
      case Some(tree) => Some(Page(tree, OrElse(reply.nextPageToken, ""), reply.isLast.GetOr(false)))
  }

  /** A root without subtasks gets no children whatever the gateway does. */
  lemma NoSubtasksNoChildren(issue: Issue, byKeys: string -> Reply<SearchReply>)
    requires issue.fields.Some? && !HasSubtasks(issue)
    ensures ChildrenOf(issue, byKeys) == []
  {
  }
}
