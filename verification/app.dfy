/** The older issue list panel, static/hello-world/src/App.js: the same
    cursor stack, tree assembly and expansion map as the issue list, with a
    delete handler that shows no notifications. */
module AppView {
  import opened Replies
  import opened Issues
  import Pagination
  import Expansion
  import opened PageAssembly

  class App {
    var issues: seq<TreeIssue>
    var loading: bool
    var expandedIssues: map<string, bool>
    var prevTokens: seq<string>
    var currentToken: string
    var nextToken: string
    var isLastPage: bool
    var isDeleteModalOpen: bool
    var issueToDelete: Option<string>
    /** The cursors `fetchIssues` was called with, oldest first. */
    ghost var fetched: seq<string>

    function Cursor(): Pagination.Cursor
      reads this
    {
      Pagination.Cursor(prevTokens, currentToken)
    }

    ghost predicate Valid()
      reads this
    {
      Pagination.Valid(Cursor())
    }

    /** The initial values of the hooks (App.js:20-28). */
    constructor ()
      ensures Valid() && Cursor() == Pagination.Initial
      ensures issues == [] && loading && expandedIssues == map[]
      ensures nextToken == "" && !isLastPage
      ensures !isDeleteModalOpen && issueToDelete == None
      ensures fetched == []
    {
      issues := [];
      loading := true;
      expandedIssues := map[];
      prevTokens := [""];
      currentToken := "";
      nextToken := "";
      isLastPage := false;
      isDeleteModalOpen := false;
      issueToDelete := None;
      fetched := [];
    }

    /** `fetchIssues(token)` (App.js:36-85). */
    method FetchIssues(token: string, gw: Gateway)
      modifies this`issues, this`nextToken, this`isLastPage, this`loading, this`fetched
      ensures fetched == old(fetched) + [token]
      ensures !loading
      ensures match FetchPage(token, gw)
        case Some(p) => issues == p.issues && nextToken == p.nextToken && isLastPage == p.isLast
        case None => issues == old(issues) && nextToken == old(nextToken) && isLastPage == old(isLastPage)
    {
      loading := true;
      fetched := fetched + [token];
      var page := FetchPage(token, gw);
      if page.Some? {
        issues := page.value.issues;
        nextToken := page.value.nextToken;
        isLastPage := page.value.isLast;
      }
      loading := false;
    }

    /** `handleNext` (App.js:87-90). */
    method HandleNext()
      requires Valid()
      modifies this`prevTokens, this`currentToken
      ensures Valid()
      ensures Cursor() == Pagination.Next(old(Cursor()), nextToken)
    {
      prevTokens := prevTokens + [currentToken];
      currentToken := nextToken;
    }

    /** `handlePrevious` (App.js:92-99). */
    method HandlePrevious()
      requires Valid()
      modifies this`prevTokens, this`currentToken
      ensures Valid()
      ensures Cursor() == Pagination.Previous(old(Cursor()))
    {
      if |prevTokens| <= 1 {
        return;
      }
      var newPrev := prevTokens[..|prevTokens| - 1];
      prevTokens := newPrev;
      currentToken := newPrev[|newPrev| - 1];
    }

    /** `toggleExpand(id)` (App.js:105-110). */
    method ToggleExpand(id: string)
      modifies this`expandedIssues
      ensures expandedIssues == Expansion.Toggle(old(expandedIssues), id)
    {
      expandedIssues := expandedIssues[id := !(id in expandedIssues && expandedIssues[id])];
    }

    /** `openDeleteModal(issueKey)` (App.js:287-290). */
    method OpenDeleteModal(issueKey: string)
      modifies this`issueToDelete, this`isDeleteModalOpen
      ensures issueToDelete == Some(issueKey) && isDeleteModalOpen
    {
      issueToDelete := Some(issueKey);
      isDeleteModalOpen := true;
    }

    /** `handleDelete` (App.js:291-303): nothing without a (truthy) selected
        key; otherwise re-fetch the current page when `deleteIssue` did not
        throw, and close the modal either way. */
    method HandleDelete(reply: Reply<()>, gw: Gateway)
      modifies this`issues, this`nextToken, this`isLastPage, this`loading, this`fetched
      modifies this`isDeleteModalOpen, this`issueToDelete
      ensures old(issueToDelete) == None || old(issueToDelete) == Some("") ==>
        && issues == old(issues) && nextToken == old(nextToken) && isLastPage == old(isLastPage)
        && loading == old(loading) && fetched == old(fetched)
        && isDeleteModalOpen == old(isDeleteModalOpen) && issueToDelete == old(issueToDelete)
      ensures old(issueToDelete).Some? && old(issueToDelete).value != "" ==>
        && fetched == old(fetched) + (if reply.Returned? then [currentToken] else [])
        && loading == (if reply.Returned? then false else old(loading))
        && !isDeleteModalOpen && issueToDelete == None
      ensures old(issueToDelete).Some? && old(issueToDelete).value != "" && reply.Returned? ==>
        match FetchPage(currentToken, gw)
        case Some(p) => issues == p.issues && nextToken == p.nextToken && isLastPage == p.isLast
        case None => issues == old(issues) && nextToken == old(nextToken) && isLastPage == old(isLastPage)
      ensures reply.Threw? ==> issues == old(issues) && nextToken == old(nextToken) && isLastPage == old(isLastPage)
    {
      if issueToDelete.None? || issueToDelete.value == "" {
        return;
      }
      if reply.Returned? {
        FetchIssues(currentToken, gw);
      }
      isDeleteModalOpen := false;
      issueToDelete := None;
    }
  }
}
