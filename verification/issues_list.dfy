/** The issue list panel, static/hello-world/src/IssuesList.js: the state its
    `useState` hooks hold and the handlers that update it. Rendering is not
    modelled; the gateway's replies and the flag ids are parameters. */
module IssuesListView {
  import opened Replies
  import opened Issues
  import Pagination
  import Expansion
  import opened Flags
  import opened PageAssembly

  class IssuesList {
    var issues: seq<TreeIssue>
    var loading: bool
    var expandedIssues: map<string, bool>
    var prevTokens: seq<string>
    var currentToken: string
    var nextToken: string
    var isLastPage: bool
    var isDeleteModalOpen: bool
    var issueToDelete: Option<string>
    var flags: seq<Flag>
    /** The cursors `fetchIssues` was called with, oldest first. */
    ghost var fetched: seq<string>

    /** The pagination part of the state. */
    function Cursor(): Pagination.Cursor
      reads this
    {
      Pagination.Cursor(prevTokens, currentToken)
    }

    ghost predicate Valid()
      reads this
    {
      Pagination.Valid(Cursor())
    }

    /** Previous is clickable (IssuesList.js:527). */
    predicate CanGoBack()
      reads this
    {
      Pagination.CanGoBack(Cursor())
    }

    /** Next is clickable (IssuesList.js:534). */
    predicate CanGoForward()
      reads this
    {
      !isLastPage
    }

    /** The initial values of the hooks (IssuesList.js:29-46). */
    constructor ()
      ensures Valid() && Cursor() == Pagination.Initial
      ensures issues == [] && loading && expandedIssues == map[]
      ensures nextToken == "" && !isLastPage
      ensures !isDeleteModalOpen && issueToDelete == None && flags == []
      ensures fetched == []
    {
      issues := [];
      loading := true;
      expandedIssues := map[];
      prevTokens := [""];
      currentToken := "";
      nextToken := "";
      isLastPage := false;
      isDeleteModalOpen := false;
      issueToDelete := None;
      flags := [];
      fetched := [];
    }

    /** `fetchIssues(token)`: a successful fetch replaces the page and the
        forward cursor; a thrown one leaves them; `loading` ends false. */
    method FetchIssues(token: string, gw: Gateway)
      modifies this`issues, this`nextToken, this`isLastPage, this`loading, this`fetched
      ensures fetched == old(fetched) + [token]
      ensures !loading
      ensures match FetchPage(token, gw)
        case Some(p) => issues == p.issues && nextToken == p.nextToken && isLastPage == p.isLast
        case None => issues == old(issues) && nextToken == old(nextToken) && isLastPage == old(isLastPage)
    {
      loading := true;
      fetched := fetched + [token];
      var page := FetchPage(token, gw);
      if page.Some? {
        issues := page.value.issues;
        nextToken := page.value.nextToken;
        isLastPage := page.value.isLast;
      }
      loading := false;
    }

    /** The effect that fetches whenever `currentToken` is set
        (IssuesList.js:51-53). */
    method FetchCurrentPage(gw: Gateway)
      modifies this`issues, this`nextToken, this`isLastPage, this`loading, this`fetched
      ensures fetched == old(fetched) + [currentToken]
      ensures !loading
      ensures match FetchPage(currentToken, gw)
        case Some(p) => issues == p.issues && nextToken == p.nextToken && isLastPage == p.isLast
        case None => issues == old(issues) && nextToken == old(nextToken) && isLastPage == old(isLastPage)
    {
      FetchIssues(currentToken, gw);
    }

    /** `handleNext`. */
    method HandleNext()
      requires Valid()
      modifies this`prevTokens, this`currentToken
      ensures Valid()
      ensures Cursor() == Pagination.Next(old(Cursor()), nextToken)
    {
      prevTokens := prevTokens + [currentToken];
      currentToken := nextToken;
    }

    /** `handlePrevious`. */
    method HandlePrevious()
      requires Valid()
      modifies this`prevTokens, this`currentToken
      ensures Valid()
      ensures Cursor() == Pagination.Previous(old(Cursor()))
      ensures !old(CanGoBack()) ==> prevTokens == old(prevTokens) && currentToken == old(currentToken)
    {
      if |prevTokens| <= 1 {
        return;
      }
      var newPrev := prevTokens[..|prevTokens| - 1];
      var newCurrent := newPrev[|newPrev| - 1];
      prevTokens := newPrev;
      currentToken := newCurrent;
    }

    /** `toggleExpand(id)`. */
    method ToggleExpand(id: string)
      modifies this`expandedIssues
      ensures expandedIssues == Expansion.Toggle(old(expandedIssues), id)
      ensures Expansion.IsExpanded(expandedIssues, id) == !Expansion.IsExpanded(old(expandedIssues), id)
    {
      expandedIssues := expandedIssues[id := !(id in expandedIssues && expandedIssues[id])];
    }

    /** `addFlag(description, icon, title)`, with the generated id given. */
    method AddFlag(id: string, description: string, icon: Icon, title: string)
      modifies this`flags
      ensures flags == Add(old(flags), Flag(id, title, description, icon))
    {
      flags := [Flag(id, title, description, icon)] + flags;
    }

    /** `dismissFlag(id)`. */
    method DismissFlag(id: string)
      modifies this`flags
      ensures flags == Dismiss(old(flags), id)
    {
      flags := Dismiss(flags, id);
    }

    /** `handleUpdateComplete(success, message, issueKey)`: re-fetch the
        current page, not the first, and announce the outcome. */
    method HandleUpdateComplete(c: Completion, flagId: string, gw: Gateway)
      modifies this`issues, this`nextToken, this`isLastPage, this`loading, this`fetched, this`flags
      ensures fetched == old(fetched) + [currentToken]
      ensures flags == [UpdateFlag(flagId, c)] + old(flags)
      ensures !loading
      ensures match FetchPage(currentToken, gw)
        case Some(p) => issues == p.issues && nextToken == p.nextToken && isLastPage == p.isLast
        case None => issues == old(issues) && nextToken == old(nextToken) && isLastPage == old(isLastPage)
    {
      FetchIssues(currentToken, gw);
      var f := UpdateFlag(flagId, c);
      AddFlag(f.id, f.description, f.icon, f.title);
    }

    /** `handleCreateComplete(success, message, issueKey)`; the create dialog
        calls it with no arguments, which reads as a failure. */
    method HandleCreateComplete(c: Completion, flagId: string, gw: Gateway)
      modifies this`issues, this`nextToken, this`isLastPage, this`loading, this`fetched, this`flags
      ensures fetched == old(fetched) + [currentToken]
      ensures flags == [CreateFlag(flagId, c)] + old(flags)
      ensures !loading
      ensures c == NoArgs ==> flags[0].icon == ErrorIcon
      ensures match FetchPage(currentToken, gw)
        case Some(p) => issues == p.issues && nextToken == p.nextToken && isLastPage == p.isLast
        case None => issues == old(issues) && nextToken == old(nextToken) && isLastPage == old(isLastPage)
    {
      FetchIssues(currentToken, gw);
      var f := CreateFlag(flagId, c);
      AddFlag(f.id, f.description, f.icon, f.title);
    }

    /** `openDeleteModal(issueKey)`. */
    method OpenDeleteModal(issueKey: string)
      modifies this`issueToDelete, this`isDeleteModalOpen
      ensures issueToDelete == Some(issueKey) && isDeleteModalOpen
    {
      issueToDelete := Some(issueKey);
      isDeleteModalOpen := true;
    }

    /** `handleDelete`: nothing without a (truthy) selected key; otherwise
        announce the outcome of `deleteIssue`, re-fetch the current page only
        when it succeeded, and close the modal either way. */
    method HandleDelete(reply: Reply<()>, flagId: string, gw: Gateway)
      modifies this`issues, this`nextToken, this`isLastPage, this`loading, this`fetched, this`flags
      modifies this`isDeleteModalOpen, this`issueToDelete
      ensures old(issueToDelete) == None || old(issueToDelete) == Some("") ==>
        && issues == old(issues) && nextToken == old(nextToken) && isLastPage == old(isLastPage)
        && loading == old(loading) && fetched == old(fetched) && flags == old(flags)
        && isDeleteModalOpen == old(isDeleteModalOpen) && issueToDelete == old(issueToDelete)
      ensures old(issueToDelete).Some? && old(issueToDelete).value != "" ==>
        && flags == [DeleteFlag(flagId, old(issueToDelete).value, reply)] + old(flags)
        && fetched == old(fetched) + (if reply.Returned? then [currentToken] else [])
        && loading == (if reply.Returned? then false else old(loading))
        && !isDeleteModalOpen && issueToDelete == None
      ensures old(issueToDelete).Some? && old(issueToDelete).value != "" && reply.Returned? ==>
        match FetchPage(currentToken, gw)
        case Some(p) => issues == p.issues && nextToken == p.nextToken && isLastPage == p.isLast
        case None => issues == old(issues) && nextToken == old(nextToken) && isLastPage == old(isLastPage)
      ensures reply.Threw? ==> issues == old(issues) && nextToken == old(nextToken) && isLastPage == old(isLastPage)
    {
      if issueToDelete.None? || issueToDelete.value == "" {
        return;
      }
      var key := issueToDelete.value;
      var f := DeleteFlag(flagId, key, reply);
      AddFlag(f.id, f.description, f.icon, f.title);
      if reply.Returned? {
        FetchIssues(currentToken, gw);
      }
      isDeleteModalOpen := false;
      issueToDelete := None;
    }
  }
}
