# Issues list add-on: client-side state in Dafny

This project models the browser side of a Jira project add-on: a panel that
lists a project's issues one page at a time as a parent/child tree, dialogs
that create and update issues, a delete confirmation, a notification list,
and a project settings page with one switch. The model covers the state the
React components keep and the handlers that change it. Calls to the add-on's
gateway ("resolvers") and to the tracker's REST API are not executed: their
replies are parameters, as values of `Reply<T>` (`Returned(value)` or
`Threw(message)`), or as functions from a request to a reply.

Modules, one per file:

- `Replies` (`replies.dfy`): `Option`, `Reply`, and JavaScript's `||` on
  strings, where `""` is falsy.
- `Issues` (`issues.dfy`): the issue record as the gateway returns it, the
  reply shapes, and the status colour of an issue.
- `Pagination` (`pagination.dfy`): the cursor stack behind Previous/Next,
  as pure transitions, with lemmas about walks through the pages.
- `Expansion` (`expansion.dfy`): the expanded/collapsed map of the tree.
- `Flags` (`flags.dfy`): the notification list and the texts the completion
  handlers put in it.
- `PageAssembly` (`page_assembly.dfy`): how one page of the tree is
  assembled from the list reply and one subtask request per parent.
- `IssuesListView` (`issues_list.dfy`): class `IssuesList`, the issue list
  panel's state and handlers.
- `AppView` (`app.dfy`): class `App`, the older copy of the panel without
  notifications.
- `UpdateDialog` (`update_issue.dfy`): the update dialog's form, the
  differences it sends, the transition lookup, and the outcome of a save.
- `CreateDialog` (`create_issue.dfy`): JavaScript's `trim`, the create
  dialog's validation and field building, option loading and reset.
- `Settings` (`permission_setting.dfy`): class `PermissionSetting`, the
  settings switch and the project property behind it.

The view classes are specified by the pure functions: for example
`IssuesList.HandlePrevious` ensures that the new cursor is
`Pagination.Previous` of the old one, and the lemmas about `Previous` then
apply to the panel.

Three behaviours of the code are modelled as written, with lemmas that show
them:

- Previous from page 3 or later goes back two pages. The stack starts as
  `[""]` and Next pushes the current cursor, so the first page's `""` is on it
  twice, and Previous adopts the entry below the one it pops
  (`Pagination.BackSkipsAPage`, `Pagination.ThirdPageBackLandsOnFirst`). From
  page 2 it does reach page 1 (`Pagination.SecondPageBackLandsOnFirst`).
- The create dialog reports success by calling `onCreate()` with no
  arguments. The issue list's `handleCreateComplete(success, message,
  issueKey)` then reads `success` as `undefined` and adds the "Issue Creation
  Failed" flag with the text "Failed to create issue: undefined"
  (`Flags.CreateWithoutArgumentsReadsAsFailure`,
  `CreateDialog.CreatedIssueIsAnnouncedAsFailure`).
- In the update dialog, a status change whose transitions reply has no
  `transitions` list sends no transition, yet the save is reported as a
  success (`UpdateDialog.MissingTransitionsReportSuccess`).

Two further behaviours of the code:

- The update and create completion handlers re-fetch the current page
  whether or not the operation succeeded, not only after a success.
- The delete handlers treat any `deleteIssue` reply that does not throw as a
  success; the reply's `success` field is not read. Likewise the settings
  page treats any reply to its property write that does not throw as saved,
  whatever its HTTP status.

## Model

| member | source | states |
|---|---|---|
| Pagination.Next | static/hello-world/src/IssuesList.js:104-107 | Next pushes the current cursor onto the stack, keeps every entry below it, and adopts the stored next cursor |
| Pagination.Previous | static/hello-world/src/IssuesList.js:109-116 | Previous changes nothing at depth one; otherwise it pops the top entry and adopts the entry that was second from the top |
| Pagination.StepKeepsValid | static/hello-world/src/IssuesList.js:104-116 | one click keeps the stack non-empty with `""` at the bottom |
| Pagination.RunKeepsValid | static/hello-world/src/IssuesList.js:33 | under every sequence of clicks the stack stays non-empty with `""` at the bottom, so Previous always has a top entry to read |
| Pagination.BackAfterForward | static/hello-world/src/IssuesList.js:104-116 | Previous right after Next restores the stack but adopts the entry below the pushed cursor, not the cursor Next left |
| Pagination.ForwardWalk | static/hello-world/src/IssuesList.js:104-107 | after walking forward from the first page through cursors `ts`, the stack is `["", ""]` followed by all but the last cursor, and the current cursor is the last one |
| Pagination.BackSkipsAPage | static/hello-world/src/IssuesList.js:109-116 | from page k of a forward walk, with k at least 2, Previous lands on page k-2 |
| Pagination.ThirdPageBackLandsOnFirst | static/hello-world/src/IssuesList.js:109-116 | Next, Next, Previous from the start ends on the first page with stack `["", ""]` |
| Pagination.SecondPageBackLandsOnFirst | static/hello-world/src/IssuesList.js:109-116 | Next, Previous from the start returns to the initial state |
| Expansion.Toggle | static/hello-world/src/IssuesList.js:246-251 | toggling flips whether that id is expanded (a missing id counts as collapsed), adds the id to the map, and leaves every other entry alone |
| Expansion.ToggleTwice | static/hello-world/src/IssuesList.js:246-251 | toggling an id twice shows every id as it was |
| Flags.Add | static/hello-world/src/IssuesList.js:137-150 | the new flag goes in front of the existing flags, which keep their order |
| Flags.Dismiss | static/hello-world/src/IssuesList.js:152-154 | a flag remains after dismissing an id exactly when it was there and carries another id |
| Flags.DismissKeepsOrder | static/hello-world/src/IssuesList.js:152-154 | dismissing distributes over concatenation, so the flags kept stay in their order |
| Flags.DismissAbsent | static/hello-world/src/IssuesList.js:152-154 | dismissing an id that no flag carries leaves the list unchanged |
| Flags.DismissUndoesAdd | static/hello-world/src/IssuesList.js:137-154 | dismissing a flag just added with a fresh id gives back the earlier list |
| Flags.UpdateFlag | static/hello-world/src/IssuesList.js:177-192 | the update flag has the given id and is a success flag exactly when `success` is truthy; its description is "Issue <key> updated successfully!" on success and "Failed to update issue: <message>" otherwise, with `undefined` for a missing argument |
| Flags.CreateFlag | static/hello-world/src/IssuesList.js:203-218 | the create flag has the given id and is a success flag exactly when `success` is truthy; its description is "Issue <key> created successfully!" on success and "Failed to create issue: <message>" otherwise, with `undefined` for a missing argument |
| Flags.CreateWithoutArgumentsReadsAsFailure | static/hello-world/src/IssuesList.js:203-218 | called with no arguments, the create handler adds "Issue Creation Failed" with "Failed to create issue: undefined" |
| Flags.DeleteFlag | static/hello-world/src/IssuesList.js:221-243 | the delete flag is a success flag exactly when `deleteIssue` did not throw; on success its description names the deleted key ("Issue <key> deleted successfully!"), on a throw it is "Failed to delete issue: " followed by the message, or "Unknown Error" when the message is empty |
| Issues.ToLower | static/hello-world/src/IssuesList.js:258 | lower-casing keeps the length and maps each ASCII capital to its small letter, leaving other characters |
| Issues.StatusColor | static/hello-world/src/IssuesList.js:253-265 | the colour is grey exactly when the issue, its fields or its status is missing; green exactly for "done", blue exactly for "in progress" and the to-do colour for every other name, after lower-casing |
| Issues.StatusColorIgnoresCase | static/hello-world/src/IssuesList.js:258-264 | two status names that lower-case alike get the same colour |
| Issues.JiraStatusNames | static/hello-world/src/App.js:112-124 | the tracker's "Done", "In Progress" and "To Do" reach green, blue and the to-do colour |
| PageAssembly.JoinKeys | static/hello-world/src/IssuesList.js:71-73 | the subtask request's payload: empty for no subtasks, the key itself for one, and otherwise it starts with the first key followed by a comma and ends with the last key |
| PageAssembly.ChildrenOf | static/hello-world/src/IssuesList.js:70-89 | a parent gets children only when it has subtasks and its subtask request returned them; a returned list of issues becomes its children as is |
| PageAssembly.AttachChildren | static/hello-world/src/IssuesList.js:68-91 | the tree fails exactly when some root lacks `fields`; otherwise it has one entry per root, in order, each the root with its own children |
| PageAssembly.ChildrenDependOnOwnReply | static/hello-world/src/IssuesList.js:74-87 | a parent's children depend on its own subtask reply only |
| PageAssembly.SubtaskFailureIsLocal | static/hello-world/src/IssuesList.js:68-91 | when other parents' subtask requests fail or change, a parent whose own reply is the same keeps the same entry in the tree |
| PageAssembly.FetchPage | static/hello-world/src/IssuesList.js:55-101 | a fetch succeeds exactly when the list request returns and every root has fields; the page then has the roots in order, `nextPageToken` or `""`, and `isLast` or false, and its tree is `AttachChildren` of the roots, so each root carries exactly the children `ChildrenOf` gives it |
| PageAssembly.NoSubtasksNoChildren | static/hello-world/src/IssuesList.js:70-89 | a root without subtasks gets no children, whatever the gateway returns |
| IssuesListView.IssuesList.constructor | static/hello-world/src/IssuesList.js:29-46 | the panel starts on the first page with stack `[""]`, loading, with nothing expanded, no flags and no modal |
| IssuesListView.IssuesList.FetchIssues | static/hello-world/src/IssuesList.js:55-101 | a successful fetch replaces the tree, the next cursor and the last-page mark with the fetched page; a failed one leaves them; loading ends false |
| IssuesListView.IssuesList.FetchCurrentPage | static/hello-world/src/IssuesList.js:51-53 | the effect fetches with the current cursor |
| IssuesListView.IssuesList.HandleNext | static/hello-world/src/IssuesList.js:104-107 | the panel's cursor becomes `Pagination.Next` of the old cursor and the stored next cursor, and the stack stays valid |
| IssuesListView.IssuesList.HandlePrevious | static/hello-world/src/IssuesList.js:109-116 | the panel's cursor becomes `Pagination.Previous` of the old one, unchanged when Previous is disabled, and the stack stays valid |
| IssuesListView.IssuesList.ToggleExpand | static/hello-world/src/IssuesList.js:246-251 | the expansion map becomes `Expansion.Toggle` of the old map |
| IssuesListView.IssuesList.AddFlag | static/hello-world/src/IssuesList.js:137-150 | the flag list becomes `Flags.Add` of the old list |
| IssuesListView.IssuesList.DismissFlag | static/hello-world/src/IssuesList.js:152-154 | the flag list becomes `Flags.Dismiss` of the old list |
| IssuesListView.IssuesList.HandleUpdateComplete | static/hello-world/src/IssuesList.js:177-192 | the current page, not the first, is re-fetched, the update flag is put in front, and loading ends false |
| IssuesListView.IssuesList.HandleCreateComplete | static/hello-world/src/IssuesList.js:203-218 | the current page is re-fetched, the create flag is put in front (without arguments it is an error flag), and loading ends false |
| IssuesListView.IssuesList.OpenDeleteModal | static/hello-world/src/IssuesList.js:436-439 | the key to delete is stored and the modal opens |
| IssuesListView.IssuesList.HandleDelete | static/hello-world/src/IssuesList.js:221-243 | without a truthy key to delete nothing changes; otherwise the delete flag is put in front, the current page is re-fetched, ending with loading false, only when the delete did not throw, a thrown delete leaves the page and loading as they were, and the modal closes and forgets the key either way |
| AppView.App.constructor | static/hello-world/src/App.js:20-28 | the older panel starts on the first page with stack `[""]`, loading, nothing expanded and no modal |
| AppView.App.FetchIssues | static/hello-world/src/App.js:36-85 | the older panel's fetch stores the fetched page on success and leaves the page on failure |
| AppView.App.HandleNext | static/hello-world/src/App.js:87-90 | the cursor becomes `Pagination.Next` of the old cursor |
| AppView.App.HandlePrevious | static/hello-world/src/App.js:92-99 | the cursor becomes `Pagination.Previous` of the old cursor |
| AppView.App.ToggleExpand | static/hello-world/src/App.js:105-110 | the expansion map becomes `Expansion.Toggle` of the old map |
| AppView.App.OpenDeleteModal | static/hello-world/src/App.js:287-290 | the key to delete is stored and the modal opens |
| AppView.App.HandleDelete | static/hello-world/src/App.js:291-303 | without a truthy key nothing changes; otherwise the current page is re-fetched, ending with loading false, only when the delete did not throw, a thrown delete leaves the page and loading as they were, and the modal closes and forgets the key either way |
| UpdateDialog.AssigneeFieldFor | static/hello-world/src/UpdateIssueDialog.js:250-252 | a truthy account id is sent as that account, anything else as unassign |
| UpdateDialog.Diff | static/hello-world/src/UpdateIssueDialog.js:197-255 | each field is sent exactly when the form's value differs from the issue's, and it is sent with the form's value |
| UpdateDialog.FindTransition | static/hello-world/src/UpdateIssueDialog.js:232-234 | the index found is of the first transition into the status; none when no transition leads there |
| UpdateDialog.LookupTransition | static/hello-world/src/UpdateIssueDialog.js:225-243 | a throw fails with its message or "Error updating issue"; no list skips the transition; a list without a transition into the status fails with "No transition found for status: " and the label; otherwise the found id is that of the first transition into the status |
| UpdateDialog.MutationStep | static/hello-world/src/UpdateIssueDialog.js:264-296 | a step succeeds exactly when its call returned `success: true`; a throw reports its message or "Error updating issue", and `success: false` reports the reply's error or the step's default text |
| UpdateDialog.CollectChanges | static/hello-world/src/UpdateIssueDialog.js:197-255 | the step-by-step comparison builds exactly `Diff`, and its transition lookup is `TransitionLookup` |
| UpdateDialog.HandleUpdate | static/hello-world/src/UpdateIssueDialog.js:191-317 | the calls made and the outcome are those of `UpdatePlan`, whose properties the lemmas below state |
| UpdateDialog.NoIssueDoesNothing | static/hello-world/src/UpdateIssueDialog.js:192 | without an issue the save makes no call and reports nothing |
| UpdateDialog.NoChangesOnlyCloses | static/hello-world/src/UpdateIssueDialog.js:257-262 | with nothing changed and no status change, the dialog closes without any gateway call and without `onUpdate` |
| UpdateDialog.LookupComesFirst | static/hello-world/src/UpdateIssueDialog.js:219-243 | the transitions are fetched, as the first call, exactly when the status changed; a failed lookup is reported before any update is sent |
| UpdateDialog.SentFieldsAreTheDiff | static/hello-world/src/UpdateIssueDialog.js:258-270 | every update sent carries exactly the differences, and one is sent exactly when something differs and the lookup did not fail |
| UpdateDialog.TransitionFollowsFieldUpdate | static/hello-world/src/UpdateIssueDialog.js:282-286 | a transition is sent exactly when the lookup found a truthy id and the field update succeeded or was not needed; it carries the found id and is the last call |
| UpdateDialog.CallsInOrder | static/hello-world/src/UpdateIssueDialog.js:225-286 | the calls come in the order transitions lookup, field update, transition, each at most once, all for the dialog's issue |
| UpdateDialog.SuccessIffEveryStepSucceeded | static/hello-world/src/UpdateIssueDialog.js:298-305 | success is reported exactly when there was something to do and every step that ran succeeded, with "Issue K updated successfully" |
| UpdateDialog.FailureNamesTheFailedStep | static/hello-world/src/UpdateIssueDialog.js:271-315 | a failure reports the failed step's error or default text: the field update's when it failed, otherwise the transition's |
| UpdateDialog.MissingTransitionsReportSuccess | static/hello-world/src/UpdateIssueDialog.js:230-244 | a status change alone, with no transitions list in the reply, makes only the lookup call and is reported as a success |
| UpdateDialog.InitialForm | static/hello-world/src/UpdateIssueDialog.js:60-96 | the form takes the issue's summary (or `""`), its description, its type and its status as `{ name, id }` options when present (else keeps the earlier ones), and its assignee as `{ displayName, accountId }` or "Unassigned" |
| UpdateDialog.UntouchedFormChangesNothing | static/hello-world/src/UpdateIssueDialog.js:197-262 | saving a form just filled from an issue with summary, type and status changes nothing |
| UpdateDialog.MissingSummaryIsAlwaysSent | static/hello-world/src/UpdateIssueDialog.js:201-203 | an issue without a summary gets the form's summary sent on every save |
| UpdateDialog.EmptyAccountIdIsAlwaysSent | static/hello-world/src/UpdateIssueDialog.js:247-253 | an assignee with an empty account id is sent as unassign on every save of an untouched form |
| UpdateDialog.AssigneeOptions | static/hello-world/src/UpdateIssueDialog.js:136-143 | the assignee picker lists "Unassigned" first and then one option per assignable user, in order |
| UpdateDialog.UpdateIssueDialog.constructor | static/hello-world/src/UpdateIssueDialog.js:19-23 | the form starts empty with nothing selected |
| UpdateDialog.UpdateIssueDialog.InitializeForm | static/hello-world/src/UpdateIssueDialog.js:60-96 | the form becomes `InitialForm` of the argument, else of the issue prop, and stays as it is when both are missing |
| CreateDialog.TrimStart | static/hello-world/src/CreateIssueDialog.js:82 | the result is a suffix of the text, only white space is cut, and it does not start with white space |
| CreateDialog.TrimEnd | static/hello-world/src/CreateIssueDialog.js:82 | the result is a prefix of the text, only white space is cut, and it does not end with white space |
| CreateDialog.TrimEmptyIffBlank | static/hello-world/src/CreateIssueDialog.js:82-85 | the trimmed text is empty exactly when the text is all white space |
| CreateDialog.TrimCutsOnlyWhiteSpace | static/hello-world/src/CreateIssueDialog.js:99 | the trimmed text is a contiguous part of the text with only white space on both sides, and has none at its ends |
| CreateDialog.TrimIdempotent | static/hello-world/src/CreateIssueDialog.js:99 | trimming twice is trimming once |
| CreateDialog.TypeOptions | static/hello-world/src/CreateIssueDialog.js:56-62 | one picker option per issue type, in order, labelled with its name and valued with its id |
| CreateDialog.Validate | static/hello-world/src/CreateIssueDialog.js:82-106 | a blank summary is rejected first, then a missing type; otherwise the fields hold the trimmed, non-empty summary and the selected type's id, and a description exactly when it is not blank, trimmed |
| CreateDialog.ValidatedFieldsAreStable | static/hello-world/src/CreateIssueDialog.js:98-106 | validating the fields just built gives the same fields back |
| CreateDialog.OutcomeOf | static/hello-world/src/CreateIssueDialog.js:115-128 | the issue counts as created exactly when the reply says `success`, with the reply's key; a throw alerts "Error creating issue: <message>"; a reply without `success` alerts "Failed to create issue: " followed by its error, or "Unknown error" when there is none |
| CreateDialog.CreatedIssueIsAnnouncedAsFailure | static/hello-world/src/CreateIssueDialog.js:116 | the issue list is told about a create exactly when it succeeded, and then shows an error flag |
| CreateDialog.CreateIssueDialog.constructor | static/hello-world/src/CreateIssueDialog.js:18-25 | the dialog starts with an empty form, no options and no spinners |
| CreateDialog.CreateIssueDialog.InitializeForm | static/hello-world/src/CreateIssueDialog.js:34-38 | reset empties summary and description and clears the type |
| CreateDialog.CreateIssueDialog.HandleClose | static/hello-world/src/CreateIssueDialog.js:134-137 | closing always resets the form |
| CreateDialog.CreateIssueDialog.LoadOptions | static/hello-world/src/CreateIssueDialog.js:40-78 | an array reply becomes the options and its first entry is selected when there is one; anything else empties the options and leaves the selection |
| CreateDialog.CreateIssueDialog.HandleCreate | static/hello-world/src/CreateIssueDialog.js:80-132 | an invalid form alerts and calls nothing; otherwise `createIssue` gets the project key and the validated fields, and the outcome follows its reply |
| Settings.PropertyPath | static/hello-world/src/PermissionSetting.js:24 | the property lives at `/rest/api/3/project/<key>/properties/show-project-page`, with "undefined" for a missing key |
| Settings.EnabledForStatus | static/hello-world/src/PermissionSetting.js:30-38 | status 200 turns the switch off, 404 and 409 turn it on, and any other status is an error |
| Settings.ToggleRequest | static/hello-world/src/PermissionSetting.js:51-78 | turning the switch on deletes the property; turning it off writes `{ value: true }` to it |
| Settings.LoadAgrees | static/hello-world/src/PermissionSetting.js:30-35 | loading shows the switch on exactly when the property is absent |
| Settings.ToggleKeepsAgreement | static/hello-world/src/PermissionSetting.js:56-80 | an applied toggle keeps the switch in agreement with the property, and two toggles restore the property |
| Settings.PermissionSetting.constructor | static/hello-world/src/PermissionSetting.js:8-12 | the page starts on, loading, not saving, without an error, and with the switch disabled |
| Settings.PermissionSetting.FetchData | static/hello-world/src/PermissionSetting.js:15-48 | a recognised status sets the switch; a throw or another status sets the load error and leaves the switch; loading ends false |
| Settings.PermissionSetting.HandleToggle | static/hello-world/src/PermissionSetting.js:50-87 | the request follows the switch position; the switch flips and the error clears unless the request throws, when the switch stays and the save error is set; saving ends false |

## Left out

- `src/index.js` is not part of this model: its resolvers pass requests to the tracker, and the model takes their replies as parameters.
- Rendering, styles, icons and the view-issue, update and create modal open/close handlers of the issue list are not modelled.
- `fetchIssues` is not awaited by its callers, and subtask requests run in parallel; the model runs each fetch to completion, so overlapping fetches and stale replies are not modelled.
- The project key that `fetchIssues` reads from the view context is not part of the modelled list request; a throw of `view.getContext` is a thrown list reply.
- IssuesListView.IssuesList.FetchCurrentPage: React runs the effect only when `currentToken` changes value; the method fetches whenever it is called.
- Flag ids come from `Date.now()` and `Math.random()` and are parameters; the `created` timestamp is not modelled.
- Issues.ToLower: lower-cases ASCII letters only, not the rest of Unicode.
- Issues.StatusColor: the JavaScript lookup is on a plain object, so the status names "constructor" and "__proto__" return inherited members instead of a colour; the model returns the to-do colour for them.
- Exceptions from reading missing nested properties (a transition without `to`, a status without `name`, a reply that is `undefined`) are not modelled, except a root issue without `fields`, which fails the whole fetch.
- The update dialog's `loadOptions`, `handleIssueTypeChange` and `fetchIssueData` (an `issue` prop given as a key) are not modelled beyond the assignee options, and neither are its `loading` spinners or `handleClose`, which only calls `onClose`.
- App.js `handleUpdate` only logs and is not modelled.
- CreateDialog.OutcomeOf: a success reply without an issue throws while building the alert, after `onCreate` and `onClose` ran; the model records the missing key instead of the thrown message.
- The text of `alert` and `console` output beyond the messages the outcomes carry is not modelled.
- The page size is the constant 5 sent with every list request; that a page holds at most 5 roots depends on the tracker and is not stated.
