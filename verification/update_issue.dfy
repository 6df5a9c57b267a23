/** The update dialog, static/hello-world/src/UpdateIssueDialog.js: the form
    it fills from an issue, and `handleUpdate`, which compares the form with
    the issue, looks up the workflow transition for a new status, and sends
    the field update and then the transition. The replies of the gateway calls
    are parameters; the calls the dialog makes are returned in order. */
module UpdateDialog {
  import opened Replies
  import opened Issues

  /** An option of the issue-type or status picker: `{ label, value }`, with the label as `text`. */
  datatype Choice = Choice(text: string, value: string)

  /** An option of the assignee picker; "Unassigned" has the value `null`. */
  datatype AssigneeChoice = AssigneeChoice(text: string, value: Option<string>)

  /** The dialog's form state (UpdateIssueDialog.js:19-23). */
  datatype Form = Form(
    summary: string,
    description: string,
    issueType: Option<Choice>,
    status: Option<Choice>,
    assignee: Option<AssigneeChoice>)

  /** `fields.assignee`: `{ accountId }`, or `null` to unassign. */
  datatype AssigneeField = AssignTo(accountId: string) | Unassign

  /** The `fields` object sent to `updateIssue`; `None` is a key it lacks. */
  datatype FieldChanges = FieldChanges(
    summary: Option<string>,
    description: Option<string>,
    issuetype: Option<string>,
    assignee: Option<AssigneeField>)

  /** `Object.keys(fields).length > 0`. */
  predicate HasChanges(d: FieldChanges) {
    d.summary.Some? || d.description.Some? || d.issuetype.Some? || d.assignee.Some?
  }

  /** `issue.fields?.summary`. */
  function CurrentSummary(issue: Issue): Option<string> {
    if issue.fields.Some? then issue.fields.value.summary else None
  }

  /** `issue.fields?.description || ""`. */
  function CurrentDescription(issue: Issue): string {
    if issue.fields.Some? then OrElse(issue.fields.value.description, "") else ""
  }

  /** `issue.fields?.issuetype?.id`. */
  function CurrentTypeId(issue: Issue): Option<string> {
    if issue.fields.Some? && issue.fields.value.issuetype.Some? then Some(issue.fields.value.issuetype.value.id) else None
  }

  /** `issue.fields?.status?.id`. */
  function CurrentStatusId(issue: Issue): Option<string> {
    if issue.fields.Some? && issue.fields.value.status.Some? then Some(issue.fields.value.status.value.id) else None
  }

  /** `issue.fields?.assignee?.accountId || null`. */
  function CurrentAssigneeId(issue: Issue): Option<string> {
    if issue.fields.Some? && issue.fields.value.assignee.Some? && issue.fields.value.assignee.value.accountId != ""
    then Some(issue.fields.value.assignee.value.accountId)
    else None
  }

  /** `value ? { accountId: value } : null`. */
  function AssigneeFieldFor(value: Option<string>): (a: AssigneeField)
    ensures a.AssignTo? <==> value.Some? && value.value != ""
    ensures a.AssignTo? ==> a.accountId == value.value
  {
    if value.Some? && value.value != "" then AssignTo(value.value) else Unassign
  }

  /** A status is selected and differs from the issue's (UpdateIssueDialog.js:220-223). */
  predicate StatusChanged(form: Form, issue: Issue) {
    form.status.Some? && Some(form.status.value.value) != CurrentStatusId(issue)
  }

  /** The fields `handleUpdate` sends: each one exactly when the form differs
      from the issue (UpdateIssueDialog.js:201-255). */
  function Diff(form: Form, issue: Issue): (d: FieldChanges)
    ensures d.summary.Some? <==> Some(form.summary) != CurrentSummary(issue)
    ensures d.description.Some? <==> form.description != CurrentDescription(issue)
    ensures d.issuetype.Some? <==> form.issueType.Some? && Some(form.issueType.value.value) != CurrentTypeId(issue)
    ensures d.assignee.Some? <==> form.assignee.Some? && form.assignee.value.value != CurrentAssigneeId(issue)
    ensures d.summary.Some? ==> d.summary.value == form.summary
    ensures d.description.Some? ==> d.description.value == form.description
    ensures d.issuetype.Some? ==> d.issuetype.value == form.issueType.value.value
    ensures d.assignee.Some? ==> d.assignee.value == AssigneeFieldFor(form.assignee.value.value)
  {
    FieldChanges(
      if Some(form.summary) != CurrentSummary(issue) then Some(form.summary) else None,
      if form.description != CurrentDescription(issue) then Some(form.description) else None,
      if form.issueType.Some? && Some(form.issueType.value.value) != CurrentTypeId(issue)
      then Some(form.issueType.value.value) else None,
      if form.assignee.Some? && form.assignee.value.value != CurrentAssigneeId(issue)
      then Some(AssigneeFieldFor(form.assignee.value.value)) else None)
  }

  /** A workflow transition as `getTransitions` lists it: `{ id, to: { id } }`. */
  datatype Transition = Transition(id: string, toId: string)

  /** The reply of `getTransitions`: `{ transitions }`, which may be missing. */
  datatype TransitionsReply = TransitionsReply(transitions: Option<seq<Transition>>)

  /** `transitions.find(t => t.to.id === statusId)`, as an index: the first
      transition into the status, or none when no transition leads there. */
  function FindTransition(ts: seq<Transition>, statusId: string): (r: Option<nat>)
    ensures r.Some? ==> r.value < |ts| && ts[r.value].toId == statusId
    ensures r.Some? ==> forall j :: 0 <= j < r.value ==> ts[j].toId != statusId
    ensures r.None? ==> forall j :: 0 <= j < |ts| ==> ts[j].toId != statusId
    decreases |ts|
  {
    if ts == [] then None
    else if ts[0].toId == statusId then Some(0)
    else
      match FindTransition(ts[1..], statusId)
      case None => None
      case Some(i) => Some(i + 1)
  }

  /** What the transition lookup decides once a status change is needed. */
  datatype Lookup =
    | Skipped                      // no `transitions` in the reply: no transition is sent
    | Found(transitionId: string)  // the id of the first matching transition
    | Failed(message: string)      // the lookup threw; its message is reported

  /** The lookup of UpdateIssueDialog.js:227-243 for the selected status. */
  function LookupTransition(reply: Reply<TransitionsReply>, status: Choice): (l: Lookup)
    ensures reply.Threw? ==> l == Failed(Or(reply.message, "Error updating issue"))
    ensures reply.Returned? && reply.value.transitions.None? ==> l == Skipped
    ensures l.Found? <==>
      reply.Returned? && reply.value.transitions.Some? && FindTransition(reply.value.transitions.value, status.value).Some?
    ensures l.Found? ==>
      exists j :: 0 <= j < |reply.value.transitions.value| &&
        reply.value.transitions.value[j].toId == status.value && reply.value.transitions.value[j].id == l.transitionId
    ensures reply.Returned? && reply.value.transitions.Some? && FindTransition(reply.value.transitions.value, status.value).None?
      ==> l == Failed("No transition found for status: " + status.text)
    ensures l.Found? ==>
      l.transitionId == reply.value.transitions.value[FindTransition(reply.value.transitions.value, status.value).value].id
  {
    match reply
    case Threw(m) => Failed(Or(m, "Error updating issue"))
    case Returned(r) =>
      if r.transitions.None? then Skipped
      else
        match FindTransition(r.transitions.value, status.value)
        case Some(i) => Found(r.transitions.value[i].id)
        case None => Failed("No transition found for status: " + status.text)
  }

  /** The lookup as `handleUpdate` sees it: none without a status change. */
  function TransitionLookup(form: Form, issue: Issue, reply: Reply<TransitionsReply>): Lookup {
    if StatusChanged(form, issue) then LookupTransition(reply, form.status.value) else Skipped
  }

  /** The reply of `updateIssue` and `transitionIssue`: `{ success, error }`. */
  datatype MutationReply = MutationReply(success: bool, error: Option<string>)

  /** A gateway call the dialog makes. */
  datatype Call =
    | GetTransitions(issueKey: string)
    | UpdateIssue(issueKey: string, fields: FieldChanges)
    | TransitionIssue(issueKey: string, transitionId: string)

  /** The order the calls are made in. */
  function Rank(c: Call): nat {
    match c
    case GetTransitions(_) => 0
    case UpdateIssue(_, _) => 1
    case TransitionIssue(_, _) => 2
  }

  /** How `handleUpdate` ends: without an issue it does nothing; without
      changes it only closes; otherwise it calls `onUpdate(success, message,
      key)`, and `onClose` as well when it succeeded. */
  datatype UpdateOutcome =
    | Ignored
    | ClosedUnchanged
    | Reported(success: bool, message: string, issueKey: string)

  /** How one mutating call (`updateIssue`, `transitionIssue`) went: it
      succeeded, it returned `success: false` with a message, or it threw. */
  datatype StepResult = StepOk | Rejected(message: string) | Raised(message: string)

  /** One mutating call's result; `fallback` stands in for a missing error. */
  function MutationStep(reply: Reply<MutationReply>, fallback: string): (r: StepResult)
    ensures r.StepOk? <==> reply.Returned? && reply.value.success
    ensures reply.Threw? ==> r == Raised(Or(reply.message, "Error updating issue"))
    ensures reply.Returned? && !reply.value.success ==> r == Rejected(OrElse(reply.value.error, fallback))
  {
    match reply
    case Threw(m) => Raised(Or(m, "Error updating issue"))
    case Returned(res) => if res.success then StepOk else Rejected(OrElse(res.error, fallback))
  }

  /** The field update's result; `StepOk` when there is nothing to send. */
  function FieldStep(d: FieldChanges, updateReply: Reply<MutationReply>): StepResult {
    if HasChanges(d) then MutationStep(updateReply, "Failed to update issue fields") else StepOk
  }

  /** The transition is sent: a status change whose lookup found a truthy id,
      after a field update that was not needed or succeeded
      (UpdateIssueDialog.js:282). */
  predicate TransitionSent(form: Form, issue: Issue, transitionsReply: Reply<TransitionsReply>, updateReply: Reply<MutationReply>) {
    var l := TransitionLookup(form, issue, transitionsReply);
    l.Found? && l.transitionId != "" && FieldStep(Diff(form, issue), updateReply).StepOk?
  }

  /** The calls `handleUpdate` makes, in order, and how it ends. */
  datatype Plan = Plan(calls: seq<Call>, outcome: UpdateOutcome)

  /** The specification of `handleUpdate` as a composition of its steps: the
      lookup, the field update, the transition, and the report of the first
      step that failed. */
  function UpdatePlan(
    issue: Option<Issue>, form: Form,
    transitionsReply: Reply<TransitionsReply>,
    updateReply: Reply<MutationReply>,
    transitionReply: Reply<MutationReply>): Plan
  {
    if issue.None? then Plan([], Ignored)
    else
      var it := issue.value;
      var key := it.key;
      var d := Diff(form, it);
      var lookup := TransitionLookup(form, it, transitionsReply);
      var fetchCalls := if StatusChanged(form, it) then [GetTransitions(key)] else [];
      if lookup.Failed? then Plan(fetchCalls, Reported(false, lookup.message, key))
      else if !HasChanges(d) && !StatusChanged(form, it) then Plan([], ClosedUnchanged)
      else
        var updateCalls := fetchCalls + (if HasChanges(d) then [UpdateIssue(key, d)] else []);
        var fieldStep := FieldStep(d, updateReply);
        if fieldStep.Raised? then Plan(updateCalls, Reported(false, fieldStep.message, key))
        else if !TransitionSent(form, it, transitionsReply, updateReply) then
          if fieldStep.Rejected? then Plan(updateCalls, Reported(false, fieldStep.message, key))
          else Plan(updateCalls, Reported(true, "Issue " + key + " updated successfully", key))
        else
          var allCalls := updateCalls + [TransitionIssue(key, lookup.transitionId)];
          var transitionStep := MutationStep(transitionReply, "Failed to update issue status");
          if transitionStep.StepOk? then Plan(allCalls, Reported(true, "Issue " + key + " updated successfully", key))
          else Plan(allCalls, Reported(false, transitionStep.message, key))
  }

  /** The first half of `handleUpdate` (UpdateIssueDialog.js:204-253): the
      field-by-field comparison and, for a status change, the transition
      lookup, which ends the handler when it fails. */
  method CollectChanges(form: Form, it: Issue, transitionsReply: Reply<TransitionsReply>)
    returns (fields: FieldChanges, lookup: Lookup)
    ensures lookup == TransitionLookup(form, it, transitionsReply)
    ensures !lookup.Failed? ==> fields == Diff(form, it)
  {
    fields := FieldChanges(None, None, None, None);
    lookup := Skipped;
    if Some(form.summary) != CurrentSummary(it) {
      fields := fields.(summary := Some(form.summary));
    }
    if form.description != CurrentDescription(it) {
      fields := fields.(description := Some(form.description));
    }
    if form.issueType.Some? && Some(form.issueType.value.value) != CurrentTypeId(it) {
      fields := fields.(issuetype := Some(form.issueType.value.value));
    }
    if form.status.Some? && Some(form.status.value.value) != CurrentStatusId(it) {
      match transitionsReply {
        case Threw(m) =>
          lookup := Failed(Or(m, "Error updating issue"));
          return;
        case Returned(r) =>
          if r.transitions.Some? {
            var found := FindTransition(r.transitions.value, form.status.value.value);
            if found.Some? {
              lookup := Found(r.transitions.value[found.value].id);
            } else {
              lookup := Failed("No transition found for status: " + form.status.value.text);
              return;
            }
          }
      }
    }
    if form.assignee.Some? {
      var currentAssigneeId := CurrentAssigneeId(it);
      if form.assignee.value.value != currentAssigneeId {
        fields := fields.(assignee := Some(AssigneeFieldFor(form.assignee.value.value)));
      }
    }
  }

  /** `handleUpdate`, step by step as the dialog runs it. */
  method HandleUpdate(
    issue: Option<Issue>, form: Form,
    transitionsReply: Reply<TransitionsReply>,
    updateReply: Reply<MutationReply>,
    transitionReply: Reply<MutationReply>)
    returns (calls: seq<Call>, outcome: UpdateOutcome)
    ensures Plan(calls, outcome) == UpdatePlan(issue, form, transitionsReply, updateReply, transitionReply)
  {
    calls := [];
    if issue.None? {
      outcome := Ignored;
      return;
    }
    var it := issue.value;
    var key := it.key;
    var statusTransitionNeeded := StatusChanged(form, it);
    if statusTransitionNeeded {
      calls := calls + [GetTransitions(key)];
    }
    var fields, lookup := CollectChanges(form, it, transitionsReply);
    if lookup.Failed? {
      outcome := Reported(false, lookup.message, key);
      return;
    }

    var needsFieldUpdate := HasChanges(fields);
    if !needsFieldUpdate && !statusTransitionNeeded {
      outcome := ClosedUnchanged;
      return;
    }
    var success := true;
    var errorMessage: Option<string> := None;
    if needsFieldUpdate {
      calls := calls + [UpdateIssue(key, fields)];
      match updateReply {
        case Threw(m) =>
          outcome := Reported(false, Or(m, "Error updating issue"), key);
          return;
        case Returned(r) =>
          if !r.success {
            success := false;
            errorMessage := Some(OrElse(r.error, "Failed to update issue fields"));
          }
      }
    }
    assert success <==> FieldStep(fields, updateReply).StepOk?;
    if statusTransitionNeeded && success && lookup.Found? && lookup.transitionId != "" {
      calls := calls + [TransitionIssue(key, lookup.transitionId)];
      match transitionReply {
        case Threw(m) =>
          outcome := Reported(false, Or(m, "Error updating issue"), key);
          return;
        case Returned(r) =>
          if !r.success {
            success := false;
            errorMessage := Some(OrElse(r.error, "Failed to update issue status"));
          }
      }
    }
    if success {
      outcome := Reported(true, "Issue " + key + " updated successfully", key);
    } else {
      outcome := Reported(false, OrElse(errorMessage, "Failed to update issue"), key);
    }
  }

  /** Without an issue `handleUpdate` returns at once. */
  lemma NoIssueDoesNothing(form: Form, tr: Reply<TransitionsReply>, ur: Reply<MutationReply>, xr: Reply<MutationReply>)
    ensures UpdatePlan(None, form, tr, ur, xr) == Plan([], Ignored)
  {
  }

  /** Nothing to change and no status change: the dialog closes without any
      gateway call and without `onUpdate`. */
  lemma NoChangesOnlyCloses(issue: Issue, form: Form, tr: Reply<TransitionsReply>, ur: Reply<MutationReply>, xr: Reply<MutationReply>)
    requires !HasChanges(Diff(form, issue)) && !StatusChanged(form, issue)
    ensures UpdatePlan(Some(issue), form, tr, ur, xr) == Plan([], ClosedUnchanged)
  {
  }

  /** The transitions are fetched exactly when the status changed, and a
      failed lookup (a throw, or no transition into the status) is reported
      before any field update is sent. */
  lemma LookupComesFirst(issue: Issue, form: Form, tr: Reply<TransitionsReply>, ur: Reply<MutationReply>, xr: Reply<MutationReply>)
    ensures var p := UpdatePlan(Some(issue), form, tr, ur, xr);
      StatusChanged(form, issue) <==> |p.calls| > 0 && p.calls[0] == GetTransitions(issue.key)
    ensures var l := TransitionLookup(form, issue, tr);
      l.Failed? ==> UpdatePlan(Some(issue), form, tr, ur, xr) == Plan([GetTransitions(issue.key)], Reported(false, l.message, issue.key))
  {
  }

  /** An update is sent exactly when a field changed and the lookup did not
      fail, and what it sends is exactly the differences. */
  lemma SentFieldsAreTheDiff(issue: Issue, form: Form, tr: Reply<TransitionsReply>, ur: Reply<MutationReply>, xr: Reply<MutationReply>)
    ensures var p := UpdatePlan(Some(issue), form, tr, ur, xr);
      forall c :: c in p.calls && c.UpdateIssue? ==> c == UpdateIssue(issue.key, Diff(form, issue))
    ensures UpdateIssue(issue.key, Diff(form, issue)) in UpdatePlan(Some(issue), form, tr, ur, xr).calls <==>
      HasChanges(Diff(form, issue)) && !TransitionLookup(form, issue, tr).Failed?
  {
  }

  /** The transition is sent only after the field update succeeded (or was not
      needed), with the id the lookup found, and as the last call. */
  lemma TransitionFollowsFieldUpdate(issue: Issue, form: Form, tr: Reply<TransitionsReply>, ur: Reply<MutationReply>, xr: Reply<MutationReply>)
    ensures var p := UpdatePlan(Some(issue), form, tr, ur, xr);
      (exists c :: c in p.calls && c.TransitionIssue?) <==> TransitionSent(form, issue, tr, ur)
    ensures var p := UpdatePlan(Some(issue), form, tr, ur, xr);
      forall c :: c in p.calls && c.TransitionIssue? ==>
        && c == TransitionIssue(issue.key, TransitionLookup(form, issue, tr).transitionId)
        && c == p.calls[|p.calls| - 1]
        && (HasChanges(Diff(form, issue)) ==> ur.Returned? && ur.value.success)
  {
    var p := UpdatePlan(Some(issue), form, tr, ur, xr);
    if TransitionSent(form, issue, tr, ur) {
      assert p.calls[|p.calls| - 1].TransitionIssue?;
    }
  }

  /** The calls are made in the order transitions, update, transition, each
      at most once, all for the dialog's issue. */
  lemma CallsInOrder(issue: Issue, form: Form, tr: Reply<TransitionsReply>, ur: Reply<MutationReply>, xr: Reply<MutationReply>)
    ensures var p := UpdatePlan(Some(issue), form, tr, ur, xr);
      forall a, b :: 0 <= a < b < |p.calls| ==> Rank(p.calls[a]) < Rank(p.calls[b])
    ensures forall c :: c in UpdatePlan(Some(issue), form, tr, ur, xr).calls ==> c.issueKey == issue.key
  {
  }

  /** `onUpdate(true, ...)` (and `onClose`) exactly when there was something
      to do and every step that ran succeeded. */
  lemma SuccessIffEveryStepSucceeded(issue: Issue, form: Form, tr: Reply<TransitionsReply>, ur: Reply<MutationReply>, xr: Reply<MutationReply>)
    ensures var o := UpdatePlan(Some(issue), form, tr, ur, xr).outcome;
      o.Reported? && o.success <==>
        && (HasChanges(Diff(form, issue)) || StatusChanged(form, issue))
        && !TransitionLookup(form, issue, tr).Failed?
        && FieldStep(Diff(form, issue), ur).StepOk?
        && (TransitionSent(form, issue, tr, ur) ==> xr.Returned? && xr.value.success)
    ensures var o := UpdatePlan(Some(issue), form, tr, ur, xr).outcome;
      o.Reported? && o.success ==> o.message == "Issue " + issue.key + " updated successfully" && o.issueKey == issue.key
  {
  }

  /** A failure reports the message of the step that failed: the field
      update's error (or its default text) when it failed, otherwise the
      transition's. */
  lemma FailureNamesTheFailedStep(issue: Issue, form: Form, tr: Reply<TransitionsReply>, ur: Reply<MutationReply>, xr: Reply<MutationReply>)
    requires (HasChanges(Diff(form, issue)) || StatusChanged(form, issue)) && !TransitionLookup(form, issue, tr).Failed?
    ensures !FieldStep(Diff(form, issue), ur).StepOk? ==>
      UpdatePlan(Some(issue), form, tr, ur, xr).outcome == Reported(false, FieldStep(Diff(form, issue), ur).message, issue.key)
    ensures TransitionSent(form, issue, tr, ur) && !(xr.Returned? && xr.value.success) ==>
      UpdatePlan(Some(issue), form, tr, ur, xr).outcome
        == Reported(false, MutationStep(xr, "Failed to update issue status").message, issue.key)
  {
  }

  /** A status change whose reply lists no `transitions` sends no transition
      yet is reported as a success. */
  lemma MissingTransitionsReportSuccess(issue: Issue, form: Form, ur: Reply<MutationReply>, xr: Reply<MutationReply>)
    requires StatusChanged(form, issue) && !HasChanges(Diff(form, issue))
    ensures UpdatePlan(Some(issue), form, Returned(TransitionsReply(None)), ur, xr)
      == Plan([GetTransitions(issue.key)], Reported(true, "Issue " + issue.key + " updated successfully", issue.key))
  {
  }

  /** The form `initializeForm` fills from an issue (UpdateIssueDialog.js:60-96):
      a missing type or status leaves the previous selection in place, and a
      missing assignee selects "Unassigned". */
  function InitialForm(prior: Form, issue: Issue): (f: Form)
    ensures f.summary == OrElse(CurrentSummary(issue), "")
    ensures f.description == CurrentDescription(issue)
    ensures CurrentTypeId(issue).None? ==> f.issueType == prior.issueType
    ensures CurrentStatusId(issue).None? ==> f.status == prior.status
    ensures (issue.fields.Some? && issue.fields.value.assignee.None?) || issue.fields.None?
      ==> f.assignee == Some(AssigneeChoice("Unassigned", None))
    ensures issue.fields.Some? && issue.fields.value.issuetype.Some? ==>
      f.issueType == Some(Choice(issue.fields.value.issuetype.value.name, issue.fields.value.issuetype.value.id))
    ensures issue.fields.Some? && issue.fields.value.status.Some? ==>
      f.status == Some(Choice(issue.fields.value.status.value.name, issue.fields.value.status.value.id))
    ensures issue.fields.Some? && issue.fields.value.assignee.Some? ==>
      f.assignee == Some(AssigneeChoice(issue.fields.value.assignee.value.displayName,
                                        Some(issue.fields.value.assignee.value.accountId)))
  {
    var fs := issue.fields;
    Form(
      OrElse(CurrentSummary(issue), ""),
      CurrentDescription(issue),
      if fs.Some? && fs.value.issuetype.Some?
      then Some(Choice(fs.value.issuetype.value.name, fs.value.issuetype.value.id)) else prior.issueType,
      if fs.Some? && fs.value.status.Some?
      then Some(Choice(fs.value.status.value.name, fs.value.status.value.id)) else prior.status,
      if fs.Some? && fs.value.assignee.Some?
      then Some(AssigneeChoice(fs.value.assignee.value.displayName, Some(fs.value.assignee.value.accountId)))
      else Some(AssigneeChoice("Unassigned", None)))
  }

  /** Saving a form just filled from an issue that has a summary, a type and a
      status (and, if assigned, a non-empty account id) changes nothing: the
      dialog closes without calling the gateway. */
  lemma UntouchedFormChangesNothing(prior: Form, issue: Issue)
    requires issue.fields.Some?
    requires issue.fields.value.summary.Some?
    requires issue.fields.value.issuetype.Some? && issue.fields.value.status.Some?
    requires issue.fields.value.assignee.Some? ==> issue.fields.value.assignee.value.accountId != ""
    ensures !HasChanges(Diff(InitialForm(prior, issue), issue))
    ensures !StatusChanged(InitialForm(prior, issue), issue)
  {
  }

  /** An issue without a summary always has one sent: the form shows `""`
      but `"" !== undefined`. */
  lemma MissingSummaryIsAlwaysSent(form: Form, issue: Issue)
    requires CurrentSummary(issue).None?
    ensures Diff(form, issue).summary == Some(form.summary)
  {
  }

  /** An assignee with an empty account id is "changed" to unassigned on every
      save, because the form holds `""` and the issue reads as `null`. */
  lemma EmptyAccountIdIsAlwaysSent(prior: Form, issue: Issue)
    requires issue.fields.Some? && issue.fields.value.assignee.Some?
    requires issue.fields.value.assignee.value.accountId == ""
    ensures Diff(InitialForm(prior, issue), issue).assignee == Some(Unassign)
  {
  }

  /** The assignee picker: "Unassigned" first, then the assignable users
      (UpdateIssueDialog.js:136-143). */
  function AssigneeOptions(users: seq<User>): (opts: seq<AssigneeChoice>)
    ensures |opts| == |users| + 1
    ensures opts[0] == AssigneeChoice("Unassigned", None)
    ensures forall i :: 0 <= i < |users| ==>
      opts[i + 1] == AssigneeChoice(users[i].displayName, Some(users[i].accountId))
  {
    [AssigneeChoice("Unassigned", None)]
      + seq(|users|, i requires 0 <= i < |users| => AssigneeChoice(users[i].displayName, Some(users[i].accountId)))
  }

  /** The state `initializeForm` writes. */
  class UpdateIssueDialog {
    var summary: string
    var description: string
    var selectedIssueType: Option<Choice>
    var selectedStatus: Option<Choice>
    var selectedAssignee: Option<AssigneeChoice>

    function CurrentForm(): Form
      reads this
    {
      Form(summary, description, selectedIssueType, selectedStatus, selectedAssignee)
    }

    /** The initial values of the hooks (UpdateIssueDialog.js:19-23). */
    constructor ()
      ensures CurrentForm() == Form("", "", None, None, None)
    {
      summary := "";
      description := "";
      selectedIssueType := None;
      selectedStatus := None;
      selectedAssignee := None;
    }

    /** `initializeForm(issueData)`: the argument, else the `issue` prop;
        nothing when both are missing. */
    method InitializeForm(issueData: Option<Issue>, issueProp: Option<Issue>)
      modifies this
      ensures issueData.None? && issueProp.None? ==> CurrentForm() == old(CurrentForm())
      ensures issueData.Some? ==> CurrentForm() == InitialForm(old(CurrentForm()), issueData.value)
      ensures issueData.None? && issueProp.Some? ==> CurrentForm() == InitialForm(old(CurrentForm()), issueProp.value)
    {
      var issueToUse := if issueData.Some? then issueData else issueProp;
      if issueToUse.None? {
        return;
      }
      var it := issueToUse.value;
      summary := OrElse(CurrentSummary(it), "");
      description := CurrentDescription(it);
      if it.fields.Some? && it.fields.value.issuetype.Some? {
        selectedIssueType := Some(Choice(it.fields.value.issuetype.value.name, it.fields.value.issuetype.value.id));
      }
      if it.fields.Some? && it.fields.value.status.Some? {
        selectedStatus := Some(Choice(it.fields.value.status.value.name, it.fields.value.status.value.id));
      }
      if it.fields.Some? && it.fields.value.assignee.Some? {
        selectedAssignee := Some(AssigneeChoice(it.fields.value.assignee.value.displayName, Some(it.fields.value.assignee.value.accountId)));
      } else {
        selectedAssignee := Some(AssigneeChoice("Unassigned", None));
      }
    }
  }
}
