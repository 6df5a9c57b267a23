/** The create-issue dialog (static/hello-world/src/CreateIssueDialog.js):
    the form reset, the auto-selection of the first issue type once the
    options load, and `handleCreate`'s validation, field building and
    outcome. */
module CreateDialog {
  import opened Replies
  import Flags

  /** The characters `String.prototype.trim` removes: the ECMAScript
      WhiteSpace and LineTerminator sets. */
  predicate IsJsSpace(c: char) {
    || c == ' ' || c == '\t' || c == '\n' || c == '\U{000B}' || c == '\U{000C}' || c == '\r'
    || c == '\U{00A0}' || c == '\U{FEFF}' || c == '\U{1680}'
    || ('\U{2000}' <= c <= '\U{200A}')
    || c == '\U{2028}' || c == '\U{2029}' || c == '\U{202F}' || c == '\U{205F}' || c == '\U{3000}'
  }

  /** Every character of `s` is white space (this includes `""`). */
  predicate IsBlank(s: string) {
    forall k :: 0 <= k < |s| ==> IsJsSpace(s[k])
  }

  /** `s` without its leading white space. */
  function TrimStart(s: string): (r: string)
    ensures |r| <= |s| && r == s[|s| - |r|..]
    ensures IsBlank(s[..|s| - |r|])
    ensures r != [] ==> !IsJsSpace(r[0])
    decreases |s|
  {
    if s != [] && IsJsSpace(s[0]) then
      var r := TrimStart(s[1..]);
      assert s[..|s| - |r|] == [s[0]] + s[1..][..|s| - 1 - |r|];
      r
    else s
  }

  /** `s` without its trailing white space. */
  function TrimEnd(s: string): (r: string)
    ensures |r| <= |s| && r == s[..|r|]
    ensures IsBlank(s[|r|..])
    ensures r != [] ==> !IsJsSpace(r[|r| - 1])
    decreases |s|
  {
    if s != [] && IsJsSpace(s[|s| - 1]) then
      var r := TrimEnd(s[..|s| - 1]);
      assert s[..|s| - 1][..|r|] == s[..|r|];
      assert s[|r|..] == s[..|s| - 1][|r|..] + [s[|s| - 1]];
      r
    else s
  }

  /** `s.trim()`. */
  function Trim(s: string): string {
    TrimEnd(TrimStart(s))
  }

  /** `s.trim()` is falsy exactly when `s` is all white space. */
  lemma {:induction false} TrimEmptyIffBlank(s: string)
    ensures Trim(s) == [] <==> IsBlank(s)
  {
    var t := TrimStart(s);
    var n := |s| - |t|;
    if Trim(s) == [] {
      assert IsBlank(t[0..]);
      forall k | 0 <= k < |s|
        ensures IsJsSpace(s[k])
      {
        if k < n {
          assert s[k] == s[..n][k];
        } else {
          assert s[k] == t[k - n];
          assert t[k - n] == t[0..][k - n];
        }
      }
    }
    if IsBlank(s) && t != [] {
      assert false;
    }
  }

  /** `trim()` keeps the text between the outer white space: the result is a
      contiguous part of `s` with only white space cut on each side, and it
      neither starts nor ends with white space. */
  lemma {:induction false} TrimCutsOnlyWhiteSpace(s: string)
    ensures exists i :: (0 <= i <= |s| - |Trim(s)| && s[i..i + |Trim(s)|] == Trim(s)
      && IsBlank(s[..i]) && IsBlank(s[i + |Trim(s)|..]))
    ensures Trim(s) != [] ==> !IsJsSpace(Trim(s)[0]) && !IsJsSpace(Trim(s)[|Trim(s)| - 1])
  {
    var t := TrimStart(s);
    var r := Trim(s);
    var i := |s| - |t|;
    assert t == s[i..];
    assert r == t[..|r|];
    assert s[i..i + |r|] == r;
    assert t[|r|..] == s[i + |r|..];
  }

  /** Trimming twice is trimming once. */
  lemma {:induction false} TrimIdempotent(s: string)
    ensures Trim(Trim(s)) == Trim(s)
  {
    var r := Trim(s);
    TrimCutsOnlyWhiteSpace(s);
    var u := TrimStart(r);
    if |u| < |r| {
      assert false;
    }
    assert u == r;
    var v := TrimEnd(u);
    if |v| < |u| {
      assert false;
    }
  }

  /** An entry of the `getIssueTypes` reply. */
  datatype IssueTypeEntry = IssueTypeEntry(id: string, name: string, iconUrl: Option<string>)

  /** The `getIssueTypes` reply; `None` when `issueTypes` is missing or not an
      array. */
  datatype IssueTypesReply = IssueTypesReply(issueTypes: Option<seq<IssueTypeEntry>>)

  /** An option of the issue-type picker: `{ label, value, iconUrl }`. */
  datatype TypeOption = TypeOption(text: string, value: string, iconUrl: Option<string>)

  /** The picker options built from the reply, one per entry, in order. */
  function TypeOptions(types: seq<IssueTypeEntry>): (opts: seq<TypeOption>)
    ensures |opts| == |types|
    ensures forall i :: 0 <= i < |types| ==>
      opts[i] == TypeOption(types[i].name, types[i].id, types[i].iconUrl)
  {
    seq(|types|, i requires 0 <= i < |types| => TypeOption(types[i].name, types[i].id, types[i].iconUrl))
  }

  /** The `fields` object sent to `createIssue`. */
  datatype CreateFields = CreateFields(summary: string, issuetypeId: string, description: Option<string>)

  /** What the validation of `handleCreate` decides: an alert and no call, or
      the fields to send. */
  datatype Validated = Invalid(alert: string) | Valid(fields: CreateFields)

  /** The validation and field building of CreateIssueDialog.js:82-106. */
  function Validate(summary: string, description: string, selected: Option<TypeOption>): (v: Validated)
    ensures IsBlank(summary) ==> v == Invalid("Please enter a summary")
    ensures !IsBlank(summary) && selected.None? ==> v == Invalid("Please select an issue type")
    ensures v.Valid? <==> !IsBlank(summary) && selected.Some?
    ensures v.Valid? ==>
      v.fields.summary == Trim(summary) && v.fields.summary != "" && v.fields.issuetypeId == selected.value.value
    ensures v.Valid? ==> (v.fields.description.Some? <==> !IsBlank(description))
    ensures v.Valid? && v.fields.description.Some? ==> v.fields.description.value == Trim(description)
  {
    TrimEmptyIffBlank(summary);
    TrimEmptyIffBlank(description);
    if Trim(summary) == "" then Invalid("Please enter a summary")
    else if selected.None? then Invalid("Please select an issue type")
    else
      Valid(CreateFields(Trim(summary), selected.value.value,
        if Trim(description) != "" then Some(Trim(description)) else None))
  }

  /** A summary padded with white space is sent as its trimmed text, and
      re-submitting what was sent builds the same fields. */
  lemma {:induction false} ValidatedFieldsAreStable(summary: string, description: string, selected: Option<TypeOption>)
    requires Validate(summary, description, selected).Valid?
    ensures var f := Validate(summary, description, selected).fields;
      Validate(f.summary, if f.description.Some? then f.description.value else "", selected) == Valid(f)
  {
    var f := Validate(summary, description, selected).fields;
    TrimIdempotent(summary);
    TrimIdempotent(description);
    TrimEmptyIffBlank(f.summary);
    if f.description.Some? {
      TrimEmptyIffBlank(f.description.value);
    } else {
      TrimEmptyIffBlank("");
    }
  }

  /** The `createIssue` call: the project key from the view context (which
      may be missing) and the built fields. */
  datatype CreateCall = CreateCall(projectKey: Option<string>, fields: CreateFields)

  /** The `createIssue` reply: `{ success, issue: { key }, error }`. */
  datatype CreateReply = CreateReply(success: bool, issueKey: Option<string>, error: Option<string>)

  /** How `handleCreate` ends. `Created` stands for `onCreate()` (with no
      arguments) followed by `onClose()`; the others only alert. */
  datatype CreateOutcome = Rejected(alert: string) | Created(issueKey: Option<string>) | Failed(alert: string)

  /** The outcome once `createIssue` has been called (CreateIssueDialog.js:115-128). */
  function OutcomeOf(reply: Reply<CreateReply>): (o: CreateOutcome)
    ensures o.Created? <==> reply.Returned? && reply.value.success
    ensures o.Created? ==> o.issueKey == reply.value.issueKey
    ensures reply.Threw? ==> o == Failed("Error creating issue: " + reply.message)
    ensures reply.Returned? && !reply.value.success
      ==> o == Failed("Failed to create issue: " + OrElse(reply.value.error, "Unknown error"))
    ensures reply.Returned? && !reply.value.success && reply.value.error.None?
      ==> o == Failed("Failed to create issue: Unknown error")
  {
    match reply
    case Threw(m) => Failed("Error creating issue: " + m)
    case Returned(r) =>
      if r.success then Created(r.issueKey)
      else Failed("Failed to create issue: " + OrElse(r.error, "Unknown error"))
  }

  /** The completion a created issue reports to the issue list. */
  function CompletionOf(o: CreateOutcome): Option<Flags.Completion> {
    if o.Created? then Some(Flags.NoArgs) else None
  }

  /** A created issue reaches the issue list as a call without arguments, and
      only then: the list's flag for it is the failure flag. */
  lemma {:induction false} CreatedIssueIsAnnouncedAsFailure(reply: Reply<CreateReply>, flagId: string)
    ensures CompletionOf(OutcomeOf(reply)).Some? <==> reply.Returned? && reply.value.success
    ensures CompletionOf(OutcomeOf(reply)).Some? ==>
      Flags.CreateFlag(flagId, CompletionOf(OutcomeOf(reply)).value).icon == Flags.ErrorIcon
  {
    if CompletionOf(OutcomeOf(reply)).Some? {
      Flags.CreateWithoutArgumentsReadsAsFailure(flagId);
    }
  }

  class CreateIssueDialog {
    var summary: string
    var description: string
    var selectedIssueType: Option<TypeOption>
    var issueTypes: seq<TypeOption>
    var loading: bool
    var loadingOptions: bool

    /** The initial values of the hooks (CreateIssueDialog.js:18-25). */
    constructor ()
      ensures summary == "" && description == "" && selectedIssueType.None?
      ensures issueTypes == [] && !loading && !loadingOptions
    {
      summary := "";
      description := "";
      selectedIssueType := None;
      issueTypes := [];
      loading := false;
      loadingOptions := false;
    }

    /** `initializeForm`: an empty form with no type selected; the loaded
        options stay. */
    method InitializeForm()
      modifies this`summary, this`description, this`selectedIssueType
      ensures summary == "" && description == "" && selectedIssueType.None?
    {
      summary := "";
      description := "";
      selectedIssueType := None;
    }

    /** `handleClose`: closing always resets the form. */
    method HandleClose()
      modifies this`summary, this`description, this`selectedIssueType
      ensures summary == "" && description == "" && selectedIssueType.None?
    {
      InitializeForm();
    }

    /** `loadOptions` with the `getIssueTypes` reply (a throw of
        `view.getContext` or of the call is a `Threw` reply). */
    method LoadOptions(reply: Reply<IssueTypesReply>)
      modifies this`issueTypes, this`selectedIssueType, this`loadingOptions
      ensures !loadingOptions
      ensures reply.Returned? && reply.value.issueTypes.Some?
        ==> issueTypes == TypeOptions(reply.value.issueTypes.value)
      ensures !(reply.Returned? && reply.value.issueTypes.Some?) ==> issueTypes == []
      ensures issueTypes != [] ==> selectedIssueType == Some(issueTypes[0])
      ensures issueTypes == [] ==> selectedIssueType == old(selectedIssueType)
    {
      loadingOptions := true;
      match reply {
        case Threw(_) =>
          issueTypes := [];
        case Returned(r) =>
          if r.issueTypes.Some? {
            var options := TypeOptions(r.issueTypes.value);
            issueTypes := options;
            if |options| > 0 {
              selectedIssueType := Some(options[0]);
            }
          } else {
            issueTypes := [];
          }
      }
      loadingOptions := false;
    }

    /** `handleCreate`, given the view context's project key (or its throw)
        and the `createIssue` reply. It returns the call it makes, if any,
        and how it ends; the form itself is left as it is. */
    method HandleCreate(context: Reply<Option<string>>, createReply: Reply<CreateReply>)
      returns (call: Option<CreateCall>, outcome: CreateOutcome)
      modifies this`loading
      ensures var v := Validate(summary, description, selectedIssueType);
        v.Invalid? ==> call.None? && outcome == Rejected(v.alert) && loading == old(loading)
      ensures Validate(summary, description, selectedIssueType).Valid? ==> !loading
      ensures Validate(summary, description, selectedIssueType).Valid? && context.Threw?
        ==> call.None? && outcome == Failed("Error creating issue: " + context.message)
      ensures Validate(summary, description, selectedIssueType).Valid? && context.Returned?
        ==> (call == Some(CreateCall(context.value, Validate(summary, description, selectedIssueType).fields))
          && outcome == OutcomeOf(createReply))
    {
      TrimEmptyIffBlank(summary);
      TrimEmptyIffBlank(description);
      if Trim(summary) == "" {
        return None, Rejected("Please enter a summary");
      }
      if selectedIssueType.None? {
        return None, Rejected("Please select an issue type");
      }
      loading := true;
      match context {
        case Threw(m) =>
          call, outcome := None, Failed("Error creating issue: " + m);
        case Returned(projectKey) =>
          var fields := CreateFields(Trim(summary), selectedIssueType.value.value, None);
          if Trim(description) != "" {
            fields := fields.(description := Some(Trim(description)));
          }
          call := Some(CreateCall(projectKey, fields));
          match createReply {
            case Threw(m) =>
              outcome := Failed("Error creating issue: " + m);
            case Returned(r) =>
              if r.success {
                outcome := Created(r.issueKey);
              } else {
                outcome := Failed("Failed to create issue: " + OrElse(r.error, "Unknown error"));
              }
          }
      }
      loading := false;
    }
  }
}
