/** The project settings page (static/hello-world/src/PermissionSetting.js):
    one switch that shows or hides the project page. The page is hidden
    exactly when the project property "show-project-page" exists, so the
    switch reads "on" when the property is absent. */
module Settings {
  import opened Replies

  const Property := "show-project-page"
  const LoadError := "Không thể tải cài đặt"
  const SaveError := "Không thể lưu cài đặt"

  datatype HttpMethod = Get | Put | Delete

  /** A request to the tracker's REST API: method, path and JSON body (the
      body is `{ value: v }` when present). */
  datatype Request = Request(httpMethod: HttpMethod, path: string, body: Option<bool>)

  /** `${key}` for a project key read with optional chaining. */
  function KeyText(key: Option<string>): string {
    key.GetOr("undefined")
  }

  /** The path of the property for a project. */
  function PropertyPath(key: Option<string>): (p: string)
    ensures p == "/rest/api/3/project/" + KeyText(key) + "/properties/show-project-page"
  {
    "/rest/api/3/project/" + KeyText(key) + "/properties/" + Property
  }

  /** The switch position a load reply gives: 200 (the property exists) is
      off, 404 or 409 (it does not) is on, any other status is an error. */
  function EnabledForStatus(status: int): (r: Option<bool>)
    ensures r == Some(false) <==> status == 200
    ensures r == Some(true) <==> status == 404 || status == 409
    ensures r.None? <==> status != 200 && status != 404 && status != 409
  {
    if status == 200 then Some(false)
    else if status == 404 || status == 409 then Some(true)
    else None
  }

  /** The request a toggle sends from position `isEnabled`: switching on
      deletes the property, switching off writes `{ value: true }`. */
  function ToggleRequest(key: Option<string>, isEnabled: bool): (r: Request)
    ensures r.path == PropertyPath(key)
    ensures r.httpMethod == Delete <==> !isEnabled
    ensures r.httpMethod == Put <==> isEnabled
    ensures r.body == (if isEnabled then Some(true) else None)
  {
    var newValue := !isEnabled;
    if newValue then Request(Delete, PropertyPath(key), None)
    else Request(Put, PropertyPath(key), Some(true))
  }

  /** Whether the property exists after the tracker has applied a request. */
  function Apply(present: bool, r: Request): bool {
    match r.httpMethod
    case Delete => false
    case Put => true
    case Get => present
  }

  /** The status the tracker answers a read of the property with. */
  function StatusFor(present: bool): int {
    if present then 200 else 404
  }

  /** The switch shows the page's true state. */
  predicate Agrees(isEnabled: bool, present: bool) {
    isEnabled == !present
  }

  /** Loading from the tracker puts the switch in agreement with it. */
  lemma LoadAgrees(present: bool)
    ensures EnabledForStatus(StatusFor(present)).Some?
    ensures Agrees(EnabledForStatus(StatusFor(present)).value, present)
  {
  }

  /** A toggle that the tracker applies keeps the switch in agreement, and
      two toggles in a row restore the property. */
  lemma ToggleKeepsAgreement(key: Option<string>, isEnabled: bool, present: bool)
    requires Agrees(isEnabled, present)
    ensures Agrees(!isEnabled, Apply(present, ToggleRequest(key, isEnabled)))
    ensures Apply(Apply(present, ToggleRequest(key, isEnabled)), ToggleRequest(key, !isEnabled)) == present
  {
  }

  class PermissionSetting {
    var isEnabled: bool
    var loading: bool
    var saving: bool
    var error: Option<string>
    var projectKey: Option<string>

    /** `isDisabled={saving || loading}`, negated. */
    predicate ToggleEnabled()
      reads this
    {
      !(saving || loading)
    }

    /** The initial values of the hooks (PermissionSetting.js:8-12). */
    constructor ()
      ensures isEnabled && loading && !saving && error.None? && projectKey == Some("")
      ensures !ToggleEnabled()
    {
      isEnabled := true;
      loading := true;
      saving := false;
      error := None;
      projectKey := Some("");
    }

    /** `fetchData`, given the view context's project key (or its throw) and
        the reply to the property read. Returns the read it makes. */
    method FetchData(context: Reply<Option<string>>, response: Reply<int>) returns (request: Option<Request>)
      modifies this`isEnabled, this`loading, this`error, this`projectKey
      ensures !loading
      ensures ToggleEnabled() <==> !saving
      ensures context.Threw? ==> request.None? && projectKey == old(projectKey)
      ensures context.Returned? ==>
        request == Some(Request(Get, PropertyPath(context.value), None)) && projectKey == context.value
      ensures context.Returned? && response.Returned? && EnabledForStatus(response.value).Some?
        ==> isEnabled == EnabledForStatus(response.value).value && error == old(error)
      ensures !(context.Returned? && response.Returned? && EnabledForStatus(response.value).Some?)
        ==> isEnabled == old(isEnabled) && error == Some(LoadError)
    {
      request := None;
      match context {
        case Threw(_) =>
          error := Some(LoadError);
        case Returned(key) =>
          projectKey := key;
          request := Some(Request(Get, PropertyPath(key), None));
          match response {
            case Threw(_) =>
              error := Some(LoadError);
            case Returned(status) =>
              if status == 200 {
                isEnabled := false;
              } else if status == 404 || status == 409 {
                isEnabled := true;
              } else {
                error := Some(LoadError);
              }
          }
      }
      loading := false;
    }

    /** `handleToggle`, given the outcome of the write (the status of a reply
        is not inspected: only a throw counts as a failure). Returns the
        request it sends. */
    method HandleToggle(reply: Reply<int>) returns (request: Request)
      modifies this`isEnabled, this`saving, this`error
      ensures request == ToggleRequest(projectKey, old(isEnabled))
      ensures !saving
      ensures ToggleEnabled() <==> !loading
      ensures reply.Returned? ==> isEnabled == !old(isEnabled) && error.None?
      ensures reply.Threw? ==> isEnabled == old(isEnabled) && error == Some(SaveError)
    {
      var newValue := !isEnabled;
      saving := true;
      error := None;
      if newValue {
        request := Request(Delete, PropertyPath(projectKey), None);
      } else {
        request := Request(Put, PropertyPath(projectKey), Some(true));
      }
      match reply {
        case Returned(_) =>
          isEnabled := newValue;
        case Threw(_) =>
          error := Some(SaveError);
      }
      saving := false;
    }
  }
}
