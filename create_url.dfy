/** The create-short-URL request (`CreateUrlRequest`): a POST whose body is
    the session entries plus the link's attributes, gated before dispatch
    by an internet-permission and a known-user check, and reporting to a
    link-create listener that can be detached. */
module CreateUrl {
  import opened Json
  import opened Session
  import opened Callbacks

  /** What the request queue can report back to a create-URL request. */
  datatype Signal =
    | Succeeded(response: JsonObject)   // onRequestSucceeded(resp, branch)
    | Failed(statusCode: int)           // handleFailure(statusCode)
    | DuplicateUrl                      // handleDuplicateURLError()

  /** `hasUser()`: an identity has been established for this session,
      that is, a body built now would send a real `identity_id`. */
  predicate HasUser(s: Store): (r: bool)
    ensures r <==> SessionEntries(s)["identity_id"] != NoStringValue
  {
    s.identityId != NoStringValue
  }

  /** The body of a create-URL request: the session entries, then the link
      attributes written by BranchLinkData's setters, later puts winning. */
  function LinkPost(s: Store, linkAttributes: JsonObject): (post: JsonObject)
    ensures forall k :: k in linkAttributes ==> k in post && post[k] == linkAttributes[k]
    ensures "identity_id" !in linkAttributes ==> "identity_id" in post && post["identity_id"] == s.identityId
    ensures "device_fingerprint_id" !in linkAttributes ==>
              "device_fingerprint_id" in post && post["device_fingerprint_id"] == s.deviceFingerprintId
    ensures "session_id" !in linkAttributes ==> "session_id" in post && post["session_id"] == s.sessionId
    ensures "link_click_id" !in linkAttributes ==>
              ("link_click_id" in post <==> s.linkClickId != NoStringValue) &&
              ("link_click_id" in post ==> post["link_click_id"] == s.linkClickId)
    ensures forall k :: k in post ==> k in linkAttributes || k in SessionKeys
  {
    SessionEntries(s) + linkAttributes
  }

  /** The listener call made when the device lacks internet permission. */
  const NoInternetPermissionReport: Event :=
    LinkCreate(None, Some(TroubleCreatingUrl(ErrNoInternetPermission)))

  /** The outcome of the pre-dispatch check: whether to hold the request
      back, and the listener call made, if any. */
  datatype Precheck = Precheck(abort: bool, report: Option<Event>)

  /** `handleErrors` as written: without internet permission it calls the
      listener without a null check, so a detached request throws. */
  function PrecheckAsWritten(s: Store, isAsync: bool, attached: bool, hasInternetPermission: bool)
    : (r: Completion<Precheck>)
    ensures r.ThrowsNullPointer? <==> !hasInternetPermission && !attached
    ensures !hasInternetPermission && attached ==> r == Returns(Precheck(true, Some(NoInternetPermissionReport)))
    ensures hasInternetPermission ==>
              r.Returns? && r.value.report.None? && (r.value.abort <==> !isAsync && !HasUser(s))
  {
    if !hasInternetPermission then
      if attached then Returns(Precheck(true, Some(NoInternetPermissionReport))) else ThrowsNullPointer
    else
      Returns(Precheck(!isAsync && !HasUser(s), None))
  }

  /** `handleErrors` with the listener call guarded like every other
      handler of this class: it never throws, and a detached request
      reports nothing. */
  function PrecheckGuarded(s: Store, isAsync: bool, attached: bool, hasInternetPermission: bool)
    : (r: Precheck)
    ensures r.abort <==> !hasInternetPermission || (!isAsync && !HasUser(s))
    ensures r.report.Some? <==> !hasInternetPermission && attached
    ensures r.report.Some? ==> r.report.value == NoInternetPermissionReport
  {
    var abort := !hasInternetPermission || (!isAsync && !HasUser(s));
    Precheck(abort, if !hasInternetPermission && attached then Some(NoInternetPermissionReport) else None)
  }

  /** The guarded check agrees with the code as written wherever the
      latter returns; they differ only on a detached request without
      internet permission, where the code as written throws. */
  lemma PrecheckGuardedAgrees(s: Store, isAsync: bool, attached: bool, hasInternetPermission: bool)
    ensures PrecheckAsWritten(s, isAsync, attached, hasInternetPermission).Returns? ==>
              PrecheckAsWritten(s, isAsync, attached, hasInternetPermission).value
                == PrecheckGuarded(s, isAsync, attached, hasInternetPermission)
    ensures !attached && !hasInternetPermission ==>
              PrecheckAsWritten(s, isAsync, attached, hasInternetPermission).ThrowsNullPointer? &&
              PrecheckGuarded(s, isAsync, attached, hasInternetPermission) == Precheck(true, None)
  {
  }

  /** How a create-URL request answers each signal.  It never writes the
      session; a success reports the response's `url`, if it has one; a
      failure always reports its status code, with the stored user URL as
      a fallback unless there is no session or no stored URL; a duplicate
      URL reports no URL. */
  function Respond(s: Store, signal: Signal): (e: Effect)
    ensures e.store == s
    ensures signal.Succeeded? ==> (e.report.Some? <==> "url" in signal.response)
    ensures signal.Succeeded? && e.report.Some? ==>
              e.report.value == LinkCreate(Some(signal.response["url"]), None)
    ensures signal.Failed? ==>
              e.report.Some? && e.report.value.LinkCreate? &&
              e.report.value.error == Some(TroubleCreatingUrl(signal.statusCode))
    ensures signal.Failed? ==>
              (e.report.value.url.Some? <==> signal.statusCode != ErrNoSession && s.userUrl != NoStringValue)
    ensures signal.Failed? && e.report.value.url.Some? ==>
              e.report.value.url.value == s.userUrl && s.userUrl != NoStringValue
    ensures signal.DuplicateUrl? ==>
              e.report == Some(LinkCreate(None, Some(TroubleCreatingUrl(ErrBranchDuplicateUrl))))
  {
    match signal
    case Succeeded(response) =>
      (match GetString(response, "url")
       case Some(url) => Effect(s, Some(LinkCreate(Some(url), None)))
       case None => Effect(s, None))
    case Failed(statusCode) =>
      var failedUrl := if s.userUrl != NoStringValue then Some(s.userUrl) else None;
      if statusCode == ErrNoSession then
        Effect(s, Some(LinkCreate(None, Some(TroubleCreatingUrl(statusCode)))))
      else
        Effect(s, Some(LinkCreate(failedUrl, Some(TroubleCreatingUrl(statusCode)))))
    case DuplicateUrl =>
      Effect(s, Some(LinkCreate(None, Some(TroubleCreatingUrl(ErrBranchDuplicateUrl)))))
  }

  class CreateUrlRequest {
    const prefHelper: PrefHelper
    const isAsync: bool
    /** The link data assembled by the constructor (`linkPost_`). */
    const linkPost: JsonObject
    /** The body handed to the request queue (`setPost`); `None` when the
        constructor failed before reaching `setPost`. */
    const post: Option<JsonObject>
    const constructError: bool
    var callback: Listener?

    /** Builds the body from the session store and the link attributes.
        `linkAttributes` is `None` when one of BranchLinkData's setters
        threw; the request is then marked as failed to construct. */
    constructor (prefHelper: PrefHelper, linkAttributes: Option<JsonObject>, callback: Listener?, async: bool)
      ensures this.prefHelper == prefHelper && this.callback == callback && isAsync == async
      ensures linkAttributes.Some? ==>
                !constructError && linkPost == LinkPost(prefHelper.Snapshot(), linkAttributes.value) &&
                post == Some(linkPost)
      ensures linkAttributes.None? ==> constructError && post.None?
    {
      this.prefHelper := prefHelper;
      this.callback := callback;
      isAsync := async;
      var p: JsonObject := map[];
      p := p["identity_id" := prefHelper.identityId];
      p := p["device_fingerprint_id" := prefHelper.deviceFingerprintId];
      p := p["session_id" := prefHelper.sessionId];
      if prefHelper.linkClickId != NoStringValue {
        p := p["link_click_id" := prefHelper.linkClickId];
      }
      assert p == SessionEntries(prefHelper.Snapshot());
      match linkAttributes
      case Some(attributes) =>
        linkPost := p + attributes;
        post := Some(p + attributes);
        constructError := false;
      case None =>
        linkPost := p;
        post := None;
        constructError := true;
    }

    /** `handleErrors(context)` as written, with the permission check's
        answer as input.  The result is whether to hold the request back. */
    method HandleErrors(hasInternetPermission: bool) returns (r: Completion<bool>)
      modifies callback
      ensures var p := PrecheckAsWritten(prefHelper.Snapshot(), isAsync, callback != null, hasInternetPermission);
              (p.ThrowsNullPointer? ==> r.ThrowsNullPointer?) &&
              (p.Returns? ==> r == Returns(p.value.abort)) &&
              (callback != null ==>
                 p.Returns? && callback.received == old(callback.received) + Reported(p.value.report))
    {
      if !hasInternetPermission {
        if callback == null {
          return ThrowsNullPointer;
        }
        callback.Deliver(NoInternetPermissionReport);
        return Returns(true);
      }
      if !isAsync && !HasUser(prefHelper.Snapshot()) {
        return Returns(true);
      }
      return Returns(false);
    }

    /** `handleErrors(context)` with the missing null check added. */
    method HandleErrorsGuarded(hasInternetPermission: bool) returns (abort: bool)
      modifies callback
      ensures var p := PrecheckGuarded(prefHelper.Snapshot(), isAsync, callback != null, hasInternetPermission);
              abort == p.abort &&
              (callback != null ==> callback.received == old(callback.received) + Reported(p.report))
    {
      if !hasInternetPermission {
        if callback != null {
          callback.Deliver(NoInternetPermissionReport);
        }
        return true;
      }
      abort := !isAsync && !HasUser(prefHelper.Snapshot());
    }

    /** `onRequestSucceeded`: a response without `url` is dropped silently. */
    method OnRequestSucceeded(response: JsonObject)
      modifies callback
      ensures callback != null ==>
                callback.received == old(callback.received) +
                  Reported(Respond(prefHelper.Snapshot(), Succeeded(response)).report)
    {
      var url := GetString(response, "url");
      if url.None? {
        return;
      }
      if callback != null {
        callback.Deliver(LinkCreate(Some(url.value), None));
      }
    }

    /** `handleFailure(statusCode)`. */
    method HandleFailure(statusCode: int)
      modifies callback
      ensures callback != null ==>
                callback.received == old(callback.received) +
                  Reported(Respond(prefHelper.Snapshot(), Failed(statusCode)).report)
    {
      if callback != null {
        var failedUrl: Option<string> := None;
        if prefHelper.userUrl != NoStringValue {
          failedUrl := Some(prefHelper.userUrl);
        }
        if statusCode == ErrNoSession {
          callback.Deliver(LinkCreate(None, Some(TroubleCreatingUrl(statusCode))));
        } else {
          callback.Deliver(LinkCreate(failedUrl, Some(TroubleCreatingUrl(statusCode))));
        }
      }
    }

    /** `handleDuplicateURLError()`. */
    method HandleDuplicateURLError()
      modifies callback
      ensures callback != null ==>
                callback.received == old(callback.received) +
                  Reported(Respond(prefHelper.Snapshot(), DuplicateUrl).report)
    {
      if callback != null {
        callback.Deliver(LinkCreate(None, Some(TroubleCreatingUrl(ErrBranchDuplicateUrl))));
      }
    }

    /** `clearCallbacks()`: detaches the listener; calling it again changes nothing. */
    method ClearCallbacks()
      modifies this`callback
      ensures callback == null
    {
      callback := null;
    }

    /** `isGetRequest()`: a create-URL request is a POST. */
    method IsGetRequest() returns (r: bool)
      ensures !r
    {
      r := false;
    }
  }
}
