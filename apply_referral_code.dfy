/** The apply-referral-code request (`ApplyReferralCodeRequest`): a POST of
    the session entries and the code, sent to a URL that ends with the
    code, reporting to a referral-init listener. */
module ApplyReferralCode {
  import opened Json
  import opened Session
  import opened Callbacks

  /** `Branch.REFERRAL_CODE`: the key whose presence in a response marks the
      code as valid.  Its text is defined in Branch, which is not part of
      this model. */
  const ReferralCodeKey: string

  /** What the request queue can report back to this request. */
  datatype Signal =
    | Succeeded(response: JsonObject)   // onRequestSucceeded(resp, branch)
    | Failed(isInitNotStarted: bool)    // handleFailure(isInitNotStarted)

  /** The object passed to the listener when the code is not recognised. */
  const InvalidReferralCodeMessage: JsonObject := map["error_message" := "Invalid referral code"]

  /** The body of an apply-referral-code request: the session entries and
      `referral_code`, which a null code leaves out. */
  function ApplyPost(s: Store, code: Option<string>): (post: JsonObject)
    ensures "identity_id" in post && post["identity_id"] == s.identityId
    ensures "device_fingerprint_id" in post && post["device_fingerprint_id"] == s.deviceFingerprintId
    ensures "session_id" in post && post["session_id"] == s.sessionId
    ensures "link_click_id" in post <==> s.linkClickId != NoStringValue
    ensures "link_click_id" in post ==> post["link_click_id"] == s.linkClickId
    ensures "referral_code" in post <==> code.Some?
    ensures code.Some? ==> post["referral_code"] == code.value
    ensures post.Keys <= SessionKeys + {"referral_code"}
  {
    Put(SessionEntries(s), "referral_code", code)
  }

  /** `getRequestUrl()`: the base URL followed by the body's `referral_code`,
      or by nothing when the body has none. */
  function UrlFor(baseUrl: string, post: JsonObject): (url: string)
    ensures |baseUrl| <= |url| && url[..|baseUrl|] == baseUrl
    ensures "referral_code" in post ==> url[|baseUrl|..] == post["referral_code"]
    ensures "referral_code" !in post ==> url == baseUrl
  {
    var code := match GetString(post, "referral_code")
                case Some(c) => c
                case None => "";
    baseUrl + code
  }

  /** The URL of a freshly built request carries exactly the code it was
      given: the code can be read back from the URL after the base. */
  lemma RequestUrlCarriesCode(baseUrl: string, s: Store, code: Option<string>)
    ensures code.Some? ==> UrlFor(baseUrl, ApplyPost(s, code)) == baseUrl + code.value
    ensures code.Some? ==> UrlFor(baseUrl, ApplyPost(s, code))[|baseUrl|..] == code.value
    ensures code.None? ==> UrlFor(baseUrl, ApplyPost(s, code)) == baseUrl
  {
  }

  /** How an apply-referral-code request answers each signal.  It never
      writes the session and always makes exactly one listener call: a
      success is a semantic failure unless the response carries the
      referral-code key, in which case the response is passed on as it
      is; a failure reports no object, only why. */
  function Respond(s: Store, signal: Signal): (e: Effect)
    ensures e.store == s
    ensures e.report.Some? && e.report.value.InitFinished?
    ensures signal.Succeeded? ==>
              (e.report.value.error.Some? <==> ReferralCodeKey !in signal.response)
    ensures signal.Succeeded? && ReferralCodeKey in signal.response ==>
              e.report.value == InitFinished(Some(signal.response), None)
    ensures signal.Succeeded? && ReferralCodeKey !in signal.response ==>
              e.report.value == InitFinished(Some(InvalidReferralCodeMessage), Some(InvalidReferralCode))
    ensures signal.Failed? ==>
              e.report.value == InitFinished(None, Some(if signal.isInitNotStarted then NotInit
                                                        else ApplyReferralCodeFailed))
  {
    match signal
    case Succeeded(response) =>
      if ReferralCodeKey !in response then
        Effect(s, Some(InitFinished(Some(InvalidReferralCodeMessage), Some(InvalidReferralCode))))
      else
        Effect(s, Some(InitFinished(Some(response), None)))
    case Failed(isInitNotStarted) =>
      if isInitNotStarted then
        Effect(s, Some(InitFinished(None, Some(NotInit))))
      else
        Effect(s, Some(InitFinished(None, Some(ApplyReferralCodeFailed))))
  }

  class ApplyReferralCodeRequest {
    const prefHelper: PrefHelper
    const callback: Listener?
    /** The body handed to the request queue (`setPost`). */
    const post: JsonObject
    const constructError: bool

    /** Builds the body from the session store and the code; `code` is
        `None` for a null Java string. */
    constructor (prefHelper: PrefHelper, callback: Listener?, code: Option<string>)
      ensures this.prefHelper == prefHelper && this.callback == callback
      ensures post == ApplyPost(prefHelper.Snapshot(), code) && !constructError
    {
      this.prefHelper := prefHelper;
      this.callback := callback;
      var p: JsonObject := map[];
      p := p["identity_id" := prefHelper.identityId];
      p := p["device_fingerprint_id" := prefHelper.deviceFingerprintId];
      p := p["session_id" := prefHelper.sessionId];
      if prefHelper.linkClickId != NoStringValue {
        p := p["link_click_id" := prefHelper.linkClickId];
      }
      match code {
        case Some(c) => p := p["referral_code" := c];
        case None => p := p - {"referral_code"};
      }
      post := p;
      constructError := false;
    }

    /** `getRequestUrl()`, with the base class's URL as input. */
    function RequestUrl(baseUrl: string): (url: string)
      ensures "referral_code" in post ==> url == baseUrl + post["referral_code"]
      ensures "referral_code" !in post ==> url == baseUrl
    {
      UrlFor(baseUrl, post)
    }

    /** `onRequestSucceeded`. */
    method OnRequestSucceeded(response: JsonObject)
      modifies callback
      ensures callback != null ==>
                callback.received == old(callback.received) +
                  Reported(Respond(prefHelper.Snapshot(), Succeeded(response)).report)
    {
      if callback != null {
        var json: JsonObject;
        var error: Option<BranchError> := None;
        if ReferralCodeKey !in response {
          json := map[];
          json := json["error_message" := "Invalid referral code"];
          error := Some(InvalidReferralCode);
        } else {
          json := response;
        }
        callback.Deliver(InitFinished(Some(json), error));
      }
    }

    /** `handleFailure(isInitNotStarted)`. */
    method HandleFailure(isInitNotStarted: bool)
      modifies callback
      ensures callback != null ==>
                callback.received == old(callback.received) +
                  Reported(Respond(prefHelper.Snapshot(), Failed(isInitNotStarted)).report)
    {
      if callback != null {
        if isInitNotStarted {
          callback.Deliver(InitFinished(None, Some(NotInit)));
        } else {
          callback.Deliver(InitFinished(None, Some(ApplyReferralCodeFailed)));
        }
      }
    }

    /** `hasErrors()`: nothing beyond the transport outcome is checked. */
    method HasErrors() returns (r: bool)
      ensures !r
    {
      r := false;
    }

    /** `isGetRequest()`: the request is a POST. */
    method IsGetRequest() returns (r: bool)
      ensures !r
    {
      r := false;
    }
  }
}
