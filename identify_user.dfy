/** The identify-user request (`IdentifyUserRequest`): a POST of the
    session entries and the user id whose success writes the identity the
    server assigned, the user's link and the referring data back into the
    session store before calling a referral-init listener. */
module IdentifyUser {
  import opened Json
  import opened Session
  import opened Callbacks

  /** What the request queue can report back to this request. */
  datatype Signal =
    | Succeeded(response: JsonObject)   // onRequestSucceeded(resp, branch)
    | Failed(isInitNotStarted: bool)    // handleFailure(isInitNotStarted)

  /** The object passed to the listener on every failure. */
  const TroubleReachingServerMessage: JsonObject :=
    map["error_message" := "Trouble reaching server. Please try again in a few minutes"]

  /** The body of an identify-user request: the session entries and
      `identity`, which a null user id leaves out. */
  function IdentifyPost(s: Store, userId: Option<string>): (post: JsonObject)
    ensures "identity_id" in post && post["identity_id"] == s.identityId
    ensures "device_fingerprint_id" in post && post["device_fingerprint_id"] == s.deviceFingerprintId
    ensures "session_id" in post && post["session_id"] == s.sessionId
    ensures "link_click_id" in post <==> s.linkClickId != NoStringValue
    ensures "link_click_id" in post ==> post["link_click_id"] == s.linkClickId
    ensures "identity" in post <==> userId.Some?
    ensures userId.Some? ==> post["identity"] == userId.value
    ensures post.Keys <= SessionKeys + {"identity"}
  {
    Put(SessionEntries(s), "identity", userId)
  }

  /** The session store after the write-back of a success response, and
      whether the write-back ran to its end (so that the listener is
      called). */
  datatype WriteBack = WriteBack(store: Store, completed: bool)

  /** The write-back: identity id, then user URL, then, when present, the
      install params.  A missing field throws inside the try block, so the
      later writes and the listener call do not happen. */
  function WriteBackResponse(s: Store, response: JsonObject): (w: WriteBack)
    ensures w.completed <==> "identity_id" in response && "link" in response
    ensures "identity_id" !in response ==> w.store == s
    ensures "identity_id" in response && "link" !in response ==>
              w.store == s.(identityId := response["identity_id"])
    ensures w.completed ==>
              w.store.identityId == response["identity_id"] && w.store.userUrl == response["link"]
    ensures w.completed && "referring_data" in response ==>
              w.store.installParams == response["referring_data"]
    ensures "referring_data" !in response ==> w.store.installParams == s.installParams
    ensures w.store.deviceFingerprintId == s.deviceFingerprintId && w.store.sessionId == s.sessionId
    ensures w.store.linkClickId == s.linkClickId
  {
    match GetString(response, "identity_id")
    case None => WriteBack(s, false)
    case Some(id) =>
      var afterId := s.(identityId := id);
      match GetString(response, "link")
      case None => WriteBack(afterId, false)
      case Some(link) =>
        var afterLink := afterId.(userUrl := link);
        if "referring_data" in response then
          WriteBack(afterLink.(installParams := response["referring_data"]), true)
        else
          WriteBack(afterLink, true)
  }

  /** How an identify-user request answers each signal.  `referringParams`
      stands for the owning Branch object's `getFirstReferringParams()`,
      read from the session as it is when the listener is called.  A
      success writes back and, once the write-back has completed, reports
      those params (never the response itself) with no error; a failure
      writes nothing and reports the "trouble reaching server" object with
      the reason. */
  function Respond(s: Store, referringParams: Store -> JsonObject, signal: Signal): (e: Effect)
    ensures signal.Succeeded? ==> e.store == WriteBackResponse(s, signal.response).store
    ensures signal.Succeeded? ==>
              (e.report.Some? <==> WriteBackResponse(s, signal.response).completed)
    ensures signal.Succeeded? && e.report.Some? ==>
              e.report.value == InitFinished(Some(referringParams(e.store)), None)
    ensures signal.Failed? ==> e.store == s
    ensures signal.Failed? ==>
              e.report == Some(InitFinished(Some(TroubleReachingServerMessage),
                                            Some(if signal.isInitNotStarted then NotInit else SetIdentityFailed)))
  {
    match signal
    case Succeeded(response) =>
      var w := WriteBackResponse(s, response);
      if w.completed then Effect(w.store, Some(InitFinished(Some(referringParams(w.store)), None)))
      else Effect(w.store, None)
    case Failed(isInitNotStarted) =>
      Effect(s, Some(FailureReport(isInitNotStarted)))
  }

  /** The listener call `handleFailure` makes: the "trouble reaching
      server" object is attached on both paths, and the error says whether
      the SDK had not been initialised. */
  function FailureReport(isInitNotStarted: bool): (e: Event)
    ensures e.InitFinished? && e.params == Some(TroubleReachingServerMessage)
    ensures e.error == Some(NotInit) <==> isInitNotStarted
    ensures !isInitNotStarted ==> e.error == Some(SetIdentityFailed)
  {
    var error := if isInitNotStarted then NotInit else SetIdentityFailed;
    InitFinished(Some(TroubleReachingServerMessage), Some(error))
  }

  class IdentifyUserRequest {
    const prefHelper: PrefHelper
    const callback: Listener?
    /** The body handed to the request queue (`setPost`). */
    const post: JsonObject
    const constructError: bool

    /** Builds the body from the session store and the user id; `userId` is
        `None` for a null Java string. */
    constructor (prefHelper: PrefHelper, callback: Listener?, userId: Option<string>)
      ensures this.prefHelper == prefHelper && this.callback == callback
      ensures post == IdentifyPost(prefHelper.Snapshot(), userId) && !constructError
    {
      this.prefHelper := prefHelper;
      this.callback := callback;
      var p: JsonObject := map[];
      p := p["identity_id" := prefHelper.identityId];
      p := p["device_fingerprint_id" := prefHelper.deviceFingerprintId];
      p := p["session_id" := prefHelper.sessionId];
      if prefHelper.linkClickId != NoStringValue {
        p := p["link_click_id" := prefHelper.linkClickId];
      }
      match userId {
        case Some(id) => p := p["identity" := id];
        case None => p := p - {"identity"};
      }
      post := p;
      constructError := false;
    }

    /** `onRequestSucceeded(resp, branch)`.  The session writes happen
        whether or not a listener is attached; only the call is gated. */
    method OnRequestSucceeded(response: JsonObject, referringParams: Store -> JsonObject)
      modifies prefHelper, callback
      ensures prefHelper.Snapshot() ==
                Respond(old(prefHelper.Snapshot()), referringParams, Succeeded(response)).store
      ensures callback != null ==>
                callback.received == old(callback.received) +
                  Reported(Respond(old(prefHelper.Snapshot()), referringParams, Succeeded(response)).report)
    {
      var id := GetString(response, "identity_id");
      if id.None? {
        return;
      }
      prefHelper.SetIdentityID(id.value);
      var link := GetString(response, "link");
      if link.None? {
        return;
      }
      prefHelper.SetUserURL(link.value);
      if "referring_data" in response {
        var params := GetString(response, "referring_data");
        prefHelper.SetInstallParams(params.value);
      }
      if callback != null {
        callback.Deliver(InitFinished(Some(referringParams(prefHelper.Snapshot())), None));
      }
    }

    /** `handleFailure(isInitNotStarted)`. */
    method HandleFailure(isInitNotStarted: bool)
      modifies callback
      ensures callback != null ==>
                callback.received == old(callback.received) +
                  [FailureReport(isInitNotStarted)]
    {
      if callback != null {
        var obj: JsonObject := map[];
        obj := obj["error_message" := "Trouble reaching server. Please try again in a few minutes"];
        if isInitNotStarted {
          callback.Deliver(InitFinished(Some(obj), Some(NotInit)));
        } else {
          callback.Deliver(InitFinished(Some(obj), Some(SetIdentityFailed)));
        }
      }
    }

    /** `hasErrors()`: nothing beyond the transport outcome is checked. */
    method HasErrors() returns (r: bool)
      ensures !r
    {
      r := false;
    }

    /** `isGetRequest()`: the request is a POST. */
    method IsGetRequest() returns (r: bool)
      ensures !r
    {
      r := false;
    }
  }
}
