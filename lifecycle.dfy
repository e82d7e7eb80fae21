/** The requests seen from the request queue: a run of handler calls on
    one request, and how an identify-user success is seen by requests
    built afterwards. */
module Lifecycle {
  import opened Json
  import opened Session
  import opened Callbacks
  import CreateUrl
  import ApplyReferralCode
  import IdentifyUser

  /** The session store after a run of handler calls, and the listener
      calls made, in order. */
  datatype Run = Run(store: Store, delivered: seq<Event>)

  /** Feeds `signals` one after another to a request whose handlers are
      given by `respond`, starting from session `s`; `attached` says
      whether the request has a listener.  Each call makes at most one
      listener call, and a request without a listener makes none. */
  function Replay<S>(respond: (Store, S) -> Effect, s: Store, attached: bool, signals: seq<S>): (r: Run)
    ensures |r.delivered| <= |signals|
    ensures !attached ==> r.delivered == []
    decreases |signals|
  {
    if signals == [] then Run(s, [])
    else
      var e := respond(s, signals[0]);
      var rest := Replay(respond, e.store, attached, signals[1..]);
      Run(rest.store, (if attached then Reported(e.report) else []) + rest.delivered)
  }

  /** Session writes do not depend on the listener: a request without a
      listener (never given one, or after `clearCallbacks`) leaves the
      session exactly as the same request with a listener would. */
  lemma {:induction false} DetachedRunWritesAlike<S>(respond: (Store, S) -> Effect, s: Store, signals: seq<S>)
    ensures Replay(respond, s, false, signals).store == Replay(respond, s, true, signals).store
    decreases |signals|
  {
    if signals != [] {
      DetachedRunWritesAlike(respond, respond(s, signals[0]).store, signals[1..]);
    }
  }

  /** An apply-referral-code request never writes the session and, with a
      listener, answers every signal with exactly one listener call. */
  lemma {:induction false} ApplyRunAnswersEverySignal(s: Store, signals: seq<ApplyReferralCode.Signal>)
    ensures Replay(ApplyReferralCode.Respond, s, true, signals).store == s
    ensures |Replay(ApplyReferralCode.Respond, s, true, signals).delivered| == |signals|
    decreases |signals|
  {
    if signals != [] {
      ApplyRunAnswersEverySignal(s, signals[1..]);
    }
  }

  /** A create-URL request never writes the session, and every failure or
      duplicate-URL signal gets exactly one listener call. */
  lemma {:induction false} CreateUrlRunAnswersEveryFailure(s: Store, signals: seq<CreateUrl.Signal>)
    requires forall i :: 0 <= i < |signals| ==> !signals[i].Succeeded?
    ensures Replay(CreateUrl.Respond, s, true, signals).store == s
    ensures |Replay(CreateUrl.Respond, s, true, signals).delivered| == |signals|
    decreases |signals|
  {
    if signals != [] {
      CreateUrlRunAnswersEveryFailure(s, signals[1..]);
    }
  }

  /** Running `pre` and then one more signal leaves the session that
      signal's handler leaves when applied after `pre`. */
  lemma {:induction false} ReplaySnoc<S>(respond: (Store, S) -> Effect, s: Store, attached: bool,
                                         pre: seq<S>, last: S)
    ensures Replay(respond, s, attached, pre + [last]).store
              == respond(Replay(respond, s, attached, pre).store, last).store
    decreases |pre|
  {
    if pre == [] {
      assert pre + [last] == [last];
    } else {
      assert (pre + [last])[1..] == pre[1..] + [last];
      ReplaySnoc(respond, respond(s, pre[0]).store, attached, pre[1..], last);
    }
  }

  /** The identify-user handlers with a given `getFirstReferringParams`. */
  function IdentifyResponder(referringParams: Store -> JsonObject): (Store, IdentifyUser.Signal) -> Effect {
    (st: Store, sig: IdentifyUser.Signal) => IdentifyUser.Respond(st, referringParams, sig)
  }

  /** A detached identify-user request still records the identity the
      server assigns: after any run of signals ending in a success that
      carries `identity_id` and `link`, the session holds that identity and
      that link, exactly as an attached request would leave it, and no
      listener has been called. */
  lemma IdentifyDetachedStillWritesBack(s: Store, referringParams: Store -> JsonObject,
                                        pre: seq<IdentifyUser.Signal>, response: JsonObject)
    requires "identity_id" in response && "link" in response
    ensures var run := Replay(IdentifyResponder(referringParams), s, false, pre + [IdentifyUser.Succeeded(response)]);
            run.delivered == [] &&
            run.store.identityId == response["identity_id"] &&
            run.store.userUrl == response["link"] &&
            run.store == Replay(IdentifyResponder(referringParams), s, true,
                                pre + [IdentifyUser.Succeeded(response)]).store
  {
    var respond := IdentifyResponder(referringParams);
    ReplaySnoc(respond, s, false, pre, IdentifyUser.Succeeded(response));
    DetachedRunWritesAlike(respond, s, pre + [IdentifyUser.Succeeded(response)]);
  }

  /** However many identify-user signals a request receives, attached or
      not, it never changes the device fingerprint, session or link-click
      ids: the write-back touches only the identity, the user URL and the
      install params. */
  lemma {:induction false} IdentifyRunKeepsDeviceIds(s: Store, referringParams: Store -> JsonObject,
                                                     attached: bool, signals: seq<IdentifyUser.Signal>)
    ensures var after := Replay(IdentifyResponder(referringParams), s, attached, signals).store;
            after.deviceFingerprintId == s.deviceFingerprintId &&
            after.sessionId == s.sessionId &&
            after.linkClickId == s.linkClickId
    decreases |signals|
  {
    if signals != [] {
      var respond := IdentifyResponder(referringParams);
      IdentifyRunKeepsDeviceIds(respond(s, signals[0]).store, referringParams, attached, signals[1..]);
    }
  }

  /** A completed identify-user write-back is what requests built or
      answered afterwards see: the next body carries the assigned identity,
      a synchronous create-URL request is let through exactly when that
      identity is a real one, and a create-URL failure falls back to the
      user's link. */
  lemma IdentifiedSessionFeedsLaterRequests(s: Store, response: JsonObject, statusCode: int)
    requires IdentifyUser.WriteBackResponse(s, response).completed
    ensures var after := IdentifyUser.WriteBackResponse(s, response).store;
            SessionEntries(after)["identity_id"] == response["identity_id"] &&
            (CreateUrl.HasUser(after) <==> response["identity_id"] != NoStringValue) &&
            (!CreateUrl.PrecheckGuarded(after, false, true, true).abort <==>
               response["identity_id"] != NoStringValue)
    ensures var after := IdentifyUser.WriteBackResponse(s, response).store;
            statusCode != ErrNoSession && response["link"] != NoStringValue ==>
              CreateUrl.Respond(after, CreateUrl.Failed(statusCode)).report.value.url == Some(response["link"])
  {
  }
}
