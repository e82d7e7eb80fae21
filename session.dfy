/** The session store (`PrefHelper`) that every request reads when it is
    built, and that the identify-user request writes back into.  Every
    field is a string; "not yet established" is the sentinel
    `NoStringValue`, never an absent value. */
module Session {
  import opened Json

  /** `PrefHelper.NO_STRING_VALUE`.  Its text is defined in PrefHelper,
      which is not part of this model; every property here holds whatever
      that text is. */
  const NoStringValue: string

  /** A snapshot of the fields of the session store the requests use. */
  datatype Store = Store(
    identityId: string,
    deviceFingerprintId: string,
    sessionId: string,
    linkClickId: string,
    userUrl: string,
    installParams: string)

  /** The mutable session store shared by all requests. */
  class PrefHelper {
    var identityId: string
    var deviceFingerprintId: string
    var sessionId: string
    var linkClickId: string
    var userUrl: string
    var installParams: string

    function Snapshot(): Store
      reads this
    {
      Store(identityId, deviceFingerprintId, sessionId, linkClickId, userUrl, installParams)
    }

    constructor (initial: Store)
      ensures Snapshot() == initial
    {
      identityId := initial.identityId;
      deviceFingerprintId := initial.deviceFingerprintId;
      sessionId := initial.sessionId;
      linkClickId := initial.linkClickId;
      userUrl := initial.userUrl;
      installParams := initial.installParams;
    }

    method SetIdentityID(id: string)
      modifies this
      ensures Snapshot() == old(Snapshot()).(identityId := id)
    {
      identityId := id;
    }

    method SetUserURL(url: string)
      modifies this
      ensures Snapshot() == old(Snapshot()).(userUrl := url)
    {
      userUrl := url;
    }

    method SetInstallParams(params: string)
      modifies this
      ensures Snapshot() == old(Snapshot()).(installParams := params)
    {
      installParams := params;
    }
  }

  /** The session part of every request body: the three session keys,
      plus `link_click_id` exactly when a link click has been recorded. */
  function SessionEntries(s: Store): (m: JsonObject)
    ensures "identity_id" in m && m["identity_id"] == s.identityId
    ensures "device_fingerprint_id" in m && m["device_fingerprint_id"] == s.deviceFingerprintId
    ensures "session_id" in m && m["session_id"] == s.sessionId
    ensures "link_click_id" in m <==> s.linkClickId != NoStringValue
    ensures "link_click_id" in m ==> m["link_click_id"] == s.linkClickId
    ensures m.Keys <= SessionKeys
  {
    var m := map["identity_id" := s.identityId,
                 "device_fingerprint_id" := s.deviceFingerprintId,
                 "session_id" := s.sessionId];
    if s.linkClickId != NoStringValue then m["link_click_id" := s.linkClickId] else m
  }

  /** Every key `SessionEntries` may write. */
  const SessionKeys: set<string> :=
    {"identity_id", "device_fingerprint_id", "session_id", "link_click_id"}
}
