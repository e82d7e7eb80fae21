/** What the requests hand to the application: the listener calls they
    make, recorded as events on a log, and the error values they carry. */
module Callbacks {
  import opened Json
  import opened Session

  /** `BranchError.ERR_NO_SESSION`, `ERR_NO_INTERNET_PERMISSION` and
      `ERR_BRANCH_DUPLICATE_URL`.  Their numeric values are defined in
      BranchError, which is not part of this model. */
  const ErrNoSession: int
  const ErrNoInternetPermission: int
  const ErrBranchDuplicateUrl: int

  /** The error objects passed to listeners. */
  datatype BranchError =
    | TroubleCreatingUrl(code: int)   // new BranchError("Trouble creating a URL.", code)
    | InvalidReferralCode             // BranchInvalidReferralCodeError
    | NotInit                         // BranchNotInitError
    | ApplyReferralCodeFailed         // BranchApplyReferralCodeError
    | SetIdentityFailed               // BranchSetIdentityError

  /** One listener call: `onLinkCreate(url, error)` or
      `onInitFinished(params, error)`; `None` stands for Java's null. */
  datatype Event =
    | LinkCreate(url: Option<string>, error: Option<BranchError>)
    | InitFinished(params: Option<JsonObject>, error: Option<BranchError>)

  /** A listener, reduced to the log of the calls it receives. */
  class Listener {
    var received: seq<Event>

    constructor ()
      ensures received == []
    {
      received := [];
    }

    method Deliver(e: Event)
      modifies this
      ensures received == old(received) + [e]
    {
      received := received + [e];
    }
  }

  /** The log entries an optional report adds. */
  function Reported(report: Option<Event>): seq<Event> {
    match report
    case None => []
    case Some(e) => [e]
  }

  /** What one handler call does: the session store afterwards and the
      listener call it makes if a listener is attached. */
  datatype Effect = Effect(store: Store, report: Option<Event>)

  /** How a Java method call ends: a value, or a NullPointerException. */
  datatype Completion<+T> = Returns(value: T) | ThrowsNullPointer
}
