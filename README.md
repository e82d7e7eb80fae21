# Branch SDK server requests, modelled in Dafny

This project models three server requests of the Branch Android SDK:

- `CreateUrlRequest` creates a short link.
- `ApplyReferralCodeRequest` applies a referral code.
- `IdentifyUserRequest` identifies the current user.

Each request does four things:

1. It builds its POST body from the session store (`PrefHelper`).
2. It chooses its request URL.
3. The create-URL request also checks, before dispatch, whether the request may be sent.
4. It turns a server success, a failure signal or a duplicate-URL signal into at most one call on its listener.

How the model represents these:

- **Session store.** `Session.PrefHelper` is a class of string fields. "Not set" is the sentinel `NoStringValue`.
- **Bodies and responses.** A JSON object is a map from each key to the text `getString` returns for it. A lookup that would throw is an `Option`.
- **Listeners.** A listener is a `Callbacks.Listener` object that logs the calls it receives. "Listener called with X" means one event appended to that log. "No listener call" means the log is unchanged.
- **Handler behaviour.** A pure function `Respond` in each request's module holds that request's handler behaviour. It maps the session store and a signal to the new store and the listener call made, if any. Each class method is proved to do exactly what `Respond` says.
- **Sequences of calls.** `Lifecycle.Replay` feeds a sequence of signals to one request. Lemmas about it state what holds over any run of handler calls.

The three flows:

- **Identify-user write-back.** The identity id is written first, then the user URL, then the install params if present. A missing `identity_id` or `link` field throws inside the `try` block. The model reproduces this: the remaining writes and the listener call are skipped.
- **Apply referral code.** The URL is the base URL followed by the body's `referral_code`. A response without the referral-code key is reported as an invalid code.
- **Create URL.** A failure reports the stored user URL as a fallback, except when there is no session or no stored URL. After `clearCallbacks`, no handler calls a listener. The exception is `handleErrors`, which throws in that case (see Findings).

Two behaviours one might expect do not hold in the code, and the model follows the code:

- Only `CreateUrlRequest` overrides `clearCallbacks`. The model gives the other two requests no way to clear their listener.
- A request can be answered more than once. The code does not enforce "at most one listener call per request". What the model proves is at most one listener call per handler call (`Lifecycle.Replay`).

## Model

| member | source | states |
|---|---|---|
| `Session.SessionEntries` | Branch-SDK/src/io/branch/referral/serverrequest/CreateUrlRequest.java:73-78 | The body holds `identity_id`, `device_fingerprint_id` and `session_id` with the store's values. `link_click_id` is present if and only if the stored link-click id is not the sentinel, and then holds that id. No other key is written. |
| `CreateUrl.LinkPost` | Branch-SDK/src/io/branch/referral/serverrequest/CreateUrlRequest.java:72-88 | The create-URL body contains every link attribute. Each session key the attributes do not override keeps the store's value. `link_click_id` is present exactly when a link click is stored. No keys beyond these are present. |
| `CreateUrl.CreateUrlRequest.constructor` | Branch-SDK/src/io/branch/referral/serverrequest/CreateUrlRequest.java:61-95 | The listener and the sync flag are kept. If the attribute setters succeed, `linkPost` is `LinkPost` of the store at construction time, it becomes the body, and `constructError` stays false. If a setter throws, `constructError` is set and no body is set. |
| `CreateUrl.PrecheckAsWritten` | Branch-SDK/src/io/branch/referral/serverrequest/CreateUrlRequest.java:107-116 | Without internet permission, an attached listener gets exactly one `(null, ERR_NO_INTERNET_PERMISSION)` call and the result is true, whatever the sync flag. A detached request throws a NullPointerException instead. With permission, no call is made, and the result is true if and only if the request is synchronous and no identity is stored. |
| `CreateUrl.PrecheckGuarded` | Branch-SDK/src/io/branch/referral/serverrequest/CreateUrlRequest.java:107-116 | Corrected check. It holds the request back if and only if there is no permission, or the request is synchronous with no identity. It calls the listener if and only if there is no permission and a listener is attached. |
| `CreateUrl.PrecheckGuardedAgrees` | Branch-SDK/src/io/branch/referral/serverrequest/CreateUrlRequest.java:108-111 | The corrected check equals the code as written wherever the latter returns. They differ only on a detached request without permission. |
| `CreateUrl.CreateUrlRequest.HandleErrors` | Branch-SDK/src/io/branch/referral/serverrequest/CreateUrlRequest.java:106-116 | The method returns or throws as `PrecheckAsWritten` says. The listener's log grows by exactly the call `PrecheckAsWritten` reports. |
| `CreateUrl.CreateUrlRequest.HandleErrorsGuarded` | Branch-SDK/src/io/branch/referral/serverrequest/CreateUrlRequest.java:107-116 | The method returns the decision `PrecheckGuarded` gives. The listener's log grows by exactly the call `PrecheckGuarded` reports. |
| `CreateUrl.Respond` | Branch-SDK/src/io/branch/referral/serverrequest/CreateUrlRequest.java:119-149 | The request never writes the session. A success reports `(url, null)` if and only if the response has `url`. A failure always reports its status code. The failure's URL is present if and only if the code is not `ERR_NO_SESSION` and a user URL is stored; it is then that URL, never the sentinel. A duplicate-URL signal reports `(null, ERR_BRANCH_DUPLICATE_URL)`. |
| `CreateUrl.CreateUrlRequest.OnRequestSucceeded` | Branch-SDK/src/io/branch/referral/serverrequest/CreateUrlRequest.java:118-128 | An attached listener's log grows by `Respond`'s success report. A response without `url` adds nothing and does not fail. A detached request changes nothing. |
| `CreateUrl.CreateUrlRequest.HandleFailure` | Branch-SDK/src/io/branch/referral/serverrequest/CreateUrlRequest.java:130-143 | An attached listener's log grows by `Respond`'s failure report for that status code and the stored user URL. A detached request changes nothing. |
| `CreateUrl.CreateUrlRequest.HandleDuplicateURLError` | Branch-SDK/src/io/branch/referral/serverrequest/CreateUrlRequest.java:145-149 | An attached listener's log grows by `(null, ERR_BRANCH_DUPLICATE_URL)`. A detached request changes nothing. |
| `CreateUrl.CreateUrlRequest.ClearCallbacks` | Branch-SDK/src/io/branch/referral/serverrequest/CreateUrlRequest.java:160-163 | The listener is detached, so every later handler above is a no-op. Calling it again changes nothing. |
| `CreateUrl.HasUser` | Branch-SDK/src/io/branch/referral/serverrequest/CreateUrlRequest.java:151-153 | `hasUser` holds if and only if the `identity_id` a body built now would send is not the sentinel. |
| `CreateUrl.CreateUrlRequest.IsGetRequest` | Branch-SDK/src/io/branch/referral/serverrequest/CreateUrlRequest.java:155-158 | The request is never a GET. |
| `ApplyReferralCode.ApplyPost` | Branch-SDK/src/io/branch/referral/serverrequest/ApplyReferralCodeRequest.java:44-50 | The body holds the three session keys from the store, and `link_click_id` if and only if a link click is stored. `referral_code` is present if and only if the code is non-null, and then equals the code. |
| `ApplyReferralCode.ApplyReferralCodeRequest.constructor` | Branch-SDK/src/io/branch/referral/serverrequest/ApplyReferralCodeRequest.java:37-56 | The body is `ApplyPost` of the store at construction time, and no construction error is raised. |
| `ApplyReferralCode.UrlFor` | Branch-SDK/src/io/branch/referral/serverrequest/ApplyReferralCodeRequest.java:62-71 | The URL starts with the base URL. What follows the base is the body's `referral_code`, or nothing when the body has none. |
| `ApplyReferralCode.ApplyReferralCodeRequest.RequestUrl` | Branch-SDK/src/io/branch/referral/serverrequest/ApplyReferralCodeRequest.java:62-71 | The request's URL is the base URL followed by its body's `referral_code`. When the body has no such key, the URL is the bare base URL. |
| `ApplyReferralCode.RequestUrlCarriesCode` | Branch-SDK/src/io/branch/referral/serverrequest/ApplyReferralCodeRequest.java:63-71 | For a freshly built request, the URL is the base followed by the code, and the code can be read back from it. A null code gives the bare base URL. |
| `ApplyReferralCode.Respond` | Branch-SDK/src/io/branch/referral/serverrequest/ApplyReferralCodeRequest.java:74-104 | The request never writes the session and always makes exactly one call. On success, the call carries an error if and only if the response lacks the referral-code key. It is `({error_message: "Invalid referral code"}, InvalidReferralCode)` in that case, and `(response unchanged, null)` otherwise. A failure is reported as `(null, NotInit)` or `(null, ApplyReferralCodeFailed)`, depending on the flag. |
| `ApplyReferralCode.ApplyReferralCodeRequest.OnRequestSucceeded` | Branch-SDK/src/io/branch/referral/serverrequest/ApplyReferralCodeRequest.java:74-94 | An attached listener's log grows by `Respond`'s success report. A detached request changes nothing. |
| `ApplyReferralCode.ApplyReferralCodeRequest.HandleFailure` | Branch-SDK/src/io/branch/referral/serverrequest/ApplyReferralCodeRequest.java:96-104 | An attached listener's log grows by `Respond`'s failure report. A detached request changes nothing. |
| `ApplyReferralCode.ApplyReferralCodeRequest.HasErrors` | Branch-SDK/src/io/branch/referral/serverrequest/ApplyReferralCodeRequest.java:106-109 | The request never reports errors of its own. |
| `ApplyReferralCode.ApplyReferralCodeRequest.IsGetRequest` | Branch-SDK/src/io/branch/referral/serverrequest/ApplyReferralCodeRequest.java:111-114 | The request is never a GET. |
| `IdentifyUser.IdentifyPost` | Branch-SDK/src/io/branch/referral/serverrequest/IdentifyUserRequest.java:41-47 | The body holds the three session keys from the store, and `link_click_id` if and only if a link click is stored. `identity` is present if and only if the user id is non-null, and then equals the user id. |
| `IdentifyUser.IdentifyUserRequest.constructor` | Branch-SDK/src/io/branch/referral/serverrequest/IdentifyUserRequest.java:35-53 | The body is `IdentifyPost` of the store at construction time, and no construction error is raised. |
| `IdentifyUser.WriteBackResponse` | Branch-SDK/src/io/branch/referral/serverrequest/IdentifyUserRequest.java:60-76 | The write-back completes if and only if the response has both `identity_id` and `link`. Without `identity_id`, nothing is written. Without `link`, only the identity id is written. When it completes, the identity id and user URL are the response's. Install params are written with `referring_data` when it is present and are untouched otherwise. Fingerprint, session and link-click ids never change. |
| `IdentifyUser.Respond` | Branch-SDK/src/io/branch/referral/serverrequest/IdentifyUserRequest.java:60-92 | A success leaves the session as `WriteBackResponse` says. It reports if and only if the write-back completed. The report carries the first-referring params read from the updated session and a null error, never the raw response. A failure writes nothing and reports the "Trouble reaching server" object, with `NotInit` or `SetIdentityFailed` depending on the flag. |
| `IdentifyUser.FailureReport` | Branch-SDK/src/io/branch/referral/serverrequest/IdentifyUserRequest.java:79-91 | A failure call always carries the `{error_message: "Trouble reaching server. Please try again in a few minutes"}` object. Its error is `NotInit` if and only if the SDK was not initialised, and `SetIdentityFailed` otherwise. |
| `IdentifyUser.IdentifyUserRequest.OnRequestSucceeded` | Branch-SDK/src/io/branch/referral/serverrequest/IdentifyUserRequest.java:60-76 | The session store becomes `Respond`'s new store whether or not a listener is attached. Only an attached listener's log grows, by `Respond`'s report. |
| `IdentifyUser.IdentifyUserRequest.HandleFailure` | Branch-SDK/src/io/branch/referral/serverrequest/IdentifyUserRequest.java:78-92 | An attached listener's log grows by the "Trouble reaching server" object with `NotInit` or `SetIdentityFailed`. A detached request changes nothing. |
| `IdentifyUser.IdentifyUserRequest.HasErrors` | Branch-SDK/src/io/branch/referral/serverrequest/IdentifyUserRequest.java:94-97 | The request never reports errors of its own. |
| `IdentifyUser.IdentifyUserRequest.IsGetRequest` | Branch-SDK/src/io/branch/referral/serverrequest/IdentifyUserRequest.java:99-102 | The request is never a GET. |
| `Lifecycle.Replay` | Branch-SDK/src/io/branch/referral/serverrequest/CreateUrlRequest.java:119-149 | Harness: feeds a run of signals to one request through its `Respond` function. Because every handler makes at most one guarded listener call, each signal adds at most one call, and a request without a listener makes none. |
| `Lifecycle.DetachedRunWritesAlike` | Branch-SDK/src/io/branch/referral/serverrequest/IdentifyUserRequest.java:60-76 | Harness fact, true for any handlers whose store result does not depend on the listener, as in every `Respond` here. Over any run, the session ends the same with or without a listener. |
| `Lifecycle.ApplyRunAnswersEverySignal` | Branch-SDK/src/io/branch/referral/serverrequest/ApplyReferralCodeRequest.java:74-104 | An apply-referral-code request never changes the session. With a listener, it makes exactly one call per signal. |
| `Lifecycle.CreateUrlRunAnswersEveryFailure` | Branch-SDK/src/io/branch/referral/serverrequest/CreateUrlRequest.java:130-149 | A create-URL request never changes the session. It makes exactly one call per failure or duplicate-URL signal. |
| `Lifecycle.IdentifyDetachedStillWritesBack` | Branch-SDK/src/io/branch/referral/serverrequest/IdentifyUserRequest.java:60-76 | After any run of identify-user signals that ends in a success carrying `identity_id` and `link`, a detached request holds that identity id and that user URL. Its session equals an attached request's, and no listener is called. |
| `Lifecycle.IdentifyRunKeepsDeviceIds` | Branch-SDK/src/io/branch/referral/serverrequest/IdentifyUserRequest.java:60-68 | Over any run of identify-user signals, attached or not, the device fingerprint, session and link-click ids never change. Only the identity id, user URL and install params are written. |
| `Lifecycle.IdentifiedSessionFeedsLaterRequests` | Branch-SDK/src/io/branch/referral/serverrequest/CreateUrlRequest.java:151-153 | After a completed identify-user write-back, the next body's `identity_id` is the assigned identity. `hasUser` holds, and a synchronous create-URL request with permission passes the check, if and only if that identity is not the sentinel. A later create-URL failure falls back to the user's `link`. |

## Left out

- The Android `Context` and `doesAppHasInternetPermission` are not modelled. Permission is a boolean input to the pre-dispatch check.
- Parts of the `ServerRequest` base class are not part of this model: the base URL, `setPost`/`getPost`, how `constructError_` is consumed, the default `clearCallbacks`, and the secondary `(requestPath, post, context)` constructors that only forward to it. The base URL is a string parameter. The body is the request's `post` field.
- `BranchLinkData`'s setters (`putType` … `putParams`) are not part of this model. Their result is an opaque map of link attributes. `None` stands for a setter that threw `JSONException`.
- `CreateUrl.CreateUrlRequest.constructor`: when a link-attribute setter throws, the contract does not say what `linkPost` holds. The attributes written before the throw are not modelled.
- The numeric values of `BranchError` codes, the text of `Branch.REFERRAL_CODE` and the text of `PrefHelper.NO_STRING_VALUE` are abstract constants. Every property holds for any values.
- The model keeps the text `getString` returns for each JSON value. Nested objects, numbers and `JSONObject.NULL` are kept only as that text.
- Exceptions that cannot occur with these keys and values are not modelled: `put` of a string under a literal key, and the `catch` blocks around such puts. Apply-referral-code and identify-user requests therefore never set `constructError`.
- Stack-trace logging on swallowed exceptions is not modelled.
- `ServerResponse.getObject()` is taken to return an object. The null case is not modelled.
- `Branch` is not part of this model. `getFirstReferringParams` is a function of the session store, evaluated when the listener is called.
- Listener implementations are reduced to the log of calls they receive.
- Network dispatch, the request queue, its ordering and concurrency are not modelled. `Lifecycle.Replay` only feeds signals in a given order.
- The `getLinkPost()` accessor is the `linkPost` field.

## Findings

| source | as written | input that shows it | evidently intended | confidence | as-written member | corrected member |
|---|---|---|---|---|---|---|
| Branch-SDK/src/io/branch/referral/serverrequest/CreateUrlRequest.java:108-111 | `handleErrors` calls `callback_.onLinkCreate` without checking for null. | A request after `clearCallbacks()`, or built with a null listener, checked on a device without internet permission. It throws a NullPointerException instead of returning true. | Skip the listener call when no listener is attached, as the other three handlers of the class do, and still hold the request back. | medium, not executed | `CreateUrl.PrecheckAsWritten` | `CreateUrl.PrecheckGuarded` |
