# Secure payload delivery: a Dafny model

A Dafny model of three pieces of the Apptentive Android SDK, with proofs of
what each promises:

- **`SecurityManager`** binds an install to a master-key pair
  `(alias, versionCode)` kept in a preference store. If the stored pair is
  missing or unusable (a null or empty alias, or a version code of 0), it
  generates a new alias (`"apptentive-key-"` followed by a random UUID). It
  then pins the version code: `min(18, SDK_INT)` when storage is encrypted,
  17 (the no-op key store) when it is not. It writes both entries before
  returning. A stored pair is reused unchanged. A failing key resolver is
  absorbed into the `CORRUPTED` key and one error metric. `clear` wipes the
  store and keeps the cached key. (`encryption.dfy`, module `Encryption`.)
- **`PayloadSender`** sends one payload at a time. A `sendingFlag` gates
  acceptance. Every terminal path clears the flag first and then tells the
  listener `(cancelled, errorMessage)`: finish gives `(false, null)`, cancel
  gives `(true, null)`, and fail gives `(false, reason)`. A synchronous
  exception during dispatch counts as a failure. Its message is the
  exception's message, or `"<SimpleName> is thrown"` when that is null.
  (`storage.dfy`, module `Storage`.)
- **`MultiselectSurveyQuestionView.isValid`** counts the checked boxes. An
  optional question with nothing checked is valid; otherwise the count must
  lie within `[minSelections, maxSelections]`. (`survey.dfy`, module `Survey`.)

`wrappers.dfy` holds the shared value types. `Option` stands in for a Java
reference that may be null, `Exception` for a thrown exception (its simple
class name and its nullable message), and `Result` for a value or the
exception thrown instead.

How the model is built:

- State that the Java code updates in place is a class. `Preferences` is the
  SharedPreferences file. `SecurityManager` holds the static `masterKey` and
  a count of error metrics. `PayloadSender` holds the flag, the listener, and
  two logs: the listener's notifications and the requests dispatched.
- Each mutating method is specified by a pure function of the old state
  (`KeyInfoFor`, `SendPayloadStep`, `HandleFinish`, `Step`). The lemmas are
  proved about those functions.
- Runs of the sender are sequences of `Event`s folded by `Run`. The
  single-flight lemmas are proved over these runs.

Inputs the model takes as parameters:

- the platform level `SDK_INT` (an unbounded `int`);
- the random UUID behind a new alias;
- the key resolver, as a function from `KeyInfo` to "a key" or "an exception";
- what the request sender does on each dispatch: it returns a request,
  returns null (and the `NullPointerException` that follows carries a message
  the runtime chooses), or throws;
- which dispatched request each `onFinish`, `onCancel` or `onFail` callback
  belongs to, as a position in the log of dispatched requests.

## Model

| member | source | states |
|---|---|---|
| `Encryption.NewKeyInfo` | apptentive/src/main/java/com/apptentive/android/sdk/encryption/SecurityManager.java:131-140 | a KeyInfo is built exactly when the alias is neither null nor empty and the version code is at least 1; every built KeyInfo is valid and holds the given pair; otherwise an IllegalArgumentException |
| `Encryption.PinnedVersionCode` | apptentive/src/main/java/com/apptentive/android/sdk/encryption/SecurityManager.java:71-75 | when encrypting, the version code is the smaller of 18 and SDK_INT, so never above 18; when not, it is 17, below the legacy pin |
| `Encryption.GenerateUniqueKeyAlias` | apptentive/src/main/java/com/apptentive/android/sdk/encryption/SecurityManager.java:108-110 | a new alias is non-empty, starts with `apptentive-key-`, and the UUID can be read back from the rest |
| `Encryption.DistinctUuidsGiveDistinctAliases` | apptentive/src/main/java/com/apptentive/android/sdk/encryption/SecurityManager.java:108-110 | different UUIDs give different aliases |
| `Encryption.WithKeyInfo` | apptentive/src/main/java/com/apptentive/android/sdk/encryption/SecurityManager.java:76-79 | writing the pair stores both the alias and the version code and leaves every other entry as it was |
| `Encryption.KeyInfoFor` | apptentive/src/main/java/com/apptentive/android/sdk/encryption/SecurityManager.java:58-84 | resolveKeyInfo as a function of the store: it writes only when the stored pair is missing or unusable, and a KeyInfo it returns is valid and is exactly the usable pair left in the store |
| `Encryption.StoredPairIsSticky` | apptentive/src/main/java/com/apptentive/android/sdk/encryption/SecurityManager.java:63-83 | a stored non-empty alias with a non-zero version code is returned unchanged and nothing is written, whatever the encryption choice, SDK_INT or UUID; a negative stored version makes the KeyInfo constructor throw |
| `Encryption.MissingPairIsRegenerated` | apptentive/src/main/java/com/apptentive/android/sdk/encryption/SecurityManager.java:63-83 | a missing alias or a zero version code, even one alone, leads to a new alias from the UUID and a pinned version code; both are written, and the result is that pair exactly when the pinned code is at least 1 |
| `Encryption.FreshInstallEncryptedPinsLegacy` | apptentive/src/main/java/com/apptentive/android/sdk/encryption/SecurityManager.java:71-72 | on an empty store with encryption, the stored version code is min(18, SDK_INT), never above 18, and the resolution succeeds exactly when SDK_INT is at least 1 |
| `Encryption.FreshInstallOptOutPinsNoOp` | apptentive/src/main/java/com/apptentive/android/sdk/encryption/SecurityManager.java:73-74 | on an empty store without encryption, the pair is (the new alias, 17), whatever SDK_INT is |
| `Encryption.SecondResolutionReturnsSamePair` | apptentive/src/main/java/com/apptentive/android/sdk/encryption/SecurityManager.java:58-84 | a second resolution on the store the first one left returns the identical result and writes nothing, whatever its own inputs; the only exception is an encrypting first call with SDK_INT 0 |
| `Encryption.ResolutionsStaySticky` | apptentive/src/main/java/com/apptentive/android/sdk/encryption/SecurityManager.java:58-84 | over any sequence of inits on one store, every call yields the pair of the first call |
| `Encryption.ResolutionSucceedsOnBoundPrefs` | apptentive/src/main/java/com/apptentive/android/sdk/encryption/SecurityManager.java:58-84 | on a store satisfying `BoundPrefs` (no usable pair, or a non-empty alias with a version code of at least 1) and with SDK_INT at least 1, the resolution never throws, returns a valid KeyInfo, and leaves that same pair stored |
| `Encryption.NegativeStoredVersionThrows` | apptentive/src/main/java/com/apptentive/android/sdk/encryption/SecurityManager.java:63-83 | a stored non-empty alias with a negative version code is reused; the KeyInfo constructor then throws "Invalid SDK version code" and nothing is written |
| `Encryption.ClearedPrefsGetNewAlias` | apptentive/src/main/java/com/apptentive/android/sdk/encryption/SecurityManager.java:53-56 | after a clear, the next resolution stores the alias of the new UUID, which differs from the old alias when the UUIDs differ |
| `Encryption.MasterKeyFrom` | apptentive/src/main/java/com/apptentive/android/sdk/encryption/SecurityManager.java:86-95 | the master key is the resolver's key, or CORRUPTED when the resolver throws |
| `Encryption.Preferences.constructor` | apptentive/src/main/java/com/apptentive/android/sdk/encryption/SecurityManager.java:112-114 | the preference store starts with the given contents |
| `Encryption.Preferences.GetString` | apptentive/src/main/java/com/apptentive/android/sdk/encryption/SecurityManager.java:63 | returns the stored string, or the default when the key is absent |
| `Encryption.Preferences.GetInt` | apptentive/src/main/java/com/apptentive/android/sdk/encryption/SecurityManager.java:64 | returns the stored int, or the default when the key is absent |
| `Encryption.Preferences.PutStringAndInt` | apptentive/src/main/java/com/apptentive/android/sdk/encryption/SecurityManager.java:76-79 | both entries are written together |
| `Encryption.Preferences.Clear` | apptentive/src/main/java/com/apptentive/android/sdk/encryption/SecurityManager.java:55 | the store becomes empty |
| `Encryption.SecurityManager.constructor` | apptentive/src/main/java/com/apptentive/android/sdk/encryption/SecurityManager.java:36 | no master key before the first init, and no error metric logged |
| `Encryption.SecurityManager.Init` | apptentive/src/main/java/com/apptentive/android/sdk/encryption/SecurityManager.java:40-51 | a null context throws IllegalArgumentException and changes nothing. Otherwise the store is updated as resolveKeyInfo says. If that throws, the exception escapes and the key is unchanged. Otherwise the key is the resolver's key or CORRUPTED, with one error metric exactly when the resolver throws |
| `Encryption.SecurityManager.Clear` | apptentive/src/main/java/com/apptentive/android/sdk/encryption/SecurityManager.java:53-56 | the store becomes empty and the cached key and the metrics are unchanged; a null context throws NullPointerException with the runtime's message |
| `Encryption.SecurityManager.ResolveKeyInfo` | apptentive/src/main/java/com/apptentive/android/sdk/encryption/SecurityManager.java:58-84 | the result and the new store are those of `KeyInfoFor` on the old store |
| `Encryption.SecurityManager.ResolveMasterKey` | apptentive/src/main/java/com/apptentive/android/sdk/encryption/SecurityManager.java:86-95 | the key is the resolver's or CORRUPTED, and the error-metric count grows by one exactly when the resolver throws |
| `Encryption.SecurityManager.GetMasterKey` | apptentive/src/main/java/com/apptentive/android/sdk/encryption/SecurityManager.java:101-103 | returns the cached key |
| `Encryption.InitContainsResolverFailure` | apptentive/src/main/java/com/apptentive/android/sdk/encryption/SecurityManager.java:86-95 | on a store satisfying `BoundPrefs` and with SDK_INT at least 1, init returns normally; the cached key is the one the resolver gives for the resolved pair, or CORRUPTED when the resolver throws, and the error-metric count grows by one exactly when it throws |
| `Storage.DispatchErrorMessage` | apptentive/src/main/java/com/apptentive/android/sdk/storage/PayloadSender.java:57-60 | the failure message is the exception's own message when it has one; otherwise it starts with the exception's simple name and is longer than it. It is empty only when the exception's message is the empty string |
| `Storage.HandleFinish` | apptentive/src/main/java/com/apptentive/android/sdk/storage/PayloadSender.java:94-104 | the flag ends cleared. A set listener gets exactly one notification appended, carrying the payload, cancelled and errorMessage. Without a listener nothing is logged. Nothing else changes |
| `Storage.DispatchFailure` | apptentive/src/main/java/com/apptentive/android/sdk/storage/PayloadSender.java:71-87 | no exception escapes exactly when the request sender returns a request; a null request gives a NullPointerException with the runtime's message, and a throwing request sender its own exception |
| `Storage.OnFinishStep` | apptentive/src/main/java/com/apptentive/android/sdk/storage/PayloadSender.java:73-75 | for a dispatched request: the flag is cleared, nothing else but the notifications changes, and a set listener gets one notification (false, null) for the payload that request was sent for; a position with no request changes nothing |
| `Storage.OnCancelStep` | apptentive/src/main/java/com/apptentive/android/sdk/storage/PayloadSender.java:78-80 | as for onFinish, with the notification (true, null) |
| `Storage.OnFailStep` | apptentive/src/main/java/com/apptentive/android/sdk/storage/PayloadSender.java:83-85 | as for onFinish, with the notification (false, reason) |
| `Storage.SendRequest` | apptentive/src/main/java/com/apptentive/android/sdk/storage/PayloadSender.java:68-88 | dispatch succeeds exactly when the request sender returns a non-null request, which is then logged with the payload and the sender's retry policy; otherwise the exception escapes (the request sender's own, or a NullPointerException for a null request) and the state is unchanged |
| `Storage.SendPayloadStep` | apptentive/src/main/java/com/apptentive/android/sdk/storage/PayloadSender.java:40-66 | a null payload throws IllegalArgumentException, otherwise the result is true exactly when the sender was idle; a refused call changes nothing; the retry policy and listener never change; after an accepted send the flag stays set exactly when a request was returned, which is then logged with the payload and the sender's policy, and otherwise the listener (if any) gets one notification and nothing is logged |
| `Storage.NullPayloadThrows` | apptentive/src/main/java/com/apptentive/android/sdk/storage/PayloadSender.java:41-43 | a null payload throws IllegalArgumentException and the state is unchanged |
| `Storage.BusySenderRejects` | apptentive/src/main/java/com/apptentive/android/sdk/storage/PayloadSender.java:45-48 | while sending, a payload is refused (false) with no dispatch, no notification and no change |
| `Storage.IdleSenderAccepts` | apptentive/src/main/java/com/apptentive/android/sdk/storage/PayloadSender.java:50-65 | an idle sender returns true. A dispatched request keeps the flag set, notifies no one, and carries the sender's retry policy. A throwing dispatch ends with the flag cleared and exactly one failure notification (cancelled false) carrying the exception's message, or `"<SimpleName> is thrown"` when it has none; a null request does the same with the resulting NullPointerException |
| `Storage.CallbackOutcomes` | apptentive/src/main/java/com/apptentive/android/sdk/storage/PayloadSender.java:71-86 | the callbacks of a dispatched request report the payload that request was sent for: onFinish notifies (false, null), onCancel (true, null) and onFail (false, reason), each exactly once, and each clears the flag |
| `Storage.ResendFromListenerAccepted` | apptentive/src/main/java/com/apptentive/android/sdk/storage/PayloadSender.java:94-95 | the flag is clear before the listener runs, so a send made from the listener is accepted |
| `Storage.AtMostOneInFlight` | apptentive/src/main/java/com/apptentive/android/sdk/storage/PayloadSender.java:40-66 | over any run, accepted sends never outnumber the calls of handleFinishSendingPayload plus the one send still outstanding, whatever the callbacks do; a stale callback counts as such a call |
| `Storage.CompletesExactlyOnce` | apptentive/src/main/java/com/apptentive/android/sdk/storage/PayloadSender.java:40-104 | when the request sender calls back only while a send is outstanding, and only for the outstanding request, every accepted payload but the one in flight completes exactly once |
| `Storage.OneNotificationPerCompletion` | apptentive/src/main/java/com/apptentive/android/sdk/storage/PayloadSender.java:94-104 | with a listener that is never replaced, the listener gets exactly one notification per completion |
| `Storage.PayloadBalanceStep` | apptentive/src/main/java/com/apptentive/android/sdk/storage/PayloadSender.java:40-104 | one step with a listener in place moves an accepted payload to the outstanding slot or to the notifications, and the outstanding payload to the notifications; nothing else is notified |
| `Storage.NotifiesAcceptedPayloadsInOrder` | apptentive/src/main/java/com/apptentive/android/sdk/storage/PayloadSender.java:40-104 | under a well-behaved request sender and a listener never replaced, the payloads of the new notifications, followed by the one still outstanding, are exactly the accepted payloads in the order they were accepted |
| `Storage.NewSenderNotifiesAcceptedPayloads` | apptentive/src/main/java/com/apptentive/android/sdk/storage/PayloadSender.java:40-104 | for a new sender given a listener, under a well-behaved request sender (callbacks only while a send is outstanding and only for the outstanding request), the notified payloads followed by the outstanding one are exactly the accepted payloads, in order |
| `Storage.StaleFinishLosesPayload` | apptentive/src/main/java/com/apptentive/android/sdk/storage/PayloadSender.java:71-104 | without that assumption the order property fails: in the run send A, finish A, send B, finish A again, send C, all three sends are accepted, the listener hears of A twice, C is outstanding and B is never reported |
| `Storage.RequestsCarrySenderPolicy` | apptentive/src/main/java/com/apptentive/android/sdk/storage/PayloadSender.java:87 | every request dispatched in any run carries the retry policy the sender was built with |
| `Storage.PayloadSender.constructor` | apptentive/src/main/java/com/apptentive/android/sdk/storage/PayloadSender.java:34-35 | a new sender keeps the request sender and retry policy; it is idle, with no listener and empty logs |
| `Storage.PayloadSender.Create` | apptentive/src/main/java/com/apptentive/android/sdk/storage/PayloadSender.java:25-36 | a null request sender, then a null retry policy, throws IllegalArgumentException; otherwise a fresh idle sender |
| `Storage.PayloadSender.SendPayload` | apptentive/src/main/java/com/apptentive/android/sdk/storage/PayloadSender.java:40-66 | the new state and the result are those of `SendPayloadStep`; the result is an exception for a null payload, and otherwise true exactly when the sender was idle |
| `Storage.PayloadSender.SendPayloadRequest` | apptentive/src/main/java/com/apptentive/android/sdk/storage/PayloadSender.java:68-88 | the new state and the escaping exception are those of `SendRequest` |
| `Storage.PayloadSender.OnFinish` | apptentive/src/main/java/com/apptentive/android/sdk/storage/PayloadSender.java:73-75 | for the dispatched request at the given position, handles completion of its payload with (false, null) |
| `Storage.PayloadSender.OnCancel` | apptentive/src/main/java/com/apptentive/android/sdk/storage/PayloadSender.java:78-80 | for the dispatched request at the given position, handles completion of its payload with (true, null) |
| `Storage.PayloadSender.OnFail` | apptentive/src/main/java/com/apptentive/android/sdk/storage/PayloadSender.java:83-85 | for the dispatched request at the given position, handles completion of its payload with (false, reason) |
| `Storage.PayloadSender.HandleFinishSendingPayload` | apptentive/src/main/java/com/apptentive/android/sdk/storage/PayloadSender.java:94-104 | the new state is that of `HandleFinish`: flag cleared, then at most one notification |
| `Storage.PayloadSender.IsSendingPayload` | apptentive/src/main/java/com/apptentive/android/sdk/storage/PayloadSender.java:110-112 | returns exactly the sending flag |
| `Storage.PayloadSender.SetListener` | apptentive/src/main/java/com/apptentive/android/sdk/storage/PayloadSender.java:114-116 | only the listener changes |
| `Storage.ResendFromListener` | apptentive/src/main/java/com/apptentive/android/sdk/storage/PayloadSender.java:94-104 | onFinish of the outstanding request tells the listener (if any) about that request's payload with (false, null); sending the next payload from there is accepted, it becomes the outstanding payload, and its request carries the sender's retry policy |
| `Survey.CountChecked` | apptentive/src/main/java/com/apptentive/android/sdk/module/engagement/interaction/view/survey/MultiselectSurveyQuestionView.java:57-63 | the count lies between 0 and the number of boxes, and is 0 exactly when no box is checked |
| `Survey.CountCheckedIsMultiplicity` | apptentive/src/main/java/com/apptentive/android/sdk/module/engagement/interaction/view/survey/MultiselectSurveyQuestionView.java:57-63 | the count equals the number of `true` entries among the boxes |
| `Survey.ValidSelection` | apptentive/src/main/java/com/apptentive/android/sdk/module/engagement/interaction/view/survey/MultiselectSurveyQuestionView.java:65-67 | a required question is valid exactly when the count lies within [min, max]; an optional one also when the count is 0 |
| `Survey.IsValid` | apptentive/src/main/java/com/apptentive/android/sdk/module/engagement/interaction/view/survey/MultiselectSurveyQuestionView.java:55-68 | the one-pass loop (which only reads the boxes) returns validity of the number of checked boxes under the rule |
| `Survey.UnansweredOptionalIsValid` | apptentive/src/main/java/com/apptentive/android/sdk/module/engagement/interaction/view/survey/MultiselectSurveyQuestionView.java:66 | an optional question with no box checked is valid, whatever min and max are |
| `Survey.ValidSelectionCases` | apptentive/src/main/java/com/apptentive/android/sdk/module/engagement/interaction/view/survey/MultiselectSurveyQuestionView.java:65-67 | a count within [min, max] is valid, required or not. A required question below min is invalid. A count above max is invalid unless the question is optional and the count is 0. Nothing else is valid |

## Left out

- Thread safety. The `synchronized` methods of PayloadSender and the asynchronous delivery of HTTP callbacks are not modelled. Calls are sequential, and each callback is an explicit call.
- Callbacks made from inside a call (a request sender calling back before it returns, or a listener calling `sendPayload`) are modelled as the next call in sequence.
- The key resolvers, `KeyResolverFactory` and the contents of `EncryptionKey`. The resolver is a function parameter returning a key or an exception, and a key is an opaque handle.
- `ErrorMetrics` is a counter. `ApptentiveLog` calls and `KeyInfo.toString` are not modelled.
- SharedPreferences asynchrony (`apply`) is not modelled: writes take effect at once. Each entry type has its own map, so reading an entry stored with the other type (a `ClassCastException`) is not modelled. The store's file name is not modelled.
- `generateUniqueKeyAlias`: the UUID is a parameter. Uniqueness of random UUIDs is not proved; only that different UUIDs give different aliases.
- `Build.VERSION.SDK_INT` is an unbounded integer parameter. Java `int` width does not matter to any computation here.
- Payload internals, JSON encoding and the HTTP transport are left out. A payload is an opaque id. Any exception from logging its fields is one of the `Raised` dispatch outcomes.
- A listener exception has no effect, so it is not modelled; the notification is still recorded. The `sender` argument of `onFinishSending` is not recorded.
- No guard against duplicate or stale terminal callbacks exists in the code. `CompletesExactlyOnce`, `NotifiesAcceptedPayloadsInOrder` and `NewSenderNotifiesAcceptedPayloads` therefore assume the request sender calls back only while a send is outstanding and only for the outstanding request (`WellBehaved`). `AtMostOneInFlight` holds without that assumption, but it counts calls of handleFinishSendingPayload, not reported payloads: `StaleFinishLosesPayload` shows a stale callback letting a payload go unreported.
- The callback closure of a dispatch that threw or returned null is not modelled: a callback names a logged request, and only requests that were returned are logged. A callback naming no logged request does nothing.
- The message of a `NullPointerException` (after a null request, or a null context in `clear`) is a parameter, since the runtime chooses it; a null message leads to `"NullPointerException is thrown"`.
- Storage.PayloadSender.Create: models the Java constructor's null checks. Dafny constructors cannot fail, so this is a factory that returns a null sender together with the exception.
- MultiselectSurveyQuestionView's constructor and `onCheckedChanged` only inflate views and fire listeners; they are not modelled. SurveyInteractionView is Activity plumbing and is not modelled.
- The fallback message `"<SimpleName> is thrown"` is used only when the exception's message is null, not when it is empty, so an empty message reaches the listener as the empty string. A stored pair with a non-empty alias and a negative version code is reused, and the KeyInfo constructor's exception escapes `init`; only a failing key resolver is absorbed into `CORRUPTED`.
