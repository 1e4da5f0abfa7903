# CoronaCheck core: trust-store freshness, test-result outcomes, QR refresh

A Dafny model of three small pieces of the CoronaCheck Android apps.

- **EU public-key freshness** (verifier). `EuPublicKeyUsecaseImpl` fetches the bundle of foreign public
  keys and persists only the moment of the last successful fetch. The keys count as valid while that
  moment plus 24·60·60 seconds is not before the current clock reading. Module `EuPublicKeys`
  (`eu_public_keys.dfy`) has a class `VerifierPersistence`, which holds the persisted timestamp. The class
  `EuPublicKeyUsecase` has `RetrieveEuPublicKeys` and `CheckEuPublicKeysValidity`. The clock is an explicit
  `nowSeconds` argument and the repository's answer is a `KeysFetch` outcome. Pure functions `Stamp` and
  `StoredAfter` describe the persisted timestamp across any sequence of retrieve attempts.
- **Test-result outcomes** (holder). `TestResultUseCase.testResult` turns a unique code `provider-token`
  into a `TestResult`. `signTestResult` turns the issuance backend's answer into a `SignedTestResult`.
  Module `TestResults` (`test_results.dfy`) models both as total functions. The provider lookup and the
  provider fetch are function-typed parameters, so "whatever the collaborators return" is a universal
  statement. The behaviour modelled is the one fixed by every test in
  `holder/src/test/java/nl/rijksoverheid/ctr/holder/usecase/TestResultUseCaseTest.kt`. The use case's
  own implementation file is not part of this model.
- **QR refresh and expiry** (holder). `QrCodeFragment` shows the loading indicator on resume and requests
  a rendering. It then arms a delayed callback on its handler. Each run of the callback renders, re-arms
  and then checks expiry, popping the screen when the clock is strictly after the credential's
  expiration. Pausing removes the queued callback. Module `QrCode` (`qr_code.dfy`) has a class
  `QrCodeFragment` with the handler's queued-callback count, the loading flag and an ordered log of every
  call the screen makes on the renderer, the loading indicator, the handler and navigation (`Effect`). `State()` abstracts the class to a pure
  `FragmentState`. Each lifecycle method is proved equal to one `Step` of that state. Lemmas over event
  sequences (`Run`) prove the lifecycle properties.

`wrappers.dfy` holds the `Option` type.

Behaviour a reader might not expect, which the model follows as written:

- The refresh delay has no minimum: it is `(VALID_FOR_SECONDS / 2) * 1000`, or 10 000 ms in the `tst`
  flavour.
- The credential expires only when the clock is strictly after the expiration instant. At the instant
  itself it has not expired.
- A callback run re-renders and re-arms before it checks expiry. After the screen pops itself, one
  callback stays queued until the platform pauses the screen.

## Model

| member | source | states |
|---|---|---|
| `EuPublicKeys.EuPublicKeyUsecase.RetrieveEuPublicKeys` | verifier/src/main/java/nl/rijksoverheid/ctr/verifier/eu/usecases/EuPublicKeyUsecase.kt:31-46 | Only the last-fetched timestamp may change. A successful fetch returns `Success` with exactly the fetched keys and stamps the clock reading. An IO or HTTP failure returns `Error` and leaves the timestamp as it was. |
| `EuPublicKeys.RetrieveResult` | verifier/src/main/java/nl/rijksoverheid/ctr/verifier/eu/usecases/EuPublicKeyUsecase.kt:33-45 | The result is `Success` iff the fetch returned keys, and it then carries exactly those keys. |
| `EuPublicKeys.EuPublicKeyUsecase.CheckEuPublicKeysValidity` | verifier/src/main/java/nl/rijksoverheid/ctr/verifier/eu/usecases/EuPublicKeyUsecase.kt:49-53 | Changes nothing. Returns true iff at most 86 400 seconds have elapsed since the stored fetch time. |
| `EuPublicKeys.ValidityBoundary` | verifier/src/main/java/nl/rijksoverheid/ctr/verifier/eu/usecases/EuPublicKeyUsecase.kt:50-52 | The boundary is inclusive: valid exactly one day after the fetch, invalid one second later. |
| `EuPublicKeys.InvalidStaysInvalid` | verifier/src/main/java/nl/rijksoverheid/ctr/verifier/eu/usecases/EuPublicKeyUsecase.kt:50-52 | With the timestamp unchanged, keys that are invalid at one instant are invalid at every later one. |
| `EuPublicKeys.ValidRightAfterSuccess` | verifier/src/main/java/nl/rijksoverheid/ctr/verifier/eu/usecases/EuPublicKeyUsecase.kt:37-39 | A successful retrieve followed by a check at the same instant finds the keys valid. |
| `EuPublicKeys.FailureKeepsValidity` | verifier/src/main/java/nl/rijksoverheid/ctr/verifier/eu/usecases/EuPublicKeyUsecase.kt:41-45 | A failed retrieve leaves validity unchanged at every instant. |
| `EuPublicKeys.StoredAfterIsLastSuccess` | verifier/src/main/java/nl/rijksoverheid/ctr/verifier/eu/usecases/EuPublicKeyUsecase.kt:33-45 | After any sequence of attempts, the stored timestamp is the clock reading of the last successful attempt. If none succeeded, it is the original value. |
| `EuPublicKeys.ValidityAfterAttempts` | verifier/src/main/java/nl/rijksoverheid/ctr/verifier/eu/usecases/EuPublicKeyUsecase.kt:33-53 | After any sequence of attempts, the keys are valid exactly up to one day after the last success. If every attempt failed, validity is that of the earlier timestamp. |
| `TestResults.SplitUniqueCode` | holder/src/test/java/nl/rijksoverheid/ctr/holder/usecase/TestResultUseCaseTest.kt:35-50 | A code splits iff it contains `-`. The parts rejoin around the separator to the code, and the provider part has no `-`. |
| `TestResults.SplitSingleSeparator` | holder/src/test/java/nl/rijksoverheid/ctr/holder/usecase/TestResultUseCaseTest.kt:50 | `provider-code` with a single dash splits into exactly `provider` and `code`. |
| `TestResults.StatusResult` | holder/src/test/java/nl/rijksoverheid/ctr/holder/usecase/TestResultUseCaseTest.kt:54-123 | Maps each remote status one-to-one: `COMPLETE` gives `Complete` with the fetched result, `PENDING` gives `Pending`, `VERIFICATION_REQUIRED` gives `VerificationRequired` and `INVALID_TOKEN` gives `InvalidToken`. |
| `TestResults.GetTestResult` | holder/src/test/java/nl/rijksoverheid/ctr/holder/usecase/TestResultUseCaseTest.kt:24-205 | Any result other than `InvalidToken` needs a separator and a matched provider. `Complete` only carries a result whose status is `COMPLETE`. |
| `TestResults.NoSeparatorIsInvalidToken` | holder/src/test/java/nl/rijksoverheid/ctr/holder/usecase/TestResultUseCaseTest.kt:24-37 | A code without `-` gives `InvalidToken` whatever the lookup and the fetch would return. |
| `TestResults.UnknownProviderIsInvalidToken` | holder/src/test/java/nl/rijksoverheid/ctr/holder/usecase/TestResultUseCaseTest.kt:39-52 | `provider-code` with no matching provider gives `InvalidToken` whatever the fetch would return. |
| `TestResults.MatchedProviderOutcome` | holder/src/test/java/nl/rijksoverheid/ctr/holder/usecase/TestResultUseCaseTest.kt:54-205 | With a matched provider, the fetch for the token decides. An IO failure gives `NetworkError` and an HTTP failure gives `ServerError`. Each remote status maps to its own result. |
| `TestResults.SignTestResult` | holder/src/test/java/nl/rijksoverheid/ctr/holder/usecase/TestResultUseCaseTest.kt:207-337 | `AlreadySigned` iff a returned error carries `CODE_ALREADY_SIGNED`. `ServerError` iff HTTP failure or another error code. `NetworkError` iff IO failure. `Complete` iff success, with the credential made from the signed body. |
| `TestResults.ErrorCodeZeroIsServerError` | holder/src/test/java/nl/rijksoverheid/ctr/holder/usecase/TestResultUseCaseTest.kt:258-285 | A returned error with code 0 gives `ServerError`. |
| `TestResults.HttpFailureNeverAlreadySigned` | holder/src/test/java/nl/rijksoverheid/ctr/holder/usecase/TestResultUseCaseTest.kt:287-313 | A thrown HTTP error gives `ServerError`, never `AlreadySigned`. |
| `QrCode.RefreshMillis` | holder/src/main/java/nl/rijksoverheid/ctr/holder/ui/myoverview/QrCodeFragment.kt:169-170 | 10 000 ms in the `tst` flavour. Otherwise a whole number of seconds equal to half the validity window rounded down. |
| `QrCode.NoMinimumRefresh` | holder/src/main/java/nl/rijksoverheid/ctr/holder/ui/myoverview/QrCodeFragment.kt:170 | There is no lower clamp: a validity window under two seconds gives a zero delay. |
| `QrCode.ExpiryBoundary` | holder/src/main/java/nl/rijksoverheid/ctr/holder/ui/myoverview/QrCodeFragment.kt:178-186 | At exactly the expiration instant the credential has not expired. One millisecond later it has. |
| `QrCode.Step` | holder/src/main/java/nl/rijksoverheid/ctr/holder/ui/myoverview/QrCodeFragment.kt:49-196 | Resume renders, arms one callback and shows loading. Pause clears the queue without rendering. A callback run renders and keeps one armed. The pop count changes iff a callback runs after expiry, and it never decreases. Loading changes only on resume or on data arrival. |
| `QrCode.OnePendingWhileResumed` | holder/src/main/java/nl/rijksoverheid/ctr/holder/ui/myoverview/QrCodeFragment.kt:188-196 | Under alternating resume and pause, exactly one callback is queued while resumed and none while paused. |
| `QrCode.AtMostOnePending` | holder/src/main/java/nl/rijksoverheid/ctr/holder/ui/myoverview/QrCodeFragment.kt:49-52 | From an empty queue, at every point of an alternating resume/pause run at most one refresh callback is queued. |
| `QrCode.NoRenderUntilResume` | holder/src/main/java/nl/rijksoverheid/ctr/holder/ui/myoverview/QrCodeFragment.kt:194-196 | With nothing queued, as after a pause, no event short of a resume renders, queues a callback or pops the screen. |
| `QrCode.PopsOnlyWhenExpired` | holder/src/main/java/nl/rijksoverheid/ctr/holder/ui/myoverview/QrCodeFragment.kt:183-185 | If every callback runs at or before the expiration instant, the screen never pops itself. |
| `QrCode.QrCodeFragment.GenerateQrCode` | holder/src/main/java/nl/rijksoverheid/ctr/holder/ui/myoverview/QrCodeFragment.kt:162-172 | Logs exactly one render request for the screen's credential at its width and height. Then logs one callback armed with the flavour's delay. |
| `QrCode.QrCodeFragment.CheckIfCredentialExpired` | holder/src/main/java/nl/rijksoverheid/ctr/holder/ui/myoverview/QrCodeFragment.kt:178-186 | Logs one pop iff the clock is strictly after the expiration, and nothing otherwise. |
| `QrCode.QrCodeFragment.OnResume` | holder/src/main/java/nl/rijksoverheid/ctr/holder/ui/myoverview/QrCodeFragment.kt:188-192 | Shows loading, then renders and arms one callback, in that order. The new state is `Step(Resume)` of the old. |
| `QrCode.QrCodeFragment.OnPause` | holder/src/main/java/nl/rijksoverheid/ctr/holder/ui/myoverview/QrCodeFragment.kt:194-196 | Removes every queued callback. The new state is `Step(Pause)` of the old. |
| `QrCode.QrCodeFragment.RunQrCodeRunnable` | holder/src/main/java/nl/rijksoverheid/ctr/holder/ui/myoverview/QrCodeFragment.kt:49-52 | Renders and re-arms before checking expiry, then pops iff expired. The queue length is unchanged. The new state is `Step(Fire(now))` of the old. |
| `QrCode.QrCodeFragment.OnQrCodeData` | holder/src/main/java/nl/rijksoverheid/ctr/holder/ui/myoverview/QrCodeFragment.kt:77-80 | Data arrival hides the loading indicator and changes nothing else. |

## Left out

- The test-result use case's implementation is not part of this model. Its behaviour comes from the
  assertions of the test file.
- `TestResults.SplitUniqueCode`: only codes with exactly one `-` are pinned down. For a code with several
  dashes the model splits at the first one, and no lemma depends on that choice.
- `TestResults.SignTestResult`: a thrown HTTP error carries no body in the model and always gives
  `ServerError`. `TestResultUseCaseTest` covers only a thrown HTTP error with an empty body. A structured error
  code reaches the use case as a returned `TestIsmResult.Error`, modelled as `IsmError`.
- The value of `CODE_ALREADY_SIGNED` is not part of this model. `CodeAlreadySigned` is a constant of
  unknown value that differs from 0, as the tests require.
- Secret-key generation, commitment messages and credential creation are opaque. Materialising a
  credential is the `createCredential` parameter. The secret and the commitment do not appear.
- Personal-details formatting, and the fields of the remote result beyond status and identity, carry no
  behaviour here.
- `EuPublicKeys.EuPublicKeyUsecase.CheckEuPublicKeysValidity`: does not model 64-bit overflow of the stored
  seconds plus one day. The persistence manager is not part of this model. Its default timestamp
  is the constructor argument of `VerifierPersistence`.
- `EuPublicKeys.EuPublicKeyUsecase.RetrieveEuPublicKeys`: only IO and HTTP failures are caught. Any other
  exception from the repository, such as a response-parsing error, reaches the caller with the timestamp
  unwritten. `KeysFetch` has no such outcome, so the modelled retrieve always returns.
- `QrCode.RefreshMillis`: does not model integer overflow of `(VALID_FOR_SECONDS / 2) * 1000`. The
  value of `VALID_FOR_SECONDS` is not part of this model, so it is a parameter.
- `QrCode.QrCodeFragment.RunQrCodeRunnable`: the clock has millisecond granularity. The Kotlin code compares
  instants at nanosecond precision, so an instant less than a millisecond after the expiration counts as
  expired there but not here.
- Handler timing: a queued callback may run at any `Fire` event. The model records the delay each
  callback was armed with but does not check that the delay elapsed.
- Threading is not modelled: `Dispatchers.IO`, coroutines, the main looper, and `LiveData` delivery.
  QR data arrival is an independent event (`OnQrCodeData`) and is not matched to a particular render
  request.
- The QR screen's toolbar menu, info-screen navigation, brightness, `FLAG_SECURE`, orientation,
  accessibility focus and bitmap rendering are UI only.
- Teardown (`onDestroyView`) is left out. It also hides the loading indicator, and the model does not
  reset `loading` there.
- Dependency wiring, the drawer and window-insets handling, and the event view model carry no logic of
  their own.
