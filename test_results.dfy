/**
 * The holder's test-result use case: `testResult` turns a unique code typed by
 * the holder into the status of a remote test result, and `signTestResult`
 * submits a fetched result for issuance. Both are case mappings from the
 * collaborators' outcomes onto one result variant; no state carries over
 * between calls.
 *
 * The provider lookup and the provider fetch are function-typed parameters, so
 * that "whatever the collaborators return" is a universal statement. The
 * secret key, commitment message and credential creation are opaque: the
 * issuance backend's answer is a `TestIsmOutcome`, and turning a signed body
 * into a credential is the `createCredential` parameter.
 */
module TestResults {
  import opened Wrappers

  datatype RemoteTestProvider = RemoteTestProvider(
    name: string,
    providerIdentifier: string,
    resultUrl: string,
    publicKey: seq<bv8>)

  datatype RemoteStatus = StatusComplete | StatusPending | StatusVerificationRequired | StatusInvalidToken

  datatype Holder = Holder(firstNameInitial: string, lastNameInitial: string, birthDay: string, birthMonth: string)

  datatype TestOutcome = TestOutcome(
    unique: string,
    sampleDateSeconds: int,
    testType: string,
    negativeResult: bool,
    holder: Holder)

  datatype RemoteTestResult = RemoteTestResult(
    result: Option<TestOutcome>,
    providerIdentifier: string,
    status: RemoteStatus,
    protocolVersion: string)

  /** A remote test result together with the raw signed response it came from. */
  datatype SignedRemoteTestResult = SignedRemoteTestResult(rawResponse: seq<bv8>, model: RemoteTestResult)

  /** What the provider's result endpoint does for one token. */
  datatype ResultFetch =
    | FetchIoFailure
    | FetchHttpFailure
    | Fetched(signed: SignedRemoteTestResult)

  datatype TestResult =
    | Complete(remoteTestResult: SignedRemoteTestResult)
    | Pending
    | VerificationRequired
    | InvalidToken
    | ServerError
    | NetworkError

  /** The separator between the provider identifier and the token. */
  const Separator: char := '-'

  /** The position of the first separator in `code`, or `|code|` if there is none. */
  function FirstSeparator(code: string): (i: nat)
    ensures i <= |code|
    ensures forall j :: 0 <= j < i ==> code[j] != Separator
    ensures i < |code| ==> code[i] == Separator
    ensures i == |code| <==> Separator !in code
  {
    if code == [] then 0
    else if code[0] == Separator then 0
    else 1 + FirstSeparator(code[1..])
  }

  /** Splits a unique code into its provider identifier and its token. Only
      codes with exactly one separator are pinned down by `TestResultUseCaseTest`; for a
      code with several, this model splits at the first. */
  function SplitUniqueCode(code: string): (r: Option<(string, string)>)
    ensures r.None? <==> Separator !in code
    ensures r.Some? ==> code == r.value.0 + [Separator] + r.value.1 && Separator !in r.value.0
  {
    var i := FirstSeparator(code);
    if i == |code| then None
    else
      assert code == code[..i] + [Separator] + code[i + 1..];
      Some((code[..i], code[i + 1..]))
  }

  lemma SplitSingleSeparator(provider: string, token: string)
    requires Separator !in provider && Separator !in token
    ensures SplitUniqueCode(provider + [Separator] + token) == Some((provider, token))
  {
    var code := provider + [Separator] + token;
    assert code[|provider|] == Separator;
    assert forall j :: 0 <= j < |provider| ==> code[j] == provider[j];
    var i := FirstSeparator(code);
    assert i == |provider|;
    assert code[..i] == provider;
    assert code[i + 1..] == token;
  }

  /** The remote status, read as a use-case result. */
  function StatusResult(signed: SignedRemoteTestResult): (r: TestResult)
    ensures r.Complete? <==> signed.model.status == StatusComplete
    ensures r.Complete? ==> r.remoteTestResult == signed
    ensures r.Pending? <==> signed.model.status == StatusPending
    ensures r.VerificationRequired? <==> signed.model.status == StatusVerificationRequired
    ensures r.InvalidToken? <==> signed.model.status == StatusInvalidToken
  {
    match signed.model.status
    case StatusComplete => TestResult.Complete(signed)
    case StatusPending => Pending
    case StatusVerificationRequired => VerificationRequired
    case StatusInvalidToken => InvalidToken
  }

  /** `testResult(uniqueCode)`: no separator or no matching provider is an
      invalid token and the provider is never asked; otherwise the fetch's
      failure kind or the remote status decides the result. */
  function GetTestResult(
    uniqueCode: string,
    lookup: string -> Option<RemoteTestProvider>,
    fetch: (RemoteTestProvider, string) -> ResultFetch): (r: TestResult)
    ensures r.NetworkError? || r.ServerError? || r.Pending? || r.VerificationRequired? || r.Complete?
            ==> Separator in uniqueCode && lookup(SplitUniqueCode(uniqueCode).value.0).Some?
    ensures r.Complete? ==> r.remoteTestResult.model.status == StatusComplete
  {
    match SplitUniqueCode(uniqueCode)
    case None => InvalidToken
    case Some((providerIdentifier, token)) =>
      match lookup(providerIdentifier)
      case None => InvalidToken
      case Some(provider) =>
        match fetch(provider, token)
        case FetchIoFailure => TestResult.NetworkError
        case FetchHttpFailure => TestResult.ServerError
        case Fetched(signed) => StatusResult(signed)
  }

  /** A code without a separator is an invalid token, whatever the
      collaborators would have returned. */
  lemma NoSeparatorIsInvalidToken(
    uniqueCode: string,
    lookup: string -> Option<RemoteTestProvider>,
    fetch: (RemoteTestProvider, string) -> ResultFetch)
    requires Separator !in uniqueCode
    ensures GetTestResult(uniqueCode, lookup, fetch) == InvalidToken
  {
  }

  /** `provider-code` with an unknown provider is an invalid token, whatever
      the provider fetch would have returned. */
  lemma UnknownProviderIsInvalidToken(
    provider: string, token: string,
    lookup: string -> Option<RemoteTestProvider>,
    fetch: (RemoteTestProvider, string) -> ResultFetch)
    requires Separator !in provider && Separator !in token
    requires lookup(provider).None?
    ensures GetTestResult(provider + [Separator] + token, lookup, fetch) == InvalidToken
  {
    SplitSingleSeparator(provider, token);
  }

  /** With a matched provider, the fetch for the code's token decides: a
      transport failure is a network error, an HTTP failure a server error, and
      a fetched result maps its remote status one-to-one. */
  lemma MatchedProviderOutcome(
    provider: string, token: string,
    lookup: string -> Option<RemoteTestProvider>,
    fetch: (RemoteTestProvider, string) -> ResultFetch)
    requires Separator !in provider && Separator !in token
    requires lookup(provider).Some?
    ensures var r := GetTestResult(provider + [Separator] + token, lookup, fetch);
            var f := fetch(lookup(provider).value, token);
            && (f.FetchIoFailure? ==> r == TestResult.NetworkError)
            && (f.FetchHttpFailure? ==> r == TestResult.ServerError)
            && (f.Fetched? && f.signed.model.status == StatusComplete ==> r == TestResult.Complete(f.signed))
            && (f.Fetched? && f.signed.model.status == StatusPending ==> r == Pending)
            && (f.Fetched? && f.signed.model.status == StatusVerificationRequired ==> r == VerificationRequired)
            && (f.Fetched? && f.signed.model.status == StatusInvalidToken ==> r == InvalidToken)
  {
    SplitSingleSeparator(provider, token);
  }

  /** The code the issuance backend uses for "already signed for this token".
      Its value is not part of this model; `TestResultUseCaseTest` shows only that
      it differs from 0. */
  type AlreadySignedCode = c: int | c != 0 witness 1

  const CodeAlreadySigned: AlreadySignedCode

  datatype ResponseError = ResponseError(status: string, code: int)

  /** What the issuance backend does with one signing request: fail on the
      transport, throw an HTTP error, return a structured error, or return the
      signed body. */
  datatype TestIsmOutcome =
    | IsmIoFailure
    | IsmHttpFailure
    | IsmError(responseError: ResponseError)
    | IsmSuccess(body: string)

  /** The materialised credential; its content is not part of this model. */
  type Credential = seq<bv8>

  datatype SignedTestResult =
    | Complete(credential: Credential)
    | AlreadySigned
    | ServerError
    | NetworkError

  /** `signTestResult`: only a structured error carrying the already-signed
      code is `AlreadySigned`; a thrown HTTP error or any other code is a
      server error, a transport failure a network error, and a signed body
      becomes a credential. */
  function SignTestResult(outcome: TestIsmOutcome, createCredential: string -> Credential): (r: SignedTestResult)
    ensures r.AlreadySigned? <==> outcome.IsmError? && outcome.responseError.code == CodeAlreadySigned
    ensures r.ServerError? <==>
              outcome.IsmHttpFailure? || (outcome.IsmError? && outcome.responseError.code != CodeAlreadySigned)
    ensures r.NetworkError? <==> outcome.IsmIoFailure?
    ensures r.Complete? <==> outcome.IsmSuccess?
    ensures r.Complete? ==> r.credential == createCredential(outcome.body)
  {
    match outcome
    case IsmIoFailure => SignedTestResult.NetworkError
    case IsmHttpFailure => SignedTestResult.ServerError
    case IsmError(responseError) =>
      if responseError.code == CodeAlreadySigned then AlreadySigned else SignedTestResult.ServerError
    case IsmSuccess(body) => SignedTestResult.Complete(createCredential(body))
  }

  /** The structured error with code 0 is a server error, not already signed. */
  lemma ErrorCodeZeroIsServerError(status: string, createCredential: string -> Credential)
    ensures SignTestResult(IsmError(ResponseError(status, 0)), createCredential) == SignedTestResult.ServerError
  {
  }

  /** A thrown HTTP error never reads as already signed. */
  lemma HttpFailureNeverAlreadySigned(createCredential: string -> Credential)
    ensures SignTestResult(IsmHttpFailure, createCredential) == SignedTestResult.ServerError
  {
  }
}
