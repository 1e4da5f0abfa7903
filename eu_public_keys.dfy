/**
 * The verifier's trust store for foreign (EU) public keys: the key bundle is
 * fetched on demand, and only the moment of the last successful fetch is
 * persisted. The bundle counts as fresh for one day after that moment.
 *
 * The clock becomes an explicit `nowSeconds` parameter (epoch seconds) and the
 * key repository's fetch becomes a `KeysFetch` outcome.
 */
module EuPublicKeys {
  import opened Wrappers

  /** How long a fetched key bundle stays valid: 24 * 60 * 60 seconds. */
  const ValiditySeconds: int := 24 * 60 * 60

  /** One record of the key bundle; its inner structure is not part of this model. */
  type EuPublicKey = seq<bv8>

  /** The outcomes of `EuPublicKeysRepository.getPublicKeys` that the use case
      handles: a transport failure, an HTTP error, or the key records. */
  datatype KeysFetch =
    | IoFailure
    | HttpFailure
    | Fetched(keys: seq<EuPublicKey>)

  datatype EuPublicKeysResult = Success(publicKeys: seq<EuPublicKey>) | Error

  /** The freshness rule: the keys are valid while the last fetch plus one day
      has not passed `nowSeconds`; the boundary itself is still valid. */
  predicate KeysValid(lastFetchedSeconds: int, nowSeconds: int)
  {
    lastFetchedSeconds + ValiditySeconds >= nowSeconds
  }

  /** The persisted timestamp after one retrieve attempt at `nowSeconds`. */
  function Stamp(stored: int, nowSeconds: int, fetch: KeysFetch): int
  {
    if fetch.Fetched? then nowSeconds else stored
  }

  /** The result one retrieve attempt reports. */
  function RetrieveResult(fetch: KeysFetch): (r: EuPublicKeysResult)
    ensures r.Success? <==> fetch.Fetched?
    ensures r.Success? ==> r.publicKeys == fetch.keys
  {
    match fetch
    case Fetched(keys) => Success(keys)
    case _ => Error
  }

  /** The persistence manager's view of the trust store: the only value the use
      case reads or writes is the last-fetched time in epoch seconds. */
  class VerifierPersistence {
    var euPublicKeysLastFetchedSeconds: int

    constructor (lastFetchedSeconds: int)
      ensures euPublicKeysLastFetchedSeconds == lastFetchedSeconds
    {
      euPublicKeysLastFetchedSeconds := lastFetchedSeconds;
    }
  }

  class EuPublicKeyUsecase {
    const persistence: VerifierPersistence

    constructor (persistence: VerifierPersistence)
      ensures this.persistence == persistence
    {
      this.persistence := persistence;
    }

    /** Fetches the key bundle. The timestamp is written only once the fetch has
        returned; on an IO or HTTP failure nothing is written and `Error` is
        reported. The keys themselves are handed back, not stored. */
    method RetrieveEuPublicKeys(nowSeconds: int, fetch: KeysFetch) returns (r: EuPublicKeysResult)
      modifies persistence`euPublicKeysLastFetchedSeconds
      ensures r == RetrieveResult(fetch)
      ensures persistence.euPublicKeysLastFetchedSeconds
              == Stamp(old(persistence.euPublicKeysLastFetchedSeconds), nowSeconds, fetch)
    {
      match fetch
      case Fetched(keys) =>
        r := Success(keys);
        persistence.euPublicKeysLastFetchedSeconds := nowSeconds;
      case IoFailure =>
        r := Error;
      case HttpFailure =>
        r := Error;
    }

    /** Reads the stored timestamp and the clock, and changes nothing. */
    method CheckEuPublicKeysValidity(nowSeconds: int) returns (valid: bool)
      ensures valid <==> nowSeconds - persistence.euPublicKeysLastFetchedSeconds <= ValiditySeconds
      ensures valid == KeysValid(persistence.euPublicKeysLastFetchedSeconds, nowSeconds)
    {
      valid := persistence.euPublicKeysLastFetchedSeconds + ValiditySeconds >= nowSeconds;
    }
  }

  /** The instant exactly one day after the fetch is still valid; one second
      later is not. */
  lemma ValidityBoundary(lastFetchedSeconds: int)
    ensures KeysValid(lastFetchedSeconds, lastFetchedSeconds + 86400)
    ensures !KeysValid(lastFetchedSeconds, lastFetchedSeconds + 86401)
  {
  }

  /** Once invalid, the keys stay invalid as the clock advances, until the
      timestamp changes. */
  lemma InvalidStaysInvalid(lastFetchedSeconds: int, now: int, later: int)
    requires now <= later
    requires !KeysValid(lastFetchedSeconds, now)
    ensures !KeysValid(lastFetchedSeconds, later)
  {
  }

  /** A successful retrieve followed by a validity check at the same instant
      finds the keys valid, whatever was stored before. */
  lemma ValidRightAfterSuccess(stored: int, nowSeconds: int, keys: seq<EuPublicKey>)
    ensures KeysValid(Stamp(stored, nowSeconds, Fetched(keys)), nowSeconds)
  {
  }

  /** A failed retrieve leaves validity exactly as it was, at every instant. */
  lemma FailureKeepsValidity(stored: int, nowSeconds: int, fetch: KeysFetch, t: int)
    requires !fetch.Fetched?
    ensures KeysValid(Stamp(stored, nowSeconds, fetch), t) == KeysValid(stored, t)
  {
  }

  /** One call of `RetrieveEuPublicKeys` with the clock reading and the
      repository's outcome it observed. */
  datatype Attempt = Attempt(nowSeconds: int, fetch: KeysFetch)

  /** The persisted timestamp after a sequence of retrieve attempts, in order. */
  function StoredAfter(stored: int, attempts: seq<Attempt>): int
    decreases |attempts|
  {
    if attempts == [] then stored
    else StoredAfter(Stamp(stored, attempts[0].nowSeconds, attempts[0].fetch), attempts[1..])
  }

  /** The clock reading of the last successful attempt, found from the end. */
  function LastSuccess(attempts: seq<Attempt>): (t: Option<int>)
    ensures t.None? <==> forall i :: 0 <= i < |attempts| ==> !attempts[i].fetch.Fetched?
    decreases |attempts|
  {
    if attempts == [] then None
    else if attempts[|attempts| - 1].fetch.Fetched? then Some(attempts[|attempts| - 1].nowSeconds)
    else LastSuccess(attempts[..|attempts| - 1])
  }

  lemma {:induction false} StoredAfterSnoc(stored: int, attempts: seq<Attempt>, a: Attempt)
    ensures StoredAfter(stored, attempts + [a]) == Stamp(StoredAfter(stored, attempts), a.nowSeconds, a.fetch)
    decreases |attempts|
  {
    if attempts == [] {
      assert attempts + [a] == [a];
    } else {
      assert (attempts + [a])[1..] == attempts[1..] + [a];
      StoredAfterSnoc(Stamp(stored, attempts[0].nowSeconds, attempts[0].fetch), attempts[1..], a);
    }
  }

  /** Whatever the order of failures and successes, the persisted timestamp is
      the clock reading of the last successful attempt, or the original value
      when no attempt succeeded. */
  lemma {:induction false} StoredAfterIsLastSuccess(stored: int, attempts: seq<Attempt>)
    ensures StoredAfter(stored, attempts) == (match LastSuccess(attempts) case Some(t) => t case None => stored)
    decreases |attempts|
  {
    if attempts != [] {
      var init, last := attempts[..|attempts| - 1], attempts[|attempts| - 1];
      assert attempts == init + [last];
      StoredAfterSnoc(stored, init, last);
      StoredAfterIsLastSuccess(stored, init);
    }
  }

  /** After any sequence of attempts the keys are valid for a full day after
      the last successful one; if none succeeded, validity is that of the
      timestamp stored before. */
  lemma {:induction false} ValidityAfterAttempts(stored: int, attempts: seq<Attempt>, nowSeconds: int)
    ensures LastSuccess(attempts).Some? ==>
              (KeysValid(StoredAfter(stored, attempts), nowSeconds)
               <==> nowSeconds <= LastSuccess(attempts).value + ValiditySeconds)
    ensures LastSuccess(attempts).None? ==>
              KeysValid(StoredAfter(stored, attempts), nowSeconds) == KeysValid(stored, nowSeconds)
  {
    StoredAfterIsLastSuccess(stored, attempts);
  }
}
