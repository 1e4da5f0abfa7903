/**
 * The holder's QR presentation screen. While the screen is resumed it asks
 * for a fresh QR rendering and arms a delayed callback on its handler; each
 * time that callback runs it asks for a new rendering, re-arms itself, and
 * then checks whether the credential has expired, in which case it pops the
 * screen. Pausing the screen removes the queued callback.
 *
 * Time is in epoch milliseconds and is passed in where the app reads the
 * clock. Rendering, the loading indicator, the handler and navigation are the
 * screen's collaborators: every call the screen makes on them is recorded, in
 * order, as an `Effect`.
 */
module QrCode {

  /** The build flavour with a short, fixed refresh interval. */
  const TstFlavor: string := "tst"

  /** The delay the screen arms its refresh callback with: ten seconds in the
      `tst` flavour, otherwise half the QR validity window, halved in whole
      seconds before scaling to milliseconds and never clamped from below. */
  function RefreshMillis(flavor: string, validForSeconds: nat): (ms: nat)
    ensures flavor == TstFlavor ==> ms == 10 * 1000
    ensures flavor != TstFlavor ==>
              ms % 1000 == 0 && 2 * (ms / 1000) <= validForSeconds < 2 * (ms / 1000) + 2
  {
    if flavor == TstFlavor then 10 * 1000 else (validForSeconds / 2) * 1000
  }

  /** With a validity window under two seconds the refresh delay is zero. */
  lemma NoMinimumRefresh(flavor: string, validForSeconds: nat)
    requires flavor != TstFlavor && validForSeconds < 2
    ensures RefreshMillis(flavor, validForSeconds) == 0
  {
  }

  /** The credential has expired once the clock is strictly after its
      expiration instant, given in epoch seconds. */
  predicate CredentialExpired(nowMillis: int, expirationTimeSeconds: int)
  {
    nowMillis > expirationTimeSeconds * 1000
  }

  /** At exactly the expiration instant the credential has not expired; one
      millisecond later it has. */
  lemma ExpiryBoundary(expirationTimeSeconds: int)
    ensures !CredentialExpired(expirationTimeSeconds * 1000, expirationTimeSeconds)
    ensures CredentialExpired(expirationTimeSeconds * 1000 + 1, expirationTimeSeconds)
  {
  }

  datatype GreenCardType = Domestic | Eu

  /** The screen's navigation arguments. */
  datatype QrCodeArgs = QrCodeArgs(
    cardType: GreenCardType,
    credential: seq<bv8>,
    shouldDisclose: bool,
    credentialExpirationTimeSeconds: int)

  /** One request to the view model for a QR rendering. */
  datatype RenderRequest = RenderRequest(
    cardType: GreenCardType,
    credential: seq<bv8>,
    width: int,
    height: int,
    shouldDisclose: bool)

  /** A call the screen makes on one of its collaborators. */
  datatype Effect =
    | PresentLoading(loading: bool)
    | RequestQrCode(request: RenderRequest)
    | PostDelayed(delayMillis: nat)
    | RemoveCallbacks
    | PopBackStack

  /** The number of rendering requests in an effect log. */
  function Renders(log: seq<Effect>): nat
    decreases |log|
  {
    if log == [] then 0 else (if log[0].RequestQrCode? then 1 else 0) + Renders(log[1..])
  }

  /** The number of times the screen popped itself in an effect log. */
  function Pops(log: seq<Effect>): nat
    decreases |log|
  {
    if log == [] then 0 else (if log[0].PopBackStack? then 1 else 0) + Pops(log[1..])
  }

  lemma {:induction false} CountsAppend(log: seq<Effect>, more: seq<Effect>)
    ensures Renders(log + more) == Renders(log) + Renders(more)
    ensures Pops(log + more) == Pops(log) + Pops(more)
    decreases |log|
  {
    if log == [] {
      assert log + more == more;
    } else {
      assert (log + more)[1..] == log[1..] + more;
      CountsAppend(log[1..], more);
    }
  }

  lemma CountsSnoc(log: seq<Effect>, e: Effect)
    ensures Renders(log + [e]) == Renders(log) + if e.RequestQrCode? then 1 else 0
    ensures Pops(log + [e]) == Pops(log) + if e.PopBackStack? then 1 else 0
  {
    CountsAppend(log, [e]);
    assert [e][1..] == [];
  }

  /** The abstract state of the screen: callbacks queued on its handler,
      rendering requests made, whether the loading indicator is shown, and
      how often it popped itself. */
  datatype FragmentState = FragmentState(pending: nat, renders: nat, loading: bool, pops: nat)

  /** What can happen to the screen: the lifecycle resumes or pauses it, the
      handler runs a queued callback at some instant, or QR data arrives. */
  datatype Event = Resume | Pause | Fire(nowMillis: int) | QrData

  /** One event's effect on the abstract state. `Fire` with nothing queued is
      the handler having nothing to run. */
  function Step(s: FragmentState, e: Event, expirationTimeSeconds: int): (t: FragmentState)
    ensures e.Resume? ==> t.loading && t.pending == s.pending + 1 && t.renders == s.renders + 1
    ensures e.Pause? ==> t.pending == 0 && t.renders == s.renders
    ensures e.Fire? && s.pending > 0 ==> t.pending == s.pending && t.renders == s.renders + 1
    ensures t.pops != s.pops <==>
              e.Fire? && s.pending > 0 && CredentialExpired(e.nowMillis, expirationTimeSeconds)
    ensures t.pops >= s.pops
    ensures t.loading != s.loading ==> e.Resume? || e.QrData?
  {
    match e
    case Resume => FragmentState(s.pending + 1, s.renders + 1, true, s.pops)
    case Pause => s.(pending := 0)
    case Fire(nowMillis) =>
      if s.pending == 0 then s
      else s.(renders := s.renders + 1,
              pops := s.pops + if CredentialExpired(nowMillis, expirationTimeSeconds) then 1 else 0)
    case QrData => s.(loading := false)
  }

  /** The abstract state after a sequence of events, in order. */
  function Run(s: FragmentState, events: seq<Event>, expirationTimeSeconds: int): FragmentState
    decreases |events|
  {
    if events == [] then s else Run(Step(s, events[0], expirationTimeSeconds), events[1..], expirationTimeSeconds)
  }

  /** The platform's lifecycle: resume only a paused screen, pause only a
      resumed one. Callbacks and data may arrive at any point. */
  predicate Alternating(resumed: bool, events: seq<Event>)
    decreases |events|
  {
    events == [] ||
    match events[0]
    case Resume => !resumed && Alternating(true, events[1..])
    case Pause => resumed && Alternating(false, events[1..])
    case _ => Alternating(resumed, events[1..])
  }

  /** Whether the screen is resumed after a sequence of events. */
  function ResumedAfter(resumed: bool, events: seq<Event>): bool
    decreases |events|
  {
    if events == [] then resumed
    else ResumedAfter(if events[0].Resume? then true else if events[0].Pause? then false else resumed, events[1..])
  }

  /** Under the platform's lifecycle exactly one refresh callback is queued
      while the screen is resumed, and none while it is paused. */
  lemma {:induction false} OnePendingWhileResumed(
    s: FragmentState, resumed: bool, events: seq<Event>, expirationTimeSeconds: int)
    requires s.pending == if resumed then 1 else 0
    requires Alternating(resumed, events)
    ensures Run(s, events, expirationTimeSeconds).pending == if ResumedAfter(resumed, events) then 1 else 0
    decreases |events|
  {
    if events != [] {
      var next := if events[0].Resume? then true else if events[0].Pause? then false else resumed;
      OnePendingWhileResumed(Step(s, events[0], expirationTimeSeconds), next, events[1..], expirationTimeSeconds);
    }
  }

  lemma {:induction false} AlternatingPrefix(resumed: bool, events: seq<Event>, k: nat)
    requires Alternating(resumed, events) && k <= |events|
    ensures Alternating(resumed, events[..k])
    decreases |events|
  {
    if k > 0 {
      var next := if events[0].Resume? then true else if events[0].Pause? then false else resumed;
      assert events[..k][1..] == events[1..][..k - 1];
      AlternatingPrefix(next, events[1..], k - 1);
    }
  }

  /** A screen that starts with nothing queued never has more than one
      refresh callback queued, at any point of a lifecycle-respecting run. */
  lemma AtMostOnePending(s: FragmentState, events: seq<Event>, expirationTimeSeconds: int)
    requires s.pending == 0
    requires Alternating(false, events)
    ensures forall k :: 0 <= k <= |events| ==> Run(s, events[..k], expirationTimeSeconds).pending <= 1
  {
    forall k | 0 <= k <= |events|
      ensures Run(s, events[..k], expirationTimeSeconds).pending <= 1
    {
      AlternatingPrefix(false, events, k);
      OnePendingWhileResumed(s, false, events[..k], expirationTimeSeconds);
    }
  }

  /** With nothing queued, no event short of a resume makes the screen render,
      queue a callback or pop itself. */
  lemma {:induction false} NoRenderUntilResume(s: FragmentState, events: seq<Event>, expirationTimeSeconds: int)
    requires s.pending == 0
    requires forall i :: 0 <= i < |events| ==> !events[i].Resume?
    ensures Run(s, events, expirationTimeSeconds).pending == 0
    ensures Run(s, events, expirationTimeSeconds).renders == s.renders
    ensures Run(s, events, expirationTimeSeconds).pops == s.pops
    decreases |events|
  {
    if events != [] {
      assert !events[0].Resume?;
      NoRenderUntilResume(Step(s, events[0], expirationTimeSeconds), events[1..], expirationTimeSeconds);
    }
  }

  /** The screen pops itself only from a callback that ran after the
      credential's expiration instant. */
  lemma {:induction false} PopsOnlyWhenExpired(s: FragmentState, events: seq<Event>, expirationTimeSeconds: int)
    requires forall i :: 0 <= i < |events| && events[i].Fire? ==>
               !CredentialExpired(events[i].nowMillis, expirationTimeSeconds)
    ensures Run(s, events, expirationTimeSeconds).pops == s.pops
    decreases |events|
  {
    if events != [] {
      assert events[0].Fire? ==> !CredentialExpired(events[0].nowMillis, expirationTimeSeconds);
      PopsOnlyWhenExpired(Step(s, events[0], expirationTimeSeconds), events[1..], expirationTimeSeconds);
    }
  }

  class QrCodeFragment {
    const args: QrCodeArgs
    /** The build flavour. */
    const flavor: string
    /** How long one QR rendering is valid, in seconds. */
    const validForSeconds: nat
    /** The display width; the QR is rendered square at this size. */
    const widthPixels: int

    /** Refresh callbacks queued on the screen's handler. */
    var pendingCallbacks: nat
    var loading: bool
    /** Every call made on a collaborator, oldest first. */
    var effects: seq<Effect>

    /** The rendering request every refresh makes. */
    function Request(): RenderRequest
    {
      RenderRequest(args.cardType, args.credential, widthPixels, widthPixels, args.shouldDisclose)
    }

    function RefreshDelay(): nat
    {
      RefreshMillis(flavor, validForSeconds)
    }

    /** Every rendering request is for this screen's credential at its size,
        and every callback is armed with the flavour's refresh delay. */
    ghost predicate Valid()
      reads this
    {
      forall i :: 0 <= i < |effects| ==>
        && (effects[i].RequestQrCode? ==> effects[i].request == Request())
        && (effects[i].PostDelayed? ==> effects[i].delayMillis == RefreshDelay())
    }

    ghost function State(): FragmentState
      reads this
    {
      FragmentState(pendingCallbacks, Renders(effects), loading, Pops(effects))
    }

    constructor (args: QrCodeArgs, flavor: string, validForSeconds: nat, widthPixels: int)
      ensures this.args == args && this.flavor == flavor
      ensures this.validForSeconds == validForSeconds && this.widthPixels == widthPixels
      ensures Valid() && effects == [] && State() == FragmentState(0, 0, false, 0)
    {
      this.args := args;
      this.flavor := flavor;
      this.validForSeconds := validForSeconds;
      this.widthPixels := widthPixels;
      pendingCallbacks := 0;
      loading := false;
      effects := [];
    }

    /** Asks for one rendering and arms one refresh callback. */
    method GenerateQrCode()
      requires Valid()
      modifies this
      ensures Valid()
      ensures effects == old(effects) + [RequestQrCode(Request()), PostDelayed(RefreshDelay())]
      ensures Renders(effects) == Renders(old(effects)) + 1 && Pops(effects) == Pops(old(effects))
      ensures pendingCallbacks == old(pendingCallbacks) + 1 && loading == old(loading)
    {
      CountsSnoc(effects, RequestQrCode(Request()));
      CountsSnoc(effects + [RequestQrCode(Request())], PostDelayed(RefreshDelay()));
      assert effects + [RequestQrCode(Request())] + [PostDelayed(RefreshDelay())]
          == effects + [RequestQrCode(Request()), PostDelayed(RefreshDelay())];
      effects := effects + [RequestQrCode(Request()), PostDelayed(RefreshDelay())];
      pendingCallbacks := pendingCallbacks + 1;
    }

    /** Pops the screen if the clock is strictly after the credential's expiration. */
    method CheckIfCredentialExpired(nowMillis: int)
      requires Valid()
      modifies this
      ensures Valid()
      ensures effects == old(effects) +
                if CredentialExpired(nowMillis, args.credentialExpirationTimeSeconds) then [PopBackStack] else []
      ensures Renders(effects) == Renders(old(effects))
      ensures Pops(effects) == Pops(old(effects)) +
                if CredentialExpired(nowMillis, args.credentialExpirationTimeSeconds) then 1 else 0
      ensures pendingCallbacks == old(pendingCallbacks) && loading == old(loading)
    {
      if nowMillis > args.credentialExpirationTimeSeconds * 1000 {
        CountsSnoc(effects, PopBackStack);
        effects := effects + [PopBackStack];
      }
    }

    /** Shows the loading indicator and renders at once. */
    method OnResume()
      requires Valid()
      modifies this
      ensures Valid()
      ensures effects == old(effects) + [PresentLoading(true), RequestQrCode(Request()), PostDelayed(RefreshDelay())]
      ensures State() == Step(old(State()), Resume, args.credentialExpirationTimeSeconds)
    {
      loading := true;
      CountsSnoc(effects, PresentLoading(true));
      effects := effects + [PresentLoading(true)];
      GenerateQrCode();
    }

    /** Removes every queued refresh callback. */
    method OnPause()
      requires Valid()
      modifies this
      ensures Valid()
      ensures effects == old(effects) + [RemoveCallbacks]
      ensures State() == Step(old(State()), Pause, args.credentialExpirationTimeSeconds)
    {
      pendingCallbacks := 0;
      CountsSnoc(effects, RemoveCallbacks);
      effects := effects + [RemoveCallbacks];
    }

    /** The handler runs one queued refresh callback: it renders and re-arms
        first, and only then checks for expiry. */
    method RunQrCodeRunnable(nowMillis: int)
      requires Valid() && pendingCallbacks > 0
      modifies this
      ensures Valid()
      ensures effects == old(effects) + [RequestQrCode(Request()), PostDelayed(RefreshDelay())] +
                if CredentialExpired(nowMillis, args.credentialExpirationTimeSeconds) then [PopBackStack] else []
      ensures State() == Step(old(State()), Fire(nowMillis), args.credentialExpirationTimeSeconds)
    {
      pendingCallbacks := pendingCallbacks - 1;
      GenerateQrCode();
      CheckIfCredentialExpired(nowMillis);
    }

    /** QR data arrived from the view model: the loading indicator goes away. */
    method OnQrCodeData()
      requires Valid()
      modifies this
      ensures Valid()
      ensures effects == old(effects) + [PresentLoading(false)]
      ensures State() == Step(old(State()), QrData, args.credentialExpirationTimeSeconds)
    {
      loading := false;
      CountsSnoc(effects, PresentLoading(false));
      effects := effects + [PresentLoading(false)];
    }
  }
}
