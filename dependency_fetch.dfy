/** The dependency-jar bookkeeping of the main-jar updater.

    A DependencyJarFetcher fetches one jar that a new build needs. It can
    complete along two paths: the primary fetch (the network engine calls
    OnSuccess or OnFailure) and update-over-mandatory (UOM), a direct request
    to a connected peer whose callback can later report success. The
    MainJarUpdater keeps the registries of fetchers, fans a UOM request out to
    them, and forwards resolved dependency sets to the update manager.

    The network engine, the UOM manager and the dependency checker are not
    part of this model: what they do to the fetcher arrives as events or
    parameters. */
module DependencyFetch {
  import opened Common

  /** The exception the fetch engine reports; its contents are opaque here. */
  datatype FetchError = FetchError(reason: string)

  /** The figures of a splitfile progress event. */
  datatype Progress = Progress(
    succeedBlocks: int,
    failedBlocks: int,
    fatallyFailedBlocks: int,
    minSuccessfulBlocks: int,
    totalBlocks: int,
    finalizedTotal: bool)

  /** An event from the fetch engine's event producer. */
  datatype ClientEvent =
    | SplitfileProgress(progress: Progress)
    | OtherClientEvent(description: string)

  /** A call made on the fetcher's callback. */
  datatype Delivery = CallbackSuccess | CallbackFailure(error: FetchError)

  /** What one dependency fetch is for: where it comes from, where it goes,
      and the length and hash a UOM request asks for. */
  datatype Descriptor = Descriptor(
    uri: string,
    filename: string,
    expectedLength: int,
    expectedHash: seq<bv8>)

  /** The observable state of one fetcher: the `fetched` flag, the callback
      calls made so far, the UOM requests issued, the last progress event kept
      and how many times the updater's temporary blob file was deleted. */
  datatype FetcherView = FetcherView(
    fetched: bool,
    delivered: seq<Delivery>,
    uomRequests: nat,
    lastProgress: Option<Progress>,
    blobDeletions: nat)

  const InitialView := FetcherView(false, [], 0, None, 0)

  /** Everything that can happen to a fetcher after it is created. */
  datatype FetcherEvent =
    | PrimarySuccess
    | PrimaryFailure(error: FetchError)
    | UomRequest
    | UomSuccess
    | Receive(event: ClientEvent)

  /** The callback call made when a callback is registered, none otherwise. */
  function Notify(hasCallback: bool, d: Delivery): (r: seq<Delivery>)
    ensures |r| <= 1 && (r != [] ==> r[0] == d)
  {
    if hasCallback then [d] else []
  }

  /** The effect of one event on a fetcher. The primary success path delivers
      without looking at `fetched`; the UOM success path checks and sets it
      first; a UOM request is only issued for an essential, unfetched jar. */
  function Step(v: FetcherView, essential: bool, hasCallback: bool, e: FetcherEvent): (r: FetcherView)
    ensures v.delivered <= r.delivered && |r.delivered| <= |v.delivered| + 1
    ensures v.fetched ==> r.fetched
    ensures r.uomRequests <= v.uomRequests + 1
  {
    match e
    case PrimarySuccess =>
      v.(delivered := v.delivered + Notify(hasCallback, CallbackSuccess), fetched := true)
    case PrimaryFailure(error) =>
      v.(delivered := v.delivered + Notify(hasCallback, CallbackFailure(error)),
         blobDeletions := v.blobDeletions + 1)
    case UomRequest =>
      if v.fetched || !essential then v else v.(uomRequests := v.uomRequests + 1)
    case UomSuccess =>
      if v.fetched then v
      else v.(fetched := true, delivered := v.delivered + Notify(hasCallback, CallbackSuccess))
    case Receive(ce) =>
      if ce.SplitfileProgress? then v.(lastProgress := Some(ce.progress)) else v
  }

  /** The events applied in order. */
  function Run(v: FetcherView, essential: bool, hasCallback: bool, es: seq<FetcherEvent>): FetcherView
    decreases |es|
  {
    if es == [] then v
    else Step(Run(v, essential, hasCallback, es[..|es| - 1]), essential, hasCallback, es[|es| - 1])
  }

  /** How many success callbacks a delivery log holds. */
  function SuccessCount(ds: seq<Delivery>): nat
    decreases |ds|
  {
    if ds == [] then 0
    else SuccessCount(ds[..|ds| - 1]) + (if ds[|ds| - 1] == CallbackSuccess then 1 else 0)
  }

  /** How many primary successes a trace holds. */
  function PrimarySuccesses(es: seq<FetcherEvent>): nat
    decreases |es|
  {
    if es == [] then 0
    else PrimarySuccesses(es[..|es| - 1]) + (if es[|es| - 1] == PrimarySuccess then 1 else 0)
  }

  /** The progress of the last splitfile progress event in a trace, or `dflt`
      when it holds none. */
  function LastSplitfileProgress(es: seq<FetcherEvent>, dflt: Option<Progress>): Option<Progress>
    decreases |es|
  {
    if es == [] then dflt
    else match es[|es| - 1]
      case Receive(SplitfileProgress(p)) => Some(p)
      case _ => LastSplitfileProgress(es[..|es| - 1], dflt)
  }

  lemma {:induction false} SuccessCountAppend(ds: seq<Delivery>, extra: seq<Delivery>)
    requires |extra| <= 1
    ensures SuccessCount(ds + extra) == SuccessCount(ds) + SuccessCount(extra)
  {
    if extra != [] {
      var last := if extra[0] == CallbackSuccess then 1 else 0;
      assert (ds + extra)[..|ds + extra| - 1] == ds;
      assert SuccessCount(ds + extra) == SuccessCount(ds) + last;
      assert extra[..0] == [];
      assert SuccessCount(extra) == SuccessCount([]) + last;
    } else {
      assert ds + extra == ds;
    }
  }

  /** Whatever happens to a fetcher, the success callback fires at most once
      more than the number of primary successes, and not at all while the
      fetcher stays unfetched. With no primary success in the trace, UOM
      successes alone deliver at most one success. */
  lemma {:induction false} SuccessDeliveryBound(v: FetcherView, essential: bool, hasCallback: bool, es: seq<FetcherEvent>)
    ensures v.fetched ==> Run(v, essential, hasCallback, es).fetched
    ensures !Run(v, essential, hasCallback, es).fetched ==>
      SuccessCount(Run(v, essential, hasCallback, es).delivered) == SuccessCount(v.delivered)
    ensures SuccessCount(Run(v, essential, hasCallback, es).delivered)
      <= SuccessCount(v.delivered) + PrimarySuccesses(es) + (if v.fetched then 0 else 1)
    decreases |es|
  {
    if es != [] {
      var prefix := es[..|es| - 1];
      var e := es[|es| - 1];
      SuccessDeliveryBound(v, essential, hasCallback, prefix);
      var w := Run(v, essential, hasCallback, prefix);
      var r := Step(w, essential, hasCallback, e);
      assert r == Run(v, essential, hasCallback, es);
      match e
      case PrimarySuccess =>
        SuccessCountAppend(w.delivered, Notify(hasCallback, CallbackSuccess));
      case PrimaryFailure(error) =>
        SuccessCountAppend(w.delivered, Notify(hasCallback, CallbackFailure(error)));
        assert SuccessCount([CallbackFailure(error)]) == 0 by {
          assert [CallbackFailure(error)][..0] == [];
        }
      case UomSuccess =>
        if !w.fetched {
          SuccessCountAppend(w.delivered, Notify(hasCallback, CallbackSuccess));
        }
      case UomRequest =>
      case Receive(_) =>
    }
  }

  /** Once a fetcher is fetched, it issues no further UOM request and only
      primary successes can still deliver a success. */
  lemma {:induction false} FetchedFetcherIgnoresUom(v: FetcherView, essential: bool, hasCallback: bool, es: seq<FetcherEvent>)
    requires v.fetched
    ensures Run(v, essential, hasCallback, es).fetched
    ensures Run(v, essential, hasCallback, es).uomRequests == v.uomRequests
    ensures SuccessCount(Run(v, essential, hasCallback, es).delivered)
      == SuccessCount(v.delivered) + (if hasCallback then PrimarySuccesses(es) else 0)
    decreases |es|
  {
    if es != [] {
      var prefix := es[..|es| - 1];
      var e := es[|es| - 1];
      FetchedFetcherIgnoresUom(v, essential, hasCallback, prefix);
      var w := Run(v, essential, hasCallback, prefix);
      match e
      case PrimarySuccess =>
        SuccessCountAppend(w.delivered, Notify(hasCallback, CallbackSuccess));
      case PrimaryFailure(error) =>
        SuccessCountAppend(w.delivered, Notify(hasCallback, CallbackFailure(error)));
        assert SuccessCount([CallbackFailure(error)]) == 0 by {
          assert [CallbackFailure(error)][..0] == [];
        }
      case UomSuccess =>
      case UomRequest =>
      case Receive(_) =>
    }
  }

  /** A non-essential fetcher never asks a peer for its jar. */
  lemma {:induction false} NonEssentialNeverAsksUom(v: FetcherView, hasCallback: bool, es: seq<FetcherEvent>)
    ensures Run(v, false, hasCallback, es).uomRequests == v.uomRequests
    decreases |es|
  {
    if es != [] {
      NonEssentialNeverAsksUom(v, hasCallback, es[..|es| - 1]);
    }
  }

  /** The progress slot holds the last splitfile progress event received;
      every other event leaves it alone. */
  lemma {:induction false} LastProgressWins(v: FetcherView, essential: bool, hasCallback: bool, es: seq<FetcherEvent>)
    ensures Run(v, essential, hasCallback, es).lastProgress == LastSplitfileProgress(es, v.lastProgress)
    decreases |es|
  {
    if es != [] {
      LastProgressWins(v, essential, hasCallback, es[..|es| - 1]);
    }
  }

  /** The primary path does not consult `fetched`: a UOM success followed by
      a primary success calls the success callback twice. */
  lemma UomThenPrimaryDeliversTwice(v: FetcherView, essential: bool)
    requires !v.fetched
    ensures Run(v, essential, true, [UomSuccess, PrimarySuccess]).delivered
      == v.delivered + [CallbackSuccess, CallbackSuccess]
  {
    var es := [UomSuccess, PrimarySuccess];
    assert es[..1] == [UomSuccess] && es[..1][..0] == [];
  }

  /** A primary failure leaves `fetched` alone, so a later UOM success still
      reports success after the failure has been reported. */
  lemma PrimaryFailureThenUomSucceeds(v: FetcherView, essential: bool, error: FetchError)
    requires !v.fetched
    ensures Run(v, essential, true, [PrimaryFailure(error), UomSuccess]).delivered
      == v.delivered + [CallbackFailure(error), CallbackSuccess]
    ensures Run(v, essential, true, [PrimaryFailure(error), UomSuccess]).fetched
  {
    var es := [PrimaryFailure(error), UomSuccess];
    assert es[..1] == [PrimaryFailure(error)] && es[..1][..0] == [];
    var w := Step(v, essential, true, PrimaryFailure(error));
    assert Run(v, essential, true, es[..1]) == w;
    assert !w.fetched && w.delivered == v.delivered + [CallbackFailure(error)];
  }

  /** One dependency jar being fetched. */
  class DependencyJarFetcher {
    const descriptor: Descriptor
    const essential: bool
    /** Whether a callback was registered (the callback may be null). */
    const hasCallback: bool

    var fetched: bool
    var delivered: seq<Delivery>
    var uomRequests: nat
    var lastProgress: Option<Progress>
    var blobDeletions: nat
    /** Whether the primary fetch was started successfully. */
    var started: bool
    /** How many times cancellation of the primary fetch was requested. */
    var cancelRequests: nat

    function View(): FetcherView
      reads this
    {
      FetcherView(fetched, delivered, uomRequests, lastProgress, blobDeletions)
    }

    constructor (descriptor: Descriptor, essential: bool, hasCallback: bool)
      ensures this.descriptor == descriptor && this.essential == essential
      ensures this.hasCallback == hasCallback
      ensures View() == InitialView && !started && cancelRequests == 0
    {
      this.descriptor := descriptor;
      this.essential := essential;
      this.hasCallback := hasCallback;
      fetched := false;
      delivered := [];
      uomRequests := 0;
      lastProgress := None;
      blobDeletions := 0;
      started := false;
      cancelRequests := 0;
    }

    /** Starts the primary fetch; `engineResult` is the exception the engine
        throws from its start, if any, which is passed on to the caller. */
    method Start(engineResult: Option<FetchError>) returns (thrown: Option<FetchError>)
      modifies this`started
      ensures thrown == engineResult
      ensures started == (old(started) || engineResult.None?)
    {
      if engineResult.None? {
        started := true;
      }
      thrown := engineResult;
    }

    method Cancel()
      modifies this`cancelRequests
      ensures cancelRequests == old(cancelRequests) + 1
    {
      cancelRequests := cancelRequests + 1;
    }

    /** The primary fetch succeeded. */
    method OnSuccess()
      requires started
      modifies this`fetched, this`delivered
      ensures View() == Step(old(View()), essential, hasCallback, PrimarySuccess)
      ensures fetched && delivered == old(delivered) + Notify(hasCallback, CallbackSuccess)
    {
      if hasCallback {
        delivered := delivered + [CallbackSuccess];
      }
      fetched := true;
    }

    /** The primary fetch failed: the failure is reported and the updater's
        temporary blob file is deleted; `fetched` is left as it was. */
    method OnFailure(error: FetchError)
      requires started
      modifies this`delivered, this`blobDeletions
      ensures View() == Step(old(View()), essential, hasCallback, PrimaryFailure(error))
      ensures fetched == old(fetched)
    {
      if hasCallback {
        delivered := delivered + [CallbackFailure(error)];
      }
      blobDeletions := blobDeletions + 1;
    }

    /** An event from the fetch engine: only splitfile progress is kept. */
    method Receive(ce: ClientEvent)
      modifies this`lastProgress
      ensures View() == Step(old(View()), essential, hasCallback, FetcherEvent.Receive(ce))
      ensures lastProgress == if ce.SplitfileProgress? then Some(ce.progress) else old(lastProgress)
    {
      if ce.SplitfileProgress? {
        lastProgress := Some(ce.progress);
      }
    }

    /** Asks the UOM manager for the jar unless it is already fetched or is
        not essential. */
    method FetchFromUom()
      modifies this`uomRequests
      ensures View() == Step(old(View()), essential, hasCallback, UomRequest)
      ensures uomRequests == old(uomRequests) + (if !fetched && essential then 1 else 0)
    {
      if fetched { return; }
      if !essential { return; }
      uomRequests := uomRequests + 1;
    }

    /** The UOM callback reports success; it only exists once a UOM request
        has been issued. */
    method OnUomSuccess()
      requires uomRequests > 0
      modifies this`fetched, this`delivered
      ensures View() == Step(old(View()), essential, hasCallback, UomSuccess)
      ensures fetched
      ensures delivered == if old(fetched) then old(delivered)
                           else old(delivered) + Notify(hasCallback, CallbackSuccess)
    {
      if fetched { return; }
      fetched := true;
      if hasCallback {
        delivered := delivered + [CallbackSuccess];
      }
    }
  }

  /** A resolved dependency set for one build, opaque beyond its build number. */
  datatype MainJarDependencies = MainJarDependencies(build: int)

  /** One call the dependency checker makes to `fetch`: what to fetch, whether
      a callback is given, whether the jar is essential, and the exception
      (if any) the engine throws when the fetch is started. */
  datatype FetchRequest = FetchRequest(
    descriptor: Descriptor,
    hasCallback: bool,
    build: int,
    essential: bool,
    startFailure: Option<FetchError>)

  /** The state of a fetcher right after `fetch` created it for `req`. */
  ghost predicate JustFetched(f: DependencyJarFetcher, req: FetchRequest, uomActive: bool)
    reads f
  {
    && f.descriptor == req.descriptor
    && f.essential == req.essential
    && f.hasCallback == req.hasCallback
    && f.started == req.startFailure.None?
    && f.cancelRequests == 0
    && f.View() == (if f.started && uomActive
                    then Step(InitialView, f.essential, f.hasCallback, UomRequest)
                    else InitialView)
  }

  /** The dependency side of the main-jar updater. */
  class MainJarUpdater {
    var fetchers: set<DependencyJarFetcher>
    var essentialFetchers: set<DependencyJarFetcher>
    /** The dependency sets handed to the update manager, in order. */
    var readyNotifications: seq<MainJarDependencies>

    /** Every registered essential fetcher is essential, and every essential
        fetcher of the current build is in the essential registry; so the UOM
        fan-out reaches exactly the essential registry's current fetchers. */
    ghost predicate Valid()
      reads this
    {
      && (forall f :: f in essentialFetchers ==> f.essential)
      && (forall f :: f in fetchers && f.essential ==> f in essentialFetchers)
    }

    constructor ()
      ensures Valid()
      ensures fetchers == {} && essentialFetchers == {} && readyNotifications == []
    {
      fetchers := {};
      essentialFetchers := {};
      readyNotifications := [];
    }

    /** Creates and registers a fetcher, starts it, and asks UOM for it at
        once when UOM is already active. */
    method Fetch(req: FetchRequest, uomActive: bool) returns (fetcher: DependencyJarFetcher, thrown: Option<FetchError>)
      requires Valid()
      modifies this
      ensures Valid()
      ensures fresh(fetcher) && JustFetched(fetcher, req, uomActive)
      ensures thrown == req.startFailure
      ensures fetchers == old(fetchers) + {fetcher}
      ensures essentialFetchers == old(essentialFetchers) + (if req.essential then {fetcher} else {})
      ensures readyNotifications == old(readyNotifications)
    {
      fetcher := new DependencyJarFetcher(req.descriptor, req.essential, req.hasCallback);
      fetchers := fetchers + {fetcher};
      if req.essential {
        essentialFetchers := essentialFetchers + {fetcher};
      }
      thrown := fetcher.Start(req.startFailure);
      if thrown.None? && uomActive {
        fetcher.FetchFromUom();
      }
    }

    /** Forgets the fetchers of the previous build (the essential registry is
        kept), lets the dependency checker issue its fetches, and passes its
        result on when it resolved the dependencies at once. */
    method ParseDependencies(requests: seq<FetchRequest>, resolved: Option<MainJarDependencies>, uomActive: bool)
      returns (created: seq<DependencyJarFetcher>)
      requires Valid()
      modifies this
      ensures Valid()
      ensures |created| == |requests|
      ensures forall i :: 0 <= i < |created| ==> fresh(created[i]) && JustFetched(created[i], requests[i], uomActive)
      ensures forall i, j :: 0 <= i < j < |created| ==> created[i] != created[j]
      ensures fetchers == set f | f in created
      ensures essentialFetchers == old(essentialFetchers) + set f | f in created && f.essential
      ensures readyNotifications == old(readyNotifications) + (if resolved.Some? then [resolved.value] else [])
    {
      fetchers := {};
      created := [];
      var i := 0;
      while i < |requests|
        invariant 0 <= i <= |requests| && |created| == i
        invariant Valid()
        invariant forall k :: 0 <= k < i ==> fresh(created[k]) && JustFetched(created[k], requests[k], uomActive)
        invariant forall k, j :: 0 <= k < j < i ==> created[k] != created[j]
        invariant fetchers == set f | f in created
        invariant essentialFetchers == old(essentialFetchers) + set f | f in created && f.essential
        invariant readyNotifications == old(readyNotifications)
      {
        var f, _ := Fetch(requests[i], uomActive);
        created := created + [f];
        i := i + 1;
      }
      if resolved.Some? {
        readyNotifications := readyNotifications + [resolved.value];
      }
    }

    /** The dependency checker reports a resolved dependency set later on. */
    method Deploy(deps: MainJarDependencies)
      modifies this`readyNotifications
      ensures readyNotifications == old(readyNotifications) + [deps]
    {
      readyNotifications := readyNotifications + [deps];
    }

    /** UOM has become available: every registered fetcher is asked to fetch
        from UOM; only the essential, unfetched ones issue a request. */
    method OnStartFetchingUom()
      requires Valid()
      modifies fetchers`uomRequests
      ensures forall f :: f in fetchers ==>
        f.View() == Step(old(f.View()), f.essential, f.hasCallback, UomRequest)
      ensures forall f :: f in fetchers ==>
        f.uomRequests == old(f.uomRequests) + (if !old(f.fetched) && f.essential then 1 else 0)
      ensures forall f :: f in fetchers && f !in essentialFetchers ==> f.uomRequests == old(f.uomRequests)
      ensures forall f :: f in fetchers && f in essentialFetchers && !old(f.fetched) ==>
        f.uomRequests == old(f.uomRequests) + 1
    {
      var snapshot := fetchers;
      var remaining := snapshot;
      while remaining != {}
        invariant remaining <= snapshot
        invariant forall f :: f in snapshot && f !in remaining ==>
          f.View() == Step(old(f.View()), f.essential, f.hasCallback, UomRequest)
        invariant forall f :: f in remaining ==> f.View() == old(f.View())
        decreases remaining
      {
        var f :| f in remaining;
        f.FetchFromUom();
        remaining := remaining - {f};
      }
    }
  }

  /** The double delivery on the objects themselves: an essential jar with a
      callback is fetched, UOM starts, the peer delivers it, and then the
      primary fetch succeeds too. */
  method FanOutThenBothSucceed(req: FetchRequest) returns (delivered: seq<Delivery>)
    requires req.essential && req.hasCallback && req.startFailure.None?
    ensures delivered == [CallbackSuccess, CallbackSuccess]
  {
    var updater := new MainJarUpdater();
    var f, _ := updater.Fetch(req, false);
    updater.OnStartFetchingUom();
    f.OnUomSuccess();
    f.OnSuccess();
    delivered := f.delivered;
  }
}
