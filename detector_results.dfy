/** What an IP detection run does with the plugins' answers: it gathers the
    detected addresses, decides whether the attempt failed, counts the NAT
    types reported and picks the one alert to show. Also the alert objects
    themselves, with their dismiss and validity flags. */
module DetectorResults {
  import opened Common

  /** The NAT type a detector plugin reports. `UnlistedNatType` stands for any
      code the classification does not name; it is ignored like
      `NotSupported`. */
  datatype NatType =
    | FullConeNat
    | FullInternet
    | NoUdp
    | NotSupported
    | RestrictedConeNat
    | PortRestrictedNat
    | SymmetricNat
    | SymmetricUdpFirewall
    | UnlistedNatType

  /** A public address together with whether the address validity check
      accepts it as a real internet address. */
  datatype CheckedAddress = CheckedAddress(address: Address, valid: bool)

  /** One answer of a detector plugin; the public address may be null. */
  datatype DetectedIP = DetectedIP(publicAddress: Option<CheckedAddress>, natType: NatType)

  /** The six alerts, one per connectivity category. */
  datatype AlertKind =
    | ConnectedAlert
    | FullConeAlert
    | RestrictedAlert
    | PortRestrictedAlert
    | SymmetricAlert
    | NoUdpAlert

  /** Position in the order open > full cone > restricted > port-restricted >
      symmetric > no UDP; a lower rank is more permissive. */
  function Rank(k: AlertKind): nat
  {
    match k
    case ConnectedAlert => 0
    case FullConeAlert => 1
    case RestrictedAlert => 2
    case PortRestrictedAlert => 3
    case SymmetricAlert => 4
    case NoUdpAlert => 5
  }

  /** The category a NAT type is counted under; none for the ignored ones. */
  function Category(t: NatType): Option<AlertKind>
  {
    match t
    case FullConeNat => Some(FullConeAlert)
    case FullInternet => Some(ConnectedAlert)
    case NoUdp => Some(NoUdpAlert)
    case NotSupported => None
    case RestrictedConeNat => Some(RestrictedAlert)
    case PortRestrictedNat => Some(PortRestrictedAlert)
    case SymmetricNat => Some(SymmetricAlert)
    case SymmetricUdpFirewall => Some(SymmetricAlert)
    case UnlistedNatType => None
  }

  /** The six counters of a detection run. */
  datatype NatCounts = NatCounts(
    open: nat,
    fullCone: nat,
    restricted: nat,
    portRestricted: nat,
    symmetric: nat,
    closed: nat)

  function CountOf(c: NatCounts, k: AlertKind): nat
  {
    match k
    case ConnectedAlert => c.open
    case FullConeAlert => c.fullCone
    case RestrictedAlert => c.restricted
    case PortRestrictedAlert => c.portRestricted
    case SymmetricAlert => c.symmetric
    case NoUdpAlert => c.closed
  }

  /** The counters after one more detected NAT type. */
  function Count(c: NatCounts, t: NatType): (r: NatCounts)
    ensures forall k :: CountOf(r, k) == CountOf(c, k) + (if Category(t) == Some(k) then 1 else 0)
  {
    match t
    case FullConeNat => c.(fullCone := c.fullCone + 1)
    case FullInternet => c.(open := c.open + 1)
    case NoUdp => c.(closed := c.closed + 1)
    case NotSupported => c
    case RestrictedConeNat => c.(restricted := c.restricted + 1)
    case PortRestrictedNat => c.(portRestricted := c.portRestricted + 1)
    case SymmetricNat => c.(symmetric := c.symmetric + 1)
    case SymmetricUdpFirewall => c.(symmetric := c.symmetric + 1)
    case UnlistedNatType => c
  }

  /** The counters over a whole list of answers. */
  function Tally(list: seq<DetectedIP>): NatCounts
    decreases |list|
  {
    if list == [] then NatCounts(0, 0, 0, 0, 0, 0)
    else Count(Tally(list[..|list| - 1]), list[|list| - 1].natType)
  }

  /** Some answer in the list is counted under category `k`. */
  ghost predicate Present(list: seq<DetectedIP>, k: AlertKind)
  {
    exists i :: 0 <= i < |list| && Category(list[i].natType) == Some(k)
  }

  /** The alert a run sets: the most permissive category that was counted at
      least once, and none when nothing was counted. */
  function ChooseAlert(c: NatCounts): (r: Option<AlertKind>)
    ensures r.None? <==> forall k :: CountOf(c, k) == 0
    ensures r.Some? ==> CountOf(c, r.value) > 0
    ensures r.Some? ==> forall k :: Rank(k) < Rank(r.value) ==> CountOf(c, k) == 0
  {
    if c.closed > 0 && c.open + c.fullCone + c.restricted + c.portRestricted + c.symmetric == 0 then
      Some(NoUdpAlert)
    else if c.symmetric > 0 && c.open + c.fullCone + c.restricted + c.portRestricted == 0 then
      Some(SymmetricAlert)
    else if c.portRestricted > 0 && c.open + c.fullCone + c.restricted == 0 then
      Some(PortRestrictedAlert)
    else if c.restricted > 0 && c.open + c.fullCone == 0 then
      Some(RestrictedAlert)
    else if c.fullCone > 0 && c.open == 0 then
      Some(FullConeAlert)
    else if c.open > 0 then
      Some(ConnectedAlert)
    else
      None
  }

  /** A category is counted exactly when some answer falls under it. */
  lemma {:induction false} TallyCountsPresent(list: seq<DetectedIP>, k: AlertKind)
    ensures CountOf(Tally(list), k) > 0 <==> Present(list, k)
    decreases |list|
  {
    if list != [] {
      var prefix := list[..|list| - 1];
      TallyCountsPresent(prefix, k);
      if Present(prefix, k) {
        var i :| 0 <= i < |prefix| && Category(prefix[i].natType) == Some(k);
        assert list[i] == prefix[i];
      }
      if Present(list, k) && !Present(prefix, k) {
        var i :| 0 <= i < |list| && Category(list[i].natType) == Some(k);
        assert i == |list| - 1;
      }
    }
  }

  /** The chosen alert is that of the most permissive category some answer
      reports: `k` is chosen iff an answer reports `k` and none reports a
      more permissive category. */
  lemma ChosenAlertIsMostPermissivePresent(list: seq<DetectedIP>, k: AlertKind)
    ensures ChooseAlert(Tally(list)) == Some(k) <==>
      Present(list, k) && forall k2 :: Rank(k2) < Rank(k) ==> !Present(list, k2)
  {
    forall k2 {
      TallyCountsPresent(list, k2);
    }
  }

  /** No alert is set exactly when every answer is of an ignored type (in
      particular when there is no answer at all). `NoUdp` is chosen only
      when no other counted category appears. */
  lemma NoAlertIffNothingCounted(list: seq<DetectedIP>)
    ensures ChooseAlert(Tally(list)).None? <==>
      forall i :: 0 <= i < |list| ==> Category(list[i].natType).None?
    ensures ChooseAlert(Tally(list)) == Some(NoUdpAlert) <==>
      Present(list, NoUdpAlert) && forall k :: k != NoUdpAlert ==> !Present(list, k)
  {
    forall k {
      TallyCountsPresent(list, k);
    }
    if !(forall i :: 0 <= i < |list| ==> Category(list[i].natType).None?) {
      var i :| 0 <= i < |list| && Category(list[i].natType).Some?;
      assert Present(list, Category(list[i].natType).value);
    }
  }

  /** Counts the NAT types of the answers as the detection run's switch does. */
  method CountNatTypes(list: seq<DetectedIP>) returns (counts: NatCounts)
    ensures counts == Tally(list)
  {
    var countOpen, countFullCone, countRestricted := 0, 0, 0;
    var countPortRestricted, countSymmetric, countClosed := 0, 0, 0;
    for i := 0 to |list|
      invariant NatCounts(countOpen, countFullCone, countRestricted,
                          countPortRestricted, countSymmetric, countClosed) == Tally(list[..i])
    {
      assert list[..i + 1][..i] == list[..i];
      match list[i].natType
      case FullConeNat => countFullCone := countFullCone + 1;
      case FullInternet => countOpen := countOpen + 1;
      case NoUdp => countClosed := countClosed + 1;
      case NotSupported =>
      case RestrictedConeNat => countRestricted := countRestricted + 1;
      case PortRestrictedNat => countPortRestricted := countPortRestricted + 1;
      case SymmetricNat => countSymmetric := countSymmetric + 1;
      case SymmetricUdpFirewall => countSymmetric := countSymmetric + 1;
      case UnlistedNatType =>
    }
    assert list[..|list|] == list;
    counts := NatCounts(countOpen, countFullCone, countRestricted,
                        countPortRestricted, countSymmetric, countClosed);
  }

  /** An answer "checks out" when its public address is present and valid. */
  predicate ChecksOut(ip: DetectedIP)
  {
    ip.publicAddress.Some? && ip.publicAddress.value.valid
  }

  /** An attempt failed when no answer checks out (so also when there is no
      answer at all). */
  predicate AttemptFailed(v: seq<DetectedIP>)
  {
    forall i :: 0 <= i < |v| ==> !ChecksOut(v[i])
  }

  /** The failure test of a detection run. */
  method IsFailedAttempt(v: seq<DetectedIP>) returns (failed: bool)
    ensures failed <==> AttemptFailed(v)
    ensures failed <==> !exists i :: 0 <= i < |v| && ChecksOut(v[i])
  {
    failed := false;
    if |v| == 0 {
      failed := true;
    } else {
      failed := true;
      for i := 0 to |v|
        invariant failed <==> forall j :: 0 <= j < i ==> !ChecksOut(v[j])
      {
        if !(v[i].publicAddress.None? || !v[i].publicAddress.value.valid) {
          failed := false;
        }
      }
    }
  }

  /** The answers of all plugins in plugin order; a plugin that threw or
      answered null (`None`) contributes nothing. */
  function Flatten(results: seq<Option<seq<DetectedIP>>>): seq<DetectedIP>
    decreases |results|
  {
    if results == [] then []
    else
      var last := results[|results| - 1];
      Flatten(results[..|results| - 1]) + (if last.Some? then last.value else [])
  }

  /** Every gathered answer comes from some plugin, and every answer of every
      plugin is gathered. */
  lemma {:induction false} FlattenMembers(results: seq<Option<seq<DetectedIP>>>, ip: DetectedIP)
    ensures ip in Flatten(results) <==>
      exists i :: 0 <= i < |results| && results[i].Some? && ip in results[i].value
    decreases |results|
  {
    if results != [] {
      var prefix := results[..|results| - 1];
      FlattenMembers(prefix, ip);
      if exists i :: 0 <= i < |prefix| && prefix[i].Some? && ip in prefix[i].value {
        var i :| 0 <= i < |prefix| && prefix[i].Some? && ip in prefix[i].value;
        assert results[i] == prefix[i];
      }
    }
  }

  /** Gathers the plugins' answers one by one, as the detection run does. */
  method CollectDetected(results: seq<Option<seq<DetectedIP>>>) returns (v: seq<DetectedIP>)
    ensures v == Flatten(results)
  {
    v := [];
    for i := 0 to |results|
      invariant v == Flatten(results[..i])
    {
      assert results[..i + 1][..i] == results[..i];
      var detected := results[i];
      if detected.Some? {
        var answers := detected.value;
        for j := 0 to |answers|
          invariant v == Flatten(results[..i]) + answers[..j]
        {
          assert answers[..j + 1] == answers[..j] + [answers[j]];
          v := v + [answers[j]];
        }
        assert answers[..|answers|] == answers;
      }
    }
    assert results[..|results|] == results;
  }

  /** The priority class an alert is shown with. */
  datatype PriorityClass = Error | Warning | Minor

  /** The alert table: no UDP and symmetric NAT are errors, a port-restricted
      NAT is a warning, the other three are minor. */
  function AlertPriority(k: AlertKind): (p: PriorityClass)
    ensures p == Error <==> Rank(k) >= Rank(SymmetricAlert)
    ensures p == Minor <==> Rank(k) <= Rank(RestrictedAlert)
  {
    match k
    case NoUdpAlert => Error
    case SymmetricAlert => Error
    case PortRestrictedAlert => Warning
    case RestrictedAlert => Minor
    case FullConeAlert => Minor
    case ConnectedAlert => Minor
  }

  /** The alerts that advise forwarding the port by hand: exactly those for a
      port-restricted NAT or worse, which are also the non-minor ones. */
  function SuggestsPortForward(k: AlertKind): (r: bool)
    ensures r <==> Rank(k) >= Rank(PortRestrictedAlert)
    ensures r <==> AlertPriority(k) != Minor
  {
    match k
    case NoUdpAlert => true
    case SymmetricAlert => true
    case PortRestrictedAlert => true
    case RestrictedAlert => false
    case FullConeAlert => false
    case ConnectedAlert => false
  }

  /** One of the six alerts. It starts valid; dismissing it makes it invalid,
      and the manager can set its validity directly. */
  class MyUserAlert {
    const kind: AlertKind
    const code: PriorityClass := AlertPriority(kind)
    const suggestPortForward: bool := SuggestsPortForward(kind)
    var isValid: bool

    constructor (kind: AlertKind)
      ensures this.kind == kind && isValid
    {
      this.kind := kind;
      isValid := true;
    }

    /** The error alerts are exactly those for a symmetric NAT or worse. */
    function GetPriorityClass(): (p: PriorityClass)
      ensures p == AlertPriority(kind)
      ensures p == Error <==> Rank(kind) >= Rank(SymmetricAlert)
    {
      code
    }

    /** Whether the alert is still shown: true until it is dismissed or
        set invalid. */
    function IsValid(): (r: bool)
      reads this
      ensures r == isValid
    {
      isValid
    }

    method SetValid(validity: bool)
      modifies this
      ensures isValid == validity
    {
      isValid := validity;
    }

    method OnDismiss()
      modifies this
      ensures !isValid
    {
      isValid := false;
    }

    /** Dismissing never unregisters the alert. */
    function ShouldUnregisterOnDismiss(): (r: bool)
      ensures !r
    {
      false
    }

    /** Only the alerts for a restricted cone NAT or better can be dismissed:
        those that advise port forwarding stay. */
    function UserCanDismiss(): (r: bool)
      ensures r <==> !suggestPortForward
      ensures r <==> Rank(kind) <= Rank(RestrictedAlert)
    {
      !suggestPortForward
    }
  }
}
