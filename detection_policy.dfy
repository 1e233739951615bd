/** When the IP detector plugin manager starts an address detection.

    The decision depends on the number of plugins, the manager's timers, the
    peer list, the node's own addresses and the current time; the clock, the
    peer list and the detector's answers are parameters here. MaybeRunSpec
    gives the decision and the new timers; the manager's MaybeRun method is
    proved to follow it, and the lemmas below state the scheduling rules it
    implements. Times are milliseconds. */
module DetectionPolicy {
  import opened Common

  const MINUTE: int := 60 * 1000
  /** After a failed attempt, wait this long before trying again. */
  const FAILED_RETRY_DELAY: int := 5 * MINUTE
  /** With a directly detected address, check at most this often. */
  const DIRECT_RECHECK_INTERVAL: int := 12 * 60 * MINUTE
  /** A peer heard from within this window counts as seen lately. */
  const RECENT_CONTACT_WINDOW: int := 24 * 60 * MINUTE
  /** A peer added longer ago than this is an old peer. */
  const OLD_PEER_AGE: int := 30 * MINUTE
  /** With no peers at all, detect at most this often. */
  const NO_PEERS_INTERVAL: int := 6 * 60 * MINUTE
  /** A suspicious condition must hold this long before it triggers. */
  const CONDITION_HOLD_TIME: int := 2 * MINUTE
  /** Window of the "recently connected" count. */
  const RECENT_PACKET_WINDOW: int := 5 * MINUTE
  /** With peers, detect at most this often. */
  const MIN_DETECT_INTERVAL: int := 60 * MINUTE

  /** A peer's address as the node knows it: the resolved address (null when
      unresolved) and whether the validity check accepts it. */
  datatype PeerAddress = PeerAddress(address: Option<Address>, valid: bool)

  /** What the decision reads of one peer. */
  datatype PeerInfo = PeerInfo(
    connected: bool,
    disabled: bool,
    lastReceivedPacketTime: int,
    addedTime: int,
    peer: Option<PeerAddress>)

  /** Everything outside the manager the decision reads: the peers, the
      number of connected peers, the node's own addresses, the detector's
      flags and the clock. */
  datatype Environment = Environment(
    peers: seq<PeerInfo>,
    connectedCount: nat,
    nodeAddresses: seq<Option<Address>>,
    directlyDetected: bool,
    maybeSymmetric: bool,
    oldAddressIsReal: bool,
    now: int)

  /** The manager's persistent scheduling state; `running` says whether a
      detection runner is active. */
  datatype Timers = Timers(
    running: bool,
    lastFailed: bool,
    lastEnded: int,
    firstUrgent: int,
    firstMaybeFake: int)

  /** The new timers and how many detections were started. */
  datatype Decision = Decision(timers: Timers, starts: nat)

  predicate SeenLastDay(p: PeerInfo, now: int)
  {
    p.connected || now - p.lastReceivedPacketTime < RECENT_CONTACT_WINDOW
  }

  /** A connected peer on a valid address that is not one of the node's own. */
  predicate IsExternalPeer(p: PeerInfo, nodeAddresses: seq<Option<Address>>, now: int)
  {
    && SeenLastDay(p, now)
    && p.peer.Some?
    && p.connected
    && p.peer.value.address.Some?
    && p.peer.value.valid
    && Some(p.peer.value.address.value) !in nodeAddresses
  }

  /** The distinct addresses of the external peers. */
  function ExternalAddresses(peers: seq<PeerInfo>, nodeAddresses: seq<Option<Address>>, now: int): set<Address>
    decreases |peers|
  {
    if peers == [] then {}
    else
      var p := peers[|peers| - 1];
      ExternalAddresses(peers[..|peers| - 1], nodeAddresses, now)
        + (if IsExternalPeer(p, nodeAddresses, now) then {p.peer.value.address.value} else {})
  }

  predicate IsOldPeer(p: PeerInfo, now: int)
  {
    SeenLastDay(p, now) && (p.addedTime <= 0 || now - p.addedTime > OLD_PEER_AGE)
  }

  predicate HasOldPeers(peers: seq<PeerInfo>, now: int)
  {
    exists i :: 0 <= i < |peers| && IsOldPeer(peers[i], now)
  }

  predicate HasEnabledPeer(peers: seq<PeerInfo>)
  {
    exists i :: 0 <= i < |peers| && !peers[i].disabled
  }

  /** The test of the "recently connected" count, with its `||`: a peer that
      is not connected counts whenever it was last heard from. */
  predicate CountedAsRecent(p: PeerInfo, now: int)
  {
    !p.connected || now - p.lastReceivedPacketTime < RECENT_PACKET_WINDOW
  }

  function RecentCount(peers: seq<PeerInfo>, now: int): nat
    decreases |peers|
  {
    if peers == [] then 0
    else RecentCount(peers[..|peers| - 1], now) + (if CountedAsRecent(peers[|peers| - 1], now) then 1 else 0)
  }

  /** No detection can start: no plugins, a runner already active, or a
      failed attempt less than five minutes ago. */
  predicate Blocked(pluginCount: nat, t: Timers, now: int)
  {
    pluginCount == 0 || t.running || (t.lastFailed && now - t.lastEnded < FAILED_RETRY_DELAY)
  }

  /** The detection started at once because the last attempt failed at least
      five minutes ago (control then carries on with the other rules). */
  function RetryStarts(pluginCount: nat, t: Timers, now: int): nat
  {
    if !Blocked(pluginCount, t, now) && t.lastFailed then 1 else 0
  }

  /** With a directly detected address, the decision stops here when the
      last check is less than 12 hours old, when more than two distinct
      external addresses are connected, or when no peer is old enough. */
  predicate DirectIPSuppresses(t: Timers, env: Environment)
  {
    env.directlyDetected &&
      (env.now - t.lastEnded < DIRECT_RECHECK_INTERVAL
       || |ExternalAddresses(env.peers, env.nodeAddresses, env.now)| > 2
       || !HasOldPeers(env.peers, env.now))
  }

  predicate MaybeUrgent(t: Timers, env: Environment)
  {
    (env.connectedCount == 0 && HasEnabledPeer(env.peers)) || (env.maybeSymmetric && t.lastEnded <= 0)
  }

  predicate MaybeFake(env: Environment)
  {
    !env.directlyDetected && 0 < env.connectedCount < 3 && RecentCount(env.peers, env.now) > 2
  }

  /** A timer that remembers when its condition began to hold: 0 while it
      does not hold, the time it was first seen holding otherwise. */
  function ArmedSince(holds: bool, since: int, now: int): int
  {
    if !holds then 0 else if since <= 0 then now else since
  }

  /** Some peer-based condition asks for a detection. */
  predicate WantsDetection(t: Timers, env: Environment)
  {
    var urgentSince := ArmedSince(MaybeUrgent(t, env), t.firstUrgent, env.now);
    var fakeSince := ArmedSince(MaybeFake(env), t.firstMaybeFake, env.now);
    || (MaybeUrgent(t, env) && (env.now - urgentSince > CONDITION_HOLD_TIME || !env.oldAddressIsReal))
    || (MaybeFake(env) && env.now - fakeSince > CONDITION_HOLD_TIME)
  }

  /** The rules for a node that has peers. */
  function PeerRules(t: Timers, env: Environment): Decision
  {
    var t' := t.(firstUrgent := ArmedSince(MaybeUrgent(t, env), t.firstUrgent, env.now),
                 firstMaybeFake := ArmedSince(MaybeFake(env), t.firstMaybeFake, env.now));
    if WantsDetection(t, env) && env.now - t.lastEnded >= MIN_DETECT_INTERVAL
    then Decision(t'.(running := true), 1)
    else Decision(t', 0)
  }

  /** The whole decision of one maybeRun call. It never touches the failure
      flag or the end time of the last attempt, and it starts at most two
      detections. */
  function MaybeRunSpec(pluginCount: nat, t: Timers, env: Environment): (d: Decision)
    ensures d.timers.lastFailed == t.lastFailed && d.timers.lastEnded == t.lastEnded
    ensures d.starts <= 2
    ensures d.timers.running == (t.running || d.starts > 0)
    ensures d.starts >= RetryStarts(pluginCount, t, env.now)
  {
    if Blocked(pluginCount, t, env.now) then Decision(t, 0)
    else
      var retry := RetryStarts(pluginCount, t, env.now);
      var t1 := t.(running := t.lastFailed);
      if DirectIPSuppresses(t, env) then Decision(t1, retry)
      else if |env.peers| == 0 then
        if env.now - t.lastEnded < NO_PEERS_INTERVAL then Decision(t1, retry)
        else Decision(t1.(running := true), retry + 1)
      else
        var d := PeerRules(t1, env);
        Decision(d.timers, retry + d.starts)
  }

  /** The decision reaches the peer-based rules. */
  predicate ReachesPeerRules(pluginCount: nat, t: Timers, env: Environment)
  {
    !Blocked(pluginCount, t, env.now) && !DirectIPSuppresses(t, env) && |env.peers| > 0
  }

  /** No plugins, an active runner, or a failure less than five minutes ago:
      nothing starts and nothing changes. */
  lemma NothingStartsWhenBlocked(pluginCount: nat, t: Timers, env: Environment)
    requires pluginCount == 0 || t.running || (t.lastFailed && env.now - t.lastEnded < FAILED_RETRY_DELAY)
    ensures MaybeRunSpec(pluginCount, t, env) == Decision(t, 0)
  {
  }

  /** A failure at least five minutes old starts a detection at once. */
  lemma FailedAttemptIsRetried(pluginCount: nat, t: Timers, env: Environment)
    requires pluginCount > 0 && !t.running && t.lastFailed
    requires env.now - t.lastEnded >= FAILED_RETRY_DELAY
    ensures MaybeRunSpec(pluginCount, t, env).starts >= 1
    ensures MaybeRunSpec(pluginCount, t, env).timers.running
  {
  }

  /** After the retry, control falls through to the other rules, so one call
      can start two detections. */
  lemma RetryCanStartTwice()
    ensures MaybeRunSpec(1, Timers(false, true, 0, 0, 0),
                         Environment([], 0, [], false, false, true, NO_PEERS_INTERVAL)).starts == 2
  {
  }

  /** With a directly detected address checked less than 12 hours ago, only
      the failure retry can start a detection, and the timers of the peer
      rules stay as they were. */
  lemma DirectIPRecentlyChecked(pluginCount: nat, t: Timers, env: Environment)
    requires env.directlyDetected && env.now - t.lastEnded < DIRECT_RECHECK_INTERVAL
    ensures MaybeRunSpec(pluginCount, t, env).starts == RetryStarts(pluginCount, t, env.now)
    ensures MaybeRunSpec(pluginCount, t, env).timers.firstUrgent == t.firstUrgent
    ensures MaybeRunSpec(pluginCount, t, env).timers.firstMaybeFake == t.firstMaybeFake
  {
  }

  /** An address is among the external addresses exactly when some external
      peer has it. */
  lemma {:induction false} ExternalAddressesMembers(peers: seq<PeerInfo>, nodeAddresses: seq<Option<Address>>, now: int, a: Address)
    ensures a in ExternalAddresses(peers, nodeAddresses, now) <==>
      exists i :: 0 <= i < |peers| && IsExternalPeer(peers[i], nodeAddresses, now) && peers[i].peer.value.address.value == a
    decreases |peers|
  {
    if peers != [] {
      var prefix := peers[..|peers| - 1];
      ExternalAddressesMembers(prefix, nodeAddresses, now, a);
      if exists i :: 0 <= i < |prefix| && IsExternalPeer(prefix[i], nodeAddresses, now) && prefix[i].peer.value.address.value == a {
        var i :| 0 <= i < |prefix| && IsExternalPeer(prefix[i], nodeAddresses, now) && prefix[i].peer.value.address.value == a;
        assert peers[i] == prefix[i];
      }
    }
  }

  /** The external addresses of a prefix of the peer list are among those of
      the whole list. */
  lemma {:induction false} ExternalAddressesGrow(peers: seq<PeerInfo>, nodeAddresses: seq<Option<Address>>, now: int, n: nat)
    requires n <= |peers|
    ensures ExternalAddresses(peers[..n], nodeAddresses, now) <= ExternalAddresses(peers, nodeAddresses, now)
    decreases |peers|
  {
    if n < |peers| {
      var prefix := peers[..|peers| - 1];
      assert prefix[..n] == peers[..n];
      ExternalAddressesGrow(prefix, nodeAddresses, now, n);
    } else {
      assert peers[..n] == peers;
    }
  }

  lemma SubsetCardinality<T>(a: set<T>, b: set<T>)
    requires a <= b
    ensures |a| <= |b|
  {
    assert b == a + (b - a);
  }

  /** With a directly detected address, three connected external peers on
      pairwise different addresses mean no detection beyond the failure
      retry. */
  lemma DirectIPWithThreeExternalPeers(pluginCount: nat, t: Timers, env: Environment, i: nat, j: nat, k: nat)
    requires env.directlyDetected
    requires i < |env.peers| && j < |env.peers| && k < |env.peers|
    requires IsExternalPeer(env.peers[i], env.nodeAddresses, env.now)
    requires IsExternalPeer(env.peers[j], env.nodeAddresses, env.now)
    requires IsExternalPeer(env.peers[k], env.nodeAddresses, env.now)
    requires env.peers[i].peer.value.address != env.peers[j].peer.value.address
    requires env.peers[j].peer.value.address != env.peers[k].peer.value.address
    requires env.peers[i].peer.value.address != env.peers[k].peer.value.address
    ensures MaybeRunSpec(pluginCount, t, env).starts == RetryStarts(pluginCount, t, env.now)
  {
    var a := env.peers[i].peer.value.address.value;
    var b := env.peers[j].peer.value.address.value;
    var c := env.peers[k].peer.value.address.value;
    var found := ExternalAddresses(env.peers, env.nodeAddresses, env.now);
    ExternalAddressesMembers(env.peers, env.nodeAddresses, env.now, a);
    ExternalAddressesMembers(env.peers, env.nodeAddresses, env.now, b);
    ExternalAddressesMembers(env.peers, env.nodeAddresses, env.now, c);
    assert |{a, b, c}| == 3;
    SubsetCardinality({a, b, c}, found);
  }

  /** With a directly detected address and no peer old enough (added more
      than 30 minutes ago, or with no recorded added time), no detection
      starts beyond the failure retry and the condition timers stay as they
      were. The code needs more than two distinct external addresses for the
      other exemption, not two. */
  lemma DirectIPWithoutOldPeers(pluginCount: nat, t: Timers, env: Environment)
    requires env.directlyDetected && !HasOldPeers(env.peers, env.now)
    ensures MaybeRunSpec(pluginCount, t, env).starts == RetryStarts(pluginCount, t, env.now)
    ensures MaybeRunSpec(pluginCount, t, env).timers.firstUrgent == t.firstUrgent
    ensures MaybeRunSpec(pluginCount, t, env).timers.firstMaybeFake == t.firstMaybeFake
  {
  }

  /** With no peers, a detection (beyond the failure retry) starts exactly
      when there is no directly detected address and the last attempt ended
      at least six hours ago. */
  lemma NoPeersRule(pluginCount: nat, t: Timers, env: Environment)
    requires |env.peers| == 0
    requires !Blocked(pluginCount, t, env.now)
    ensures MaybeRunSpec(pluginCount, t, env).starts ==
      RetryStarts(pluginCount, t, env.now)
        + (if !env.directlyDetected && env.now - t.lastEnded >= NO_PEERS_INTERVAL then 1 else 0)
  {
    assert !HasOldPeers(env.peers, env.now);
  }

  /** With peers, a detection beyond the failure retry needs the last attempt
      to have ended at least an hour ago. */
  lemma HourlyLimitWithPeers(pluginCount: nat, t: Timers, env: Environment)
    requires |env.peers| > 0
    ensures MaybeRunSpec(pluginCount, t, env).starts <=
      RetryStarts(pluginCount, t, env.now) + (if env.now - t.lastEnded >= MIN_DETECT_INTERVAL then 1 else 0)
  {
  }

  /** The two condition timers only move when the peer rules are reached;
      there, each is set to `now` when its condition first holds, kept while
      it goes on holding, and reset to 0 when it lapses. */
  lemma ConditionTimers(pluginCount: nat, t: Timers, env: Environment)
    ensures var d := MaybeRunSpec(pluginCount, t, env);
      && (!ReachesPeerRules(pluginCount, t, env) ==>
            d.timers.firstUrgent == t.firstUrgent && d.timers.firstMaybeFake == t.firstMaybeFake)
      && (ReachesPeerRules(pluginCount, t, env) ==>
            && (!MaybeUrgent(t, env) ==> d.timers.firstUrgent == 0)
            && (MaybeUrgent(t, env) && t.firstUrgent <= 0 ==> d.timers.firstUrgent == env.now)
            && (MaybeUrgent(t, env) && t.firstUrgent > 0 ==> d.timers.firstUrgent == t.firstUrgent)
            && (!MaybeFake(env) ==> d.timers.firstMaybeFake == 0)
            && (MaybeFake(env) && t.firstMaybeFake <= 0 ==> d.timers.firstMaybeFake == env.now)
            && (MaybeFake(env) && t.firstMaybeFake > 0 ==> d.timers.firstMaybeFake == t.firstMaybeFake))
  {
  }

  /** Urgency that has just appeared, with a real old address, waits: it
      starts nothing by itself. */
  lemma NewUrgencyWaits(pluginCount: nat, t: Timers, env: Environment)
    requires ReachesPeerRules(pluginCount, t, env)
    requires MaybeUrgent(t, env) && t.firstUrgent <= 0 && env.oldAddressIsReal
    requires !MaybeFake(env)
    ensures MaybeRunSpec(pluginCount, t, env).starts == RetryStarts(pluginCount, t, env.now)
  {
  }

  /** Urgency that has held for at most two minutes, with a real old
      address, still starts nothing by itself. */
  lemma UrgencyStillWaiting(pluginCount: nat, t: Timers, env: Environment)
    requires ReachesPeerRules(pluginCount, t, env)
    requires MaybeUrgent(t, env) && t.firstUrgent > 0 && env.now - t.firstUrgent <= CONDITION_HOLD_TIME
    requires env.oldAddressIsReal
    requires !MaybeFake(env)
    ensures MaybeRunSpec(pluginCount, t, env).starts == RetryStarts(pluginCount, t, env.now)
  {
  }

  /** Urgency triggers at once when the old address is not a real internet
      address, subject only to the hourly limit. */
  lemma UrgencyWithoutRealAddressDetects(pluginCount: nat, t: Timers, env: Environment)
    requires ReachesPeerRules(pluginCount, t, env)
    requires MaybeUrgent(t, env) && !env.oldAddressIsReal
    requires env.now - t.lastEnded >= MIN_DETECT_INTERVAL
    ensures MaybeRunSpec(pluginCount, t, env).starts == RetryStarts(pluginCount, t, env.now) + 1
  {
  }

  /** Urgency that has held for more than two minutes triggers, subject to
      the hourly limit. */
  lemma PersistentUrgencyDetects(pluginCount: nat, t: Timers, env: Environment)
    requires ReachesPeerRules(pluginCount, t, env)
    requires MaybeUrgent(t, env) && t.firstUrgent > 0 && env.now - t.firstUrgent > CONDITION_HOLD_TIME
    requires env.now - t.lastEnded >= MIN_DETECT_INTERVAL
    ensures MaybeRunSpec(pluginCount, t, env).starts == RetryStarts(pluginCount, t, env.now) + 1
  {
  }

  /** A suspicion of fake addresses that has just appeared starts nothing by
      itself. */
  lemma NewMaybeFakeWaits(pluginCount: nat, t: Timers, env: Environment)
    requires ReachesPeerRules(pluginCount, t, env)
    requires MaybeFake(env) && t.firstMaybeFake <= 0
    requires !MaybeUrgent(t, env)
    ensures MaybeRunSpec(pluginCount, t, env).starts == RetryStarts(pluginCount, t, env.now)
  {
  }

  /** A suspicion of fake addresses that has held for at most two minutes
      still starts nothing by itself. */
  lemma MaybeFakeStillWaiting(pluginCount: nat, t: Timers, env: Environment)
    requires ReachesPeerRules(pluginCount, t, env)
    requires MaybeFake(env) && t.firstMaybeFake > 0 && env.now - t.firstMaybeFake <= CONDITION_HOLD_TIME
    requires !MaybeUrgent(t, env)
    ensures MaybeRunSpec(pluginCount, t, env).starts == RetryStarts(pluginCount, t, env.now)
  {
  }

  /** A suspicion of fake addresses that has held for more than two minutes
      triggers, subject to the hourly limit. */
  lemma PersistentMaybeFakeDetects(pluginCount: nat, t: Timers, env: Environment)
    requires ReachesPeerRules(pluginCount, t, env)
    requires MaybeFake(env) && t.firstMaybeFake > 0 && env.now - t.firstMaybeFake > CONDITION_HOLD_TIME
    requires env.now - t.lastEnded >= MIN_DETECT_INTERVAL
    ensures MaybeRunSpec(pluginCount, t, env).starts == RetryStarts(pluginCount, t, env.now) + 1
  {
  }

  function DisconnectedCount(peers: seq<PeerInfo>): nat
    decreases |peers|
  {
    if peers == [] then 0
    else DisconnectedCount(peers[..|peers| - 1]) + (if peers[|peers| - 1].connected then 0 else 1)
  }

  /** Because of the `||`, every disconnected peer is counted as recently
      connected, however long ago it was last heard from. */
  lemma {:induction false} DisconnectedPeersAlwaysCounted(peers: seq<PeerInfo>, now: int)
    ensures RecentCount(peers, now) >= DisconnectedCount(peers)
    decreases |peers|
  {
    if peers != [] {
      DisconnectedPeersAlwaysCounted(peers[..|peers| - 1], now);
    }
  }

  /** One connected peer and two peers silent for a day raise the suspicion
      of fake addresses. */
  lemma StalePeersRaiseSuspicion(now: int)
    ensures MaybeFake(Environment(
      [PeerInfo(true, false, now, 0, None),
       PeerInfo(false, false, now - RECENT_CONTACT_WINDOW, 0, None),
       PeerInfo(false, false, now - RECENT_CONTACT_WINDOW, 0, None)],
      1, [], false, false, true, now))
  {
    var ps := [PeerInfo(true, false, now, 0, None),
               PeerInfo(false, false, now - RECENT_CONTACT_WINDOW, 0, None),
               PeerInfo(false, false, now - RECENT_CONTACT_WINDOW, 0, None)];
    assert ps[..2][..1][..0] == [];
    assert RecentCount(ps[..2][..1], now) == 1;
    assert RecentCount(ps[..2], now) == 2;
  }

  lemma HasOldPeersStep(peers: seq<PeerInfo>, i: nat, now: int)
    requires i < |peers|
    ensures HasOldPeers(peers[..i + 1], now) <==> HasOldPeers(peers[..i], now) || IsOldPeer(peers[i], now)
  {
    var longer, shorter := peers[..i + 1], peers[..i];
    if HasOldPeers(longer, now) && !IsOldPeer(peers[i], now) {
      var k :| 0 <= k < i + 1 && IsOldPeer(longer[k], now);
      assert k < i && shorter[k] == longer[k];
    }
    if HasOldPeers(shorter, now) {
      var k :| 0 <= k < i && IsOldPeer(shorter[k], now);
      assert longer[k] == shorter[k];
    }
    assert longer[i] == peers[i];
  }

  /** Whether an address is one of the node's own (the inner scan). */
  method IsOwnAddress(nodeAddresses: seq<Option<Address>>, a: Address) returns (internal: bool)
    ensures internal <==> Some(a) in nodeAddresses
  {
    internal := false;
    for j := 0 to |nodeAddresses|
      invariant !internal
      invariant Some(a) !in nodeAddresses[..j]
    {
      assert nodeAddresses[..j + 1] == nodeAddresses[..j] + [nodeAddresses[j]];
      if nodeAddresses[j] == Some(a) {
        internal := true;
        break;
      }
    }
    if !internal {
      assert nodeAddresses[..|nodeAddresses|] == nodeAddresses;
    }
  }

  /** The scan of the peer list made when the address was detected directly:
      it stops as soon as more than two distinct external addresses are seen,
      and otherwise says whether some peer is old. */
  method ScanPeers(peers: seq<PeerInfo>, nodeAddresses: seq<Option<Address>>, now: int)
    returns (tooMany: bool, hasOldPeers: bool)
    ensures tooMany <==> |ExternalAddresses(peers, nodeAddresses, now)| > 2
    ensures !tooMany ==> (hasOldPeers <==> HasOldPeers(peers, now))
  {
    var addressesConnected: set<Address> := {};
    hasOldPeers := false;
    tooMany := false;
    for i := 0 to |peers|
      invariant addressesConnected == ExternalAddresses(peers[..i], nodeAddresses, now)
      invariant |addressesConnected| <= 2
      invariant hasOldPeers <==> HasOldPeers(peers[..i], now)
    {
      assert peers[..i + 1][..i] == peers[..i];
      HasOldPeersStep(peers, i, now);
      var p := peers[i];
      if p.connected || now - p.lastReceivedPacketTime < RECENT_CONTACT_WINDOW {
        if p.peer.Some? {
          var addr := p.peer.value.address;
          if p.connected && addr.Some? && p.peer.value.valid {
            var internal := IsOwnAddress(nodeAddresses, addr.value);
            if !internal {
              addressesConnected := addressesConnected + {addr.value};
              if |addressesConnected| > 2 {
                ExternalAddressesGrow(peers, nodeAddresses, now, i + 1);
                SubsetCardinality(addressesConnected, ExternalAddresses(peers, nodeAddresses, now));
                tooMany := true;
                return;
              }
            }
          }
        }
        var l := p.addedTime;
        if l <= 0 || now - l > OLD_PEER_AGE {
          hasOldPeers := true;
        }
      }
    }
    assert peers[..|peers|] == peers;
  }

  /** Whether some peer is enabled (the scan made when nothing is connected). */
  method AnyEnabledPeer(peers: seq<PeerInfo>) returns (found: bool)
    ensures found <==> HasEnabledPeer(peers)
  {
    found := false;
    for i := 0 to |peers|
      invariant !found
      invariant forall k :: 0 <= k < i ==> peers[k].disabled
    {
      if !peers[i].disabled {
        found := true;
        break;
      }
    }
  }

  /** The "recently connected" count, `||` and all. */
  method CountRecentPeers(peers: seq<PeerInfo>, now: int) returns (count: nat)
    ensures count == RecentCount(peers, now)
  {
    count := 0;
    for i := 0 to |peers|
      invariant count == RecentCount(peers[..i], now)
    {
      assert peers[..i + 1][..i] == peers[..i];
      var p := peers[i];
      if !p.connected || now - p.lastReceivedPacketTime < RECENT_PACKET_WINDOW {
        count := count + 1;
      }
    }
    assert peers[..|peers|] == peers;
  }
}
