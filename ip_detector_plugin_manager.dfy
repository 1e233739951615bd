/** The IP detector plugin manager: the registry of detector plugins, the
    timers that decide when a detection runs, and what a finished detection
    does to them and to the connectivity alert. Starting a detection is
    modelled as marking a runner active and counting the start; the runner's
    work is the RealRun method, called with the plugins' answers. */
module IPDetectorPlugins {
  import opened Common
  import opened DetectionPolicy
  import opened DetectorResults

  /** A detector plugin, identified by reference. */
  type PluginId = nat

  /** How many entries of `s` are `d`. */
  function Occurrences(s: seq<PluginId>, d: PluginId): (n: nat)
    ensures n <= |s|
    ensures n == 0 <==> d !in s
    decreases |s|
  {
    if s == [] then 0
    else Occurrences(s[..|s| - 1], d) + (if s[|s| - 1] == d then 1 else 0)
  }

  /** `s` with every entry equal to `d` taken out, the others kept in order. */
  function Without(s: seq<PluginId>, d: PluginId): (r: seq<PluginId>)
    ensures |r| == |s| - Occurrences(s, d)
    ensures d !in r
    ensures forall x :: x != d ==> (x in r <==> x in s)
    ensures Occurrences(s, d) == 0 ==> r == s
    decreases |s|
  {
    if s == [] then []
    else
      var prefix := s[..|s| - 1];
      var last := s[|s| - 1];
      assert s == prefix + [last];
      Without(prefix, d) + (if last == d then [] else [last])
  }

  /** Filtering a prefix gives a prefix of the filtered whole. */
  lemma {:induction false} WithoutPrefix(s: seq<PluginId>, d: PluginId, n: nat)
    requires n <= |s|
    ensures Without(s[..n], d) <= Without(s, d)
    decreases |s|
  {
    if n < |s| {
      var prefix := s[..|s| - 1];
      assert prefix[..n] == s[..n];
      WithoutPrefix(prefix, d, n);
    } else {
      assert s[..n] == s;
    }
  }

  /** How many entries of `a` are `target`. */
  method CountOccurrences(a: array<PluginId>, target: PluginId) returns (count: nat)
    ensures count == Occurrences(a[..], target)
  {
    count := 0;
    for i := 0 to a.Length
      invariant count == Occurrences(a[..i], target)
    {
      assert a[..i + 1][..i] == a[..i];
      if a[i] == target {
        count := count + 1;
      }
    }
    assert a[..a.Length] == a[..];
  }

  /** A new array holding the entries of `a` other than `target`, in order,
      sized by the number of entries to drop. */
  method CopyWithout(a: array<PluginId>, target: PluginId, count: nat) returns (b: array<PluginId>)
    requires count == Occurrences(a[..], target)
    ensures fresh(b) && b[..] == Without(a[..], target)
  {
    b := new PluginId[a.Length - count];
    var x := 0;
    for i := 0 to a.Length
      invariant x == |Without(a[..i], target)| <= b.Length
      invariant b[..x] == Without(a[..i], target)
    {
      WithoutStep(a[..], target, i);
      if a[i] != target {
        ghost var kept := b[..x];
        b[x] := a[i];
        assert b[..x + 1] == kept + [a[i]];
        x := x + 1;
      }
    }
    assert a[..a.Length] == a[..];
    assert b[..] == b[..x];
  }

  /** Filtering one more entry of `s`: the filtered prefix grows by that
      entry unless it is `d`, and stays within the filtered whole. */
  lemma WithoutStep(s: seq<PluginId>, d: PluginId, i: nat)
    requires i < |s|
    ensures Without(s[..i + 1], d) == Without(s[..i], d) + (if s[i] == d then [] else [s[i]])
    ensures |Without(s[..i + 1], d)| <= |Without(s, d)|
  {
    assert s[..i + 1][..i] == s[..i];
    WithoutPrefix(s, d, i + 1);
  }

  class IPDetectorPluginManager {
    var plugins: array<PluginId>
    /** Whether a detection runner is active. */
    var runner: bool
    var lastDetectAttemptFailed: bool
    var lastDetectAttemptEndedTime: int
    var firstTimeMaybeFakePeers: int
    var firstTimeUrgent: int
    /** How many detection runners have been started so far. */
    var detectionsStarted: nat
    /** The alert the proxy alert currently shows, if any. */
    var shownAlert: Option<AlertKind>

    function TimerState(): Timers
      reads this
    {
      Timers(runner, lastDetectAttemptFailed, lastDetectAttemptEndedTime,
             firstTimeUrgent, firstTimeMaybeFakePeers)
    }

    constructor ()
      ensures fresh(plugins) && plugins.Length == 0
      ensures TimerState() == Timers(false, false, 0, 0, 0)
      ensures detectionsStarted == 0 && shownAlert == None
    {
      plugins := new PluginId[0];
      runner := false;
      lastDetectAttemptFailed := false;
      lastDetectAttemptEndedTime := 0;
      firstTimeMaybeFakePeers := 0;
      firstTimeUrgent := 0;
      detectionsStarted := 0;
      shownAlert := None;
    }

    function IsEmpty(): (r: bool)
      reads this, plugins
      ensures r <==> plugins[..] == []
    {
      plugins.Length == 0
    }

    /** Adds a plugin at the end of the registry, then runs the scheduling
        decision; a null plugin is refused with an exception. */
    method Register(d: Option<PluginId>, env: Environment) returns (r: Completion)
      modifies this
      ensures d.None? ==> (r == Threw(NullPointer) && plugins == old(plugins)
        && TimerState() == old(TimerState()) && detectionsStarted == old(detectionsStarted))
      ensures d.Some? ==> r == Normal && fresh(plugins) && plugins[..] == old(plugins[..]) + [d.value]
      ensures d.Some? ==> (
                var decision := MaybeRunSpec(old(plugins.Length) + 1, old(TimerState()), env);
                TimerState() == decision.timers && detectionsStarted == old(detectionsStarted) + decision.starts)
      ensures shownAlert == old(shownAlert)
    {
      if d.None? {
        return Threw(NullPointer);
      }
      var newPlugins := new PluginId[plugins.Length + 1];
      for i := 0 to plugins.Length
        modifies newPlugins
        invariant newPlugins[..i] == plugins[..i]
      {
        newPlugins[i] := plugins[i];
      }
      newPlugins[plugins.Length] := d.value;
      assert newPlugins[..] == newPlugins[..plugins.Length] + [d.value];
      plugins := newPlugins;
      MaybeRun(env);
      r := Normal;
    }

    /** Removes every registry entry that is `d`, keeping the others in order.
        This is the intended behaviour; RemoveAsWritten is the code as it
        stands. */
    method Remove(d: Option<PluginId>)
      modifies this
      ensures d.None? || Occurrences(old(plugins[..]), d.value) == 0 ==> plugins == old(plugins)
      ensures plugins[..] == if d.None? then old(plugins[..]) else Without(old(plugins[..]), d.value)
      ensures TimerState() == old(TimerState()) && detectionsStarted == old(detectionsStarted)
      ensures shownAlert == old(shownAlert)
    {
      if d.None? {
        return;
      }
      var count := CountOccurrences(plugins, d.value);
      if count == 0 {
        return;
      }
      plugins := CopyWithout(plugins, d.value, count);
    }

    /** The removal as the code stands: the copying loop tests the slot of the
        new, still empty array instead of the old entry, so it copies every
        entry and overruns the shorter array whenever there is something to
        remove. The registry is then left as it was. */
    method RemoveAsWritten(d: Option<PluginId>) returns (r: Completion)
      ensures r == if d.Some? && Occurrences(plugins[..], d.value) > 0
                   then Threw(ArrayIndexOutOfBounds) else Normal
    {
      var count := 0;
      if d.Some? {
        count := CountOccurrences(plugins, d.value);
      }
      if count == 0 {
        return Normal;
      }
      var newPlugins := new Option<PluginId>[plugins.Length - count](_ => None);
      var x := 0;
      var i := 0;
      while i < plugins.Length
        modifies newPlugins
        invariant 0 <= i <= newPlugins.Length && x == i
        invariant forall k :: i <= k < newPlugins.Length ==> newPlugins[k] == None
      {
        if i >= newPlugins.Length {
          return Threw(ArrayIndexOutOfBounds);
        }
        if newPlugins[i] != d {
          newPlugins[x] := Some(plugins[i]);
          x := x + 1;
        }
        i := i + 1;
      }
      // The loop always overruns before it ends, so the registry is never
      // replaced.
      assert false;
    }

    /** Marks a detection runner active. */
    method StartDetect()
      modifies this`runner, this`detectionsStarted
      ensures runner && detectionsStarted == old(detectionsStarted) + 1
    {
      runner := true;
      detectionsStarted := detectionsStarted + 1;
    }

    /** Decides whether to start a detection now, updating the condition
        timers on the way. */
    method MaybeRun(env: Environment)
      modifies this
      ensures plugins == old(plugins) && shownAlert == old(shownAlert)
      ensures TimerState() == MaybeRunSpec(plugins.Length, old(TimerState()), env).timers
      ensures detectionsStarted == old(detectionsStarted) + MaybeRunSpec(plugins.Length, old(TimerState()), env).starts
    {
      var now := env.now;
      if plugins.Length == 0 {
        return;
      }
      if runner {
        return;
      }
      if lastDetectAttemptFailed {
        if now - lastDetectAttemptEndedTime < FAILED_RETRY_DELAY {
          return;
        } else {
          StartDetect();
        }
      }
      if env.directlyDetected {
        if now - lastDetectAttemptEndedTime < DIRECT_RECHECK_INTERVAL {
          return;
        }
        var tooMany, hasOldPeers := ScanPeers(env.peers, env.nodeAddresses, now);
        if tooMany {
          return;
        }
        if !hasOldPeers {
          return;
        }
      }
      if |env.peers| == 0 {
        if now - lastDetectAttemptEndedTime < NO_PEERS_INTERVAL {
          return;
        } else {
          StartDetect();
          return;
        }
      } else {
        ApplyPeerRules(env);
      }
    }

    /** The rules for a node that has peers: the urgency and possibly-fake
        timers, then one start when either condition asks for a detection and
        the last attempt ended at least an hour ago. */
    method ApplyPeerRules(env: Environment)
      modifies this`runner, this`firstTimeUrgent, this`firstTimeMaybeFakePeers, this`detectionsStarted
      ensures TimerState() == PeerRules(old(TimerState()), env).timers
      ensures detectionsStarted == old(detectionsStarted) + PeerRules(old(TimerState()), env).starts
    {
      var detectUrgent := UpdateUrgency(env);
      var detectFake := UpdateMaybeFake(env);
      if detectUrgent || detectFake {
        if env.now - lastDetectAttemptEndedTime < MIN_DETECT_INTERVAL {
          return;
        }
        StartDetect();
      }
    }

    /** Whether the node may be unreachable (no connection but an enabled
        peer, or a suspected symmetric NAT never checked), arming or clearing
        its timer; answers whether that asks for a detection. */
    method UpdateUrgency(env: Environment) returns (detect: bool)
      modifies this`firstTimeUrgent
      ensures firstTimeUrgent == ArmedSince(MaybeUrgent(TimerState(), env), old(firstTimeUrgent), env.now)
      ensures detect <==> MaybeUrgent(TimerState(), env)
                          && (env.now - firstTimeUrgent > CONDITION_HOLD_TIME || !env.oldAddressIsReal)
    {
      var now := env.now;
      detect := false;
      var maybeUrgent := false;
      if env.connectedCount == 0 {
        maybeUrgent := AnyEnabledPeer(env.peers);
      }
      if env.maybeSymmetric && lastDetectAttemptEndedTime <= 0 {
        maybeUrgent := true;
      }
      if maybeUrgent {
        if firstTimeUrgent <= 0 {
          firstTimeUrgent := now;
        }
        if now - firstTimeUrgent > CONDITION_HOLD_TIME {
          detect := true;
        }
        if !env.oldAddressIsReal {
          detect := true;
        }
      } else {
        firstTimeUrgent := 0;
      }
    }

    /** Whether the one or two connected peers may be feeding a fake address
        (many peers seen recently), arming or clearing its timer; answers
        whether that asks for a detection. */
    method UpdateMaybeFake(env: Environment) returns (detect: bool)
      modifies this`firstTimeMaybeFakePeers
      ensures firstTimeMaybeFakePeers == ArmedSince(MaybeFake(env), old(firstTimeMaybeFakePeers), env.now)
      ensures detect <==> MaybeFake(env) && env.now - firstTimeMaybeFakePeers > CONDITION_HOLD_TIME
    {
      var now := env.now;
      detect := false;
      var maybeFake := false;
      if !env.directlyDetected {
        if 0 < env.connectedCount < 3 {
          var count := CountRecentPeers(env.peers, now);
          if count > 2 {
            maybeFake := true;
          }
        }
      }
      if maybeFake {
        if firstTimeMaybeFakePeers <= 0 {
          firstTimeMaybeFakePeers := now;
        }
        if now - firstTimeMaybeFakePeers > CONDITION_HOLD_TIME {
          detect := true;
        }
      } else {
        firstTimeMaybeFakePeers := 0;
      }
    }

    /** The end of a detection run, given each plugin's answer (`None` for a
        plugin that threw or answered null) and the time it ended. */
    method RealRun(results: seq<Option<seq<DetectedIP>>>, now: int) returns (reported: Option<seq<DetectedIP>>)
      requires |results| == plugins.Length
      modifies this
      ensures plugins == old(plugins) && detectionsStarted == old(detectionsStarted)
      ensures !runner && lastDetectAttemptEndedTime == now
      ensures firstTimeUrgent == old(firstTimeUrgent) && firstTimeMaybeFakePeers == old(firstTimeMaybeFakePeers)
      ensures var v := Flatten(results);
        && lastDetectAttemptFailed == (old(lastDetectAttemptFailed) || AttemptFailed(v))
        && reported == (if AttemptFailed(v) then None else Some(v))
        && shownAlert == (if AttemptFailed(v) || ChooseAlert(Tally(v)).None? then old(shownAlert)
                          else ChooseAlert(Tally(v)))
    {
      var v := CollectDetected(results);
      lastDetectAttemptEndedTime := now;
      var failed := IsFailedAttempt(v);
      if failed {
        lastDetectAttemptFailed := true;
        runner := false;
        return None;
      }
      var counts := CountNatTypes(v);
      var alert := ChooseAlert(counts);
      if alert.Some? {
        shownAlert := alert;
      }
      reported := Some(v);
      runner := false;
    }
  }

  /** Registering a plugin that was not yet registered and then removing it
      gives back the registry as it was. */
  lemma RemoveUndoesRegister(s: seq<PluginId>, d: PluginId)
    requires d !in s
    ensures Without(s + [d], d) == s
  {
    assert (s + [d])[..|s|] == s;
  }
}
