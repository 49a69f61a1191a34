/**
 * The supervision loop of the device manager (main.go, after discovery). Whenever a restart
 * is pending it stops the plugins recorded in the descriptor list, then creates and serves a
 * fresh plugin for every descriptor; when the batch's error is nil it waits for one event:
 * the kubelet's socket being created or a SIGHUP asks for a restart, a watcher error is
 * ignored, and any other signal stops the recorded plugins and ends the loop.
 *
 * What one Serve returns is an oracle `serve(batch, index)`: the outcome, for the batch'th
 * round of serving, of the plugin built for descriptor `index`. Events arrive in the order
 * of `events`; when they run out the program would block for ever. A failing batch is
 * retried at once without consuming an event, which can go on for ever, so a `fuel` bound
 * caps the number of batches.
 */
module Orchestrator {
  import opened Wrappers
  import opened PluginApi
  import opened Discovery

  /** The signals the OS watcher subscribes to. */
  datatype Sig = SIGHUP | SIGINT | SIGTERM | SIGQUIT

  /** One item taken by the select: a filesystem event, a watcher error or a signal. */
  datatype Event = FsEvent(name: string, op: bv32) | WatchFailure | Signal(sig: Sig)

  /** fsnotify's Create bit in an event's operation mask. */
  const CREATE: bv32 := 1

  /** The kubelet's socket was (re)created, so the kubelet restarted and forgot its plugins. */
  predicate KubeletRecreated(e: Event) {
    e.FsEvent? && e.name == KUBELET_SOCKET && e.op & CREATE == CREATE
  }

  /** What the loop does with an event. */
  datatype Action = Ignore | Restart | Shutdown

  function Dispatch(e: Event): (a: Action)
    ensures a == Shutdown <==> e.Signal? && e.sig != SIGHUP
    ensures a == Restart <==> KubeletRecreated(e) || e == Signal(SIGHUP)
  {
    match e
    case FsEvent(_, _) => if KubeletRecreated(e) then Restart else Ignore
    case WatchFailure => Ignore
    case Signal(s) => if s == SIGHUP then Restart else Shutdown
  }

  /** How many plugins the stop loop would stop: those whose pointer of the matching kind is set. */
  function StopCount(descs: seq<DeviceInstance>): nat {
    if descs == [] then 0
    else
      var d := descs[|descs| - 1];
      StopCount(descs[..|descs| - 1]) +
      (match d.deviceType
       case DeviceFileType => if d.smarterPlugin then 1 else 0
       case NvidiaSysType => if d.nvidiaPlugin then 1 else 0)
  }

  /**
   * The stop loop: visits every descriptor and stops its plugin when the pointer is set.
   * It returns how many Stop calls it makes.
   */
  method StopAll(descs: seq<DeviceInstance>) returns (stops: nat)
    ensures stops == StopCount(descs)
    ensures stops <= |descs|
  {
    stops := 0;
    for i := 0 to |descs|
      invariant stops == StopCount(descs[..i]) && stops <= i
    {
      assert descs[..i + 1][..i] == descs[..i];
      match descs[i].deviceType
      case DeviceFileType =>
        if descs[i].smarterPlugin {
          stops := stops + 1;
        }
      case NvidiaSysType =>
        if descs[i].nvidiaPlugin {
          stops := stops + 1;
        }
    }
    assert descs[..|descs|] == descs;
  }

  /** The error a batch leaves behind: that of the last Serve, or nil for no descriptors. */
  function BatchError(n: nat, batch: nat, serve: (nat, nat) -> Option<Error>): Option<Error> {
    if n == 0 then None else serve(batch, n - 1)
  }

  /**
   * The serve loop of one restart: builds and serves a plugin for every descriptor. The
   * `break` inside the switch leaves only the switch, so every descriptor is served even
   * after a failure, and the error left is that of the last one: an earlier failure is
   * forgotten when the last Serve succeeds.
   */
  method RestartBatch(descs: seq<DeviceInstance>, batch: nat, serve: (nat, nat) -> Option<Error>)
    returns (err: Option<Error>, calls: nat)
    ensures calls == |descs|
    ensures err == (if descs == [] then None else serve(batch, |descs| - 1))
  {
    err := None;
    calls := 0;
    for i := 0 to |descs|
      invariant calls == i
      invariant err == BatchError(i, batch, serve)
    {
      // either kind of plugin is built and served; only the outcome matters here
      err := serve(batch, i);
      calls := calls + 1;
    }
  }

  /** The loop's variables: the restart flag, the next event, and counters of what it did. */
  datatype LoopState = LoopState(restart: bool, next: nat, batches: nat, serveCalls: nat, stopCalls: nat)

  const INIT := LoopState(true, 0, 0, 0, 0)

  /** Why the loop is no longer running. */
  datatype Halt = Exited | Blocked | OutOfFuel

  datatype Outcome = Outcome(halt: Halt, state: LoopState)

  /** The reference semantics of the loop, one restart batch or one event at a time. */
  function Run(descs: seq<DeviceInstance>, events: seq<Event>, serve: (nat, nat) -> Option<Error>,
               fuel: nat, st: LoopState): (o: Outcome)
    requires st.next <= |events| && st.batches <= fuel
    ensures st.next <= o.state.next <= |events|
    ensures st.batches <= o.state.batches <= fuel
    ensures o.halt == OutOfFuel ==> o.state.batches == fuel && o.state.restart
    ensures o.halt == Blocked ==> o.state.next == |events| && !o.state.restart
    ensures o.halt == Exited ==> st.next < o.state.next && Dispatch(events[o.state.next - 1]) == Shutdown
    decreases fuel - st.batches, |events| - st.next
  {
    if st.restart then
      if st.batches == fuel then Outcome(OutOfFuel, st)
      else
        var err := BatchError(|descs|, st.batches, serve);
        Run(descs, events, serve, fuel,
            st.(restart := err.Some?, batches := st.batches + 1,
                serveCalls := st.serveCalls + |descs|, stopCalls := st.stopCalls + StopCount(descs)))
    else if st.next == |events| then Outcome(Blocked, st)
    else
      match Dispatch(events[st.next])
      case Shutdown => Outcome(Exited, st.(next := st.next + 1, stopCalls := st.stopCalls + StopCount(descs)))
      case Restart => Run(descs, events, serve, fuel, st.(next := st.next + 1, restart := true))
      case Ignore => Run(descs, events, serve, fuel, st.(next := st.next + 1))
  }

  /**
   * The loop of main.go: restart := true, then serve batches and take events until a
   * terminating signal. It returns why it stopped and its final counters.
   */
  method EventLoop(descs: seq<DeviceInstance>, events: seq<Event>, serve: (nat, nat) -> Option<Error>, fuel: nat)
    returns (o: Outcome)
    ensures o == Run(descs, events, serve, fuel, INIT)
  {
    var restart := true;
    var next, batches, serveCalls, stopCalls := 0, 0, 0, 0;
    while true
      invariant next <= |events| && batches <= fuel
      invariant Run(descs, events, serve, fuel, LoopState(restart, next, batches, serveCalls, stopCalls))
                == Run(descs, events, serve, fuel, INIT)
      decreases fuel - batches, |events| - next
    {
      if restart {
        if batches == fuel {
          return Outcome(OutOfFuel, LoopState(restart, next, batches, serveCalls, stopCalls));
        }
        var stops := StopAll(descs);
        stopCalls := stopCalls + stops;
        var err, calls := RestartBatch(descs, batches, serve);
        serveCalls := serveCalls + calls;
        batches := batches + 1;
        if err.Some? {
          continue;
        }
        restart := false;
      }
      if next == |events| {
        return Outcome(Blocked, LoopState(restart, next, batches, serveCalls, stopCalls));
      }
      var e := events[next];
      next := next + 1;
      var a := Dispatch(e);
      if a == Restart {
        restart := true;
      } else if a == Shutdown {
        var stops := StopAll(descs);
        stopCalls := stopCalls + stops;
        return Outcome(Exited, LoopState(restart, next, batches, serveCalls, stopCalls));
      }
    }
  }

  // ---------------------------------------------------------------------------------------
  // properties of the loop

  /**
   * Every batch serves every descriptor once: a state whose Serve count is its batch count
   * times the number of descriptors runs to one that is too.
   */
  lemma {:induction false} ServeCallsPerBatch(descs: seq<DeviceInstance>, events: seq<Event>,
                                              serve: (nat, nat) -> Option<Error>, fuel: nat, st: LoopState)
    requires st.next <= |events| && st.batches <= fuel
    requires st.serveCalls == st.batches * |descs|
    ensures Run(descs, events, serve, fuel, st).state.serveCalls ==
            Run(descs, events, serve, fuel, st).state.batches * |descs|
    decreases fuel - st.batches, |events| - st.next
  {
    if st.restart {
      if st.batches < fuel {
        var err := BatchError(|descs|, st.batches, serve);
        assert (st.batches + 1) * |descs| == st.batches * |descs| + |descs|;
        ServeCallsPerBatch(descs, events, serve, fuel,
          st.(restart := err.Some?, batches := st.batches + 1, serveCalls := st.serveCalls + |descs|,
              stopCalls := st.stopCalls + StopCount(descs)));
      }
    } else if st.next < |events| {
      match Dispatch(events[st.next])
      case Shutdown =>
      case Restart => ServeCallsPerBatch(descs, events, serve, fuel, st.(next := st.next + 1, restart := true));
      case Ignore => ServeCallsPerBatch(descs, events, serve, fuel, st.(next := st.next + 1));
    }
  }

  /** A descriptor list built by discovery has no plugin pointers set, so no Stop is called. */
  lemma {:induction false} DetachedStopCount(descs: seq<DeviceInstance>)
    requires forall k :: 0 <= k < |descs| ==> !descs[k].smarterPlugin && !descs[k].nvidiaPlugin
    ensures StopCount(descs) == 0
  {
    if descs != [] {
      DetachedStopCount(descs[..|descs| - 1]);
    }
  }

  /** If no descriptor is found stoppable, the loop calls Stop never, whatever happens. */
  lemma {:induction false} NoStopsWhenDetached(descs: seq<DeviceInstance>, events: seq<Event>,
                                               serve: (nat, nat) -> Option<Error>, fuel: nat, st: LoopState)
    requires st.next <= |events| && st.batches <= fuel
    requires StopCount(descs) == 0
    ensures Run(descs, events, serve, fuel, st).state.stopCalls == st.stopCalls
    decreases fuel - st.batches, |events| - st.next
  {
    if st.restart {
      if st.batches < fuel {
        var err := BatchError(|descs|, st.batches, serve);
        NoStopsWhenDetached(descs, events, serve, fuel,
          st.(restart := err.Some?, batches := st.batches + 1, serveCalls := st.serveCalls + |descs|,
              stopCalls := st.stopCalls + StopCount(descs)));
      }
    } else if st.next < |events| {
      match Dispatch(events[st.next])
      case Shutdown =>
      case Restart => NoStopsWhenDetached(descs, events, serve, fuel, st.(next := st.next + 1, restart := true));
      case Ignore => NoStopsWhenDetached(descs, events, serve, fuel, st.(next := st.next + 1));
    }
  }

  /**
   * For the descriptors discovery builds, neither the restart path nor shutdown ever stops a
   * plugin: the pointers they test were set on copies of the list's elements.
   */
  lemma DiscoveredPluginsAreNeverStopped(entries: seq<DesiredDevice>, devNames: seq<string>,
                                         sysNames: seq<string>, re: Regexp,
                                         events: seq<Event>, serve: (nat, nat) -> Option<Error>, fuel: nat)
    requires Descriptors(entries, devNames, sysNames, re).Ok?
    ensures Run(Descriptors(entries, devNames, sysNames, re).value, events, serve, fuel, INIT).state.stopCalls == 0
  {
    var descs := Descriptors(entries, devNames, sysNames, re).value;
    DescriptorsDetached(entries, devNames, sysNames, re);
    DetachedStopCount(descs);
    NoStopsWhenDetached(descs, events, serve, fuel, INIT);
  }

  /**
   * Retry storm: when the last descriptor's Serve keeps failing, the loop serves batch after
   * batch at once, never reads an event (not even a terminating signal) and only the fuel
   * bound stops it.
   */
  lemma {:induction false} RetryStorm(descs: seq<DeviceInstance>, events: seq<Event>,
                                      serve: (nat, nat) -> Option<Error>, fuel: nat, st: LoopState)
    requires st.restart && st.next <= |events| && st.batches <= fuel
    requires forall b :: BatchError(|descs|, b, serve).Some?
    ensures Run(descs, events, serve, fuel, st).halt == OutOfFuel
    ensures Run(descs, events, serve, fuel, st).state.next == st.next
    ensures Run(descs, events, serve, fuel, st).state.batches == fuel
    decreases fuel - st.batches
  {
    if st.batches < fuel {
      var err := BatchError(|descs|, st.batches, serve);
      assert err.Some?;
      RetryStorm(descs, events, serve, fuel,
        st.(restart := err.Some?, batches := st.batches + 1, serveCalls := st.serveCalls + |descs|,
            stopCalls := st.stopCalls + StopCount(descs)));
    }
  }

  /** No terminating signal among events[lo..hi]. */
  predicate NoShutdownBetween(events: seq<Event>, lo: nat, hi: nat)
    requires lo <= hi <= |events|
  {
    forall i :: lo <= i < hi ==> Dispatch(events[i]) != Shutdown
  }

  /**
   * The loop ends exactly at the first terminating signal it reads: none of the events
   * consumed before it is one; when it blocks, none of the events was one.
   */
  lemma {:induction false} ShutdownIsFirstTerminalSignal(descs: seq<DeviceInstance>, events: seq<Event>,
                                                         serve: (nat, nat) -> Option<Error>, fuel: nat, st: LoopState)
    requires st.next <= |events| && st.batches <= fuel
    ensures var o := Run(descs, events, serve, fuel, st);
            (o.halt == Exited ==> NoShutdownBetween(events, st.next, o.state.next - 1)) &&
            (o.halt != Exited ==> NoShutdownBetween(events, st.next, o.state.next))
    decreases fuel - st.batches, |events| - st.next
  {
    if st.restart {
      if st.batches < fuel {
        var err := BatchError(|descs|, st.batches, serve);
        ShutdownIsFirstTerminalSignal(descs, events, serve, fuel,
          st.(restart := err.Some?, batches := st.batches + 1, serveCalls := st.serveCalls + |descs|,
              stopCalls := st.stopCalls + StopCount(descs)));
      }
    } else if st.next < |events| {
      match Dispatch(events[st.next])
      case Shutdown =>
      case Restart => ShutdownIsFirstTerminalSignal(descs, events, serve, fuel, st.(next := st.next + 1, restart := true));
      case Ignore => ShutdownIsFirstTerminalSignal(descs, events, serve, fuel, st.(next := st.next + 1));
    }
  }

  /** The number of restart requests among events[lo..hi]. */
  function RestartsBetween(events: seq<Event>, lo: nat, hi: nat): nat
    requires lo <= hi <= |events|
    decreases hi - lo
  {
    if lo == hi then 0
    else (if Dispatch(events[lo]) == Restart then 1 else 0) + RestartsBetween(events, lo + 1, hi)
  }

  /** Every batch succeeds: the last Serve of each round returns nil. */
  ghost predicate AllBatchesSucceed(n: nat, serve: (nat, nat) -> Option<Error>) {
    forall b :: BatchError(n, b, serve).None?
  }

  /**
   * When every batch succeeds and the fuel suffices, the plugins are served once at start
   * and once more for each restart request read, and for nothing else: a watcher error or an
   * unrelated filesystem event does not re-serve.
   */
  lemma {:induction false} OneBatchPerRestart(descs: seq<DeviceInstance>, events: seq<Event>,
                                              serve: (nat, nat) -> Option<Error>, fuel: nat, st: LoopState)
    requires st.next <= |events| && st.batches <= fuel
    requires AllBatchesSucceed(|descs|, serve)
    requires st.batches + (if st.restart then 1 else 0) + (|events| - st.next) <= fuel
    ensures Run(descs, events, serve, fuel, st).halt != OutOfFuel
    ensures Run(descs, events, serve, fuel, st).state.batches ==
            st.batches + (if st.restart then 1 else 0)
            + RestartsBetween(events, st.next, Run(descs, events, serve, fuel, st).state.next)
    decreases fuel - st.batches, |events| - st.next
  {
    var o := Run(descs, events, serve, fuel, st);
    if st.restart {
      var err := BatchError(|descs|, st.batches, serve);
      assert err.None?;
      var st' := st.(restart := false, batches := st.batches + 1, serveCalls := st.serveCalls + |descs|,
                     stopCalls := st.stopCalls + StopCount(descs));
      OneBatchPerRestart(descs, events, serve, fuel, st');
    } else if st.next < |events| {
      match Dispatch(events[st.next])
      case Shutdown =>
        assert o.state.next == st.next + 1;
        assert RestartsBetween(events, st.next + 1, st.next + 1) == 0;
      case Restart =>
        OneBatchPerRestart(descs, events, serve, fuel, st.(next := st.next + 1, restart := true));
      case Ignore =>
        OneBatchPerRestart(descs, events, serve, fuel, st.(next := st.next + 1));
    }
  }

  /** A loop that starts up and then sees only terminating signals: served once, exits at once. */
  lemma StartThenSigterm(descs: seq<DeviceInstance>, serve: (nat, nat) -> Option<Error>, fuel: nat)
    requires fuel >= 1 && AllBatchesSucceed(|descs|, serve)
    ensures Run(descs, [Signal(SIGTERM)], serve, fuel, INIT) ==
            Outcome(Exited, LoopState(false, 1, 1, |descs|, 2 * StopCount(descs)))
  {
    assert BatchError(|descs|, 0, serve).None?;
  }
}
