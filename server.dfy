/**
 * The generic device plugin (server.go): one instance serves one resource backed by a
 * /dev file. Its lifecycle state is whether a gRPC server object is held (`server`),
 * whether the stop channel has been closed (`stopClosed`) and how many health-check tasks
 * have been launched; the socket file lives in an abstract FileSystem.
 *
 * The pure parts that nvidia-server.go repeats line for line (socket cleanup, registration,
 * the health step of ListAndWatch, the health-check environment variable, the two trivial
 * protocol operations) are defined once here and used by both plugin classes.
 */
module Server {
  import opened Wrappers
  import opened PluginApi
  import opened Platform
  import opened Argus

  // ---------------------------------------------------------------------------------------
  // socket cleanup

  /** What cleanup returns: only a removal error other than "does not exist" escapes. */
  function CleanupError(socket: string, denied: set<string>): Option<Error> {
    if socket in denied then Some(RemoveError(socket)) else None
  }

  /** The paths left after cleanup. */
  function AfterCleanup(present: set<string>, denied: set<string>, socket: string): set<string> {
    if socket in denied then present else present - {socket}
  }

  /**
   * cleanup: remove a stale socket file. A missing file is not an error; any other failure
   * to remove it is returned. After a successful cleanup the socket file is gone.
   */
  method Cleanup(fs: FileSystem, socket: string) returns (err: Option<Error>)
    modifies fs
    ensures err == CleanupError(socket, fs.denied)
    ensures fs.present == AfterCleanup(old(fs.present), fs.denied, socket)
    ensures err.None? ==> socket !in fs.present
  {
    var e := fs.Remove(socket);
    if e.Some? && !e.value.NotExist? {
      return e;
    }
    return None;
  }

  // ---------------------------------------------------------------------------------------
  // registration

  /**
   * Register: dial the kubelet's socket and send the registration request, which carries
   * the API version, the file name of the plugin's socket and the resource name. The result
   * holds the request the kubelet accepted.
   */
  function Registration(socket: string, kubeletEndpoint: string, resourceName: string, net: Net)
    : (r: Result<RegisterRequest>)
    ensures r.Ok? <==> !net.kubeletDialFails && !net.registerFails
    ensures net.kubeletDialFails ==> r == Err(DialError(kubeletEndpoint))
    ensures !net.kubeletDialFails && net.registerFails ==> r == Err(RegisterError(resourceName))
    ensures r.Ok? ==> r.value.version == VERSION && r.value.endpoint == Base(socket)
                      && r.value.resourceName == resourceName
  {
    if net.kubeletDialFails then Err(DialError(kubeletEndpoint))
    else if net.registerFails then Err(RegisterError(resourceName))
    else Ok(RegisterRequest(VERSION, Base(socket), resourceName))
  }

  /** A socket in the kubelet's plugin directory registers under its own file name. */
  lemma RegistrationEndpoint(fileName: string, resourceName: string, net: Net)
    requires fileName != [] && '/' !in fileName
    requires !net.kubeletDialFails && !net.registerFails
    ensures Registration(DEVICE_PLUGIN_PATH + fileName, KUBELET_SOCKET, resourceName, net)
            == Ok(RegisterRequest(VERSION, fileName, resourceName))
  {
    BaseOfJoin(DEVICE_PLUGIN_PATH, fileName);
  }

  // ---------------------------------------------------------------------------------------
  // health

  const ENV_DISABLE_HEALTH_CHECKS: string := "DP_DISABLE_HEALTHCHECKS"
  const ALL_HEALTH_CHECKS: string := "xids"

  /** The health checks healthcheck treats as disabled, given the variable's value. */
  function DisabledHealthChecks(env: string): (disabled: string)
    ensures ToLower(env) == "all" ==> disabled == ALL_HEALTH_CHECKS
    ensures ToLower(env) != "all" ==> disabled == ToLower(env)
    ensures forall i :: 0 <= i < |disabled| ==> !('A' <= disabled[i] <= 'Z')
  {
    var lowered := ToLower(env);
    if lowered == "all" then ALL_HEALTH_CHECKS else lowered
  }

  /**
   * Whether healthcheck creates the xids event source: it does unless the lowercased value
   * of DP_DISABLE_HEALTHCHECKS is "all" or mentions "xids". An unset variable reads as "".
   */
  function XidsEnabled(env: string): (enabled: bool)
    ensures enabled <==> ToLower(env) != "all" && !Contains(ToLower(env), "xids")
  {
    var disabled := DisabledHealthChecks(env);
    assert disabled == "xids" ==> "xids" <= disabled[0..];
    !Contains(disabled, "xids")
  }

  /** What ListAndWatch's select can receive: the closed stop channel or a health event. */
  datatype WatchInput = StopFired | HealthEvent(index: nat)

  /**
   * The health step: the device the event points at becomes Unhealthy. An index outside the
   * list stands for a device object that is not in the list: nothing listed changes.
   */
  function MarkUnhealthy(devs: seq<Device>, index: nat): (r: seq<Device>)
    ensures |r| == |devs| && Ids(r) == Ids(devs)
    ensures forall k :: 0 <= k < |r| ==> r[k].health == (if k == index then Unhealthy else devs[k].health)
  {
    if index < |devs| then devs[index := devs[index].(health := Unhealthy)] else devs
  }

  /** The device lists ListAndWatch sends after its first one, until the stop channel fires. */
  function Sends(devs: seq<Device>, inputs: seq<WatchInput>): seq<seq<Device>>
    decreases |inputs|
  {
    if inputs == [] then []
    else match inputs[0]
      case StopFired => []
      case HealthEvent(i) =>
        var next := MarkUnhealthy(devs, i);
        [next] + Sends(next, inputs[1..])
  }

  /** The number of health events before the first stop. */
  function EventsBeforeStop(inputs: seq<WatchInput>): nat {
    if inputs == [] then 0
    else match inputs[0]
      case StopFired => 0
      case HealthEvent(_) => 1 + EventsBeforeStop(inputs[1..])
  }

  /** Health only degrades: the same devices, and no Unhealthy device is Healthy again. */
  predicate NoRecovery(before: seq<Device>, after: seq<Device>) {
    |after| == |before| && Ids(after) == Ids(before) &&
    forall k :: 0 <= k < |before| && before[k].health == Unhealthy ==> after[k].health == Unhealthy
  }

  lemma NoRecoveryTransitive(a: seq<Device>, b: seq<Device>, c: seq<Device>)
    requires NoRecovery(a, b) && NoRecovery(b, c)
    ensures NoRecovery(a, c)
  {
  }

  /**
   * Along a ListAndWatch stream, membership never changes and no device recovers: every list
   * sent keeps the ids of the first and degrades it, and each degrades the one before.
   */
  lemma {:induction false} SendsNeverRecover(devs: seq<Device>, inputs: seq<WatchInput>)
    ensures forall k :: 0 <= k < |Sends(devs, inputs)| ==> NoRecovery(devs, Sends(devs, inputs)[k])
    ensures forall k :: 0 < k < |Sends(devs, inputs)| ==>
              NoRecovery(Sends(devs, inputs)[k - 1], Sends(devs, inputs)[k])
    decreases |inputs|
  {
    if inputs != [] && inputs[0].HealthEvent? {
      var next := MarkUnhealthy(devs, inputs[0].index);
      var rest := Sends(next, inputs[1..]);
      SendsNeverRecover(next, inputs[1..]);
      assert Sends(devs, inputs) == [next] + rest;
      forall k | 0 <= k < |Sends(devs, inputs)|
        ensures NoRecovery(devs, Sends(devs, inputs)[k])
      {
        if k > 0 {
          NoRecoveryTransitive(devs, next, rest[k - 1]);
        }
      }
    }
  }

  /** One list is sent per health event received before the stop channel fires. */
  lemma {:induction false} SendsCount(devs: seq<Device>, inputs: seq<WatchInput>)
    ensures |Sends(devs, inputs)| == EventsBeforeStop(inputs)
    decreases |inputs|
  {
    if inputs != [] && inputs[0].HealthEvent? {
      SendsCount(MarkUnhealthy(devs, inputs[0].index), inputs[1..]);
    }
  }

  /** Nothing after the stop matters: the stream has ended. */
  lemma {:induction false} SendsEndAtStop(devs: seq<Device>, before: seq<WatchInput>, after: seq<WatchInput>)
    ensures Sends(devs, before + [StopFired] + after) == Sends(devs, before)
    decreases |before|
  {
    if before == [] {
      assert (before + [StopFired] + after)[0] == StopFired;
    } else {
      assert (before + [StopFired] + after)[0] == before[0];
      if before[0].HealthEvent? {
        assert (before + [StopFired] + after)[1..] == before[1..] + [StopFired] + after;
        SendsEndAtStop(MarkUnhealthy(devs, before[0].index), before[1..], after);
      }
    }
  }

  // ---------------------------------------------------------------------------------------
  // allocation

  /** The grant of one container: its device file, read-write, at the same path inside. */
  function FileGrant(deviceFile: string): ContainerResponse {
    ContainerResponse(map[], [DeviceSpec(deviceFile, deviceFile, "rw")])
  }

  /** All requested ids, request by request. */
  function AllIds(reqs: seq<ContainerRequest>): seq<string> {
    if reqs == [] then [] else AllIds(reqs[..|reqs| - 1]) + reqs[|reqs| - 1].devicesIds
  }

  /** The first id of `ids` that no device carries. */
  function FirstMissing(devs: seq<Device>, ids: seq<string>): (r: Option<string>)
    ensures r.None? <==> forall k :: 0 <= k < |ids| ==> HasId(devs, ids[k])
    ensures r.Some? ==> r.value in ids && !HasId(devs, r.value)
  {
    if ids == [] then None
    else if !HasId(devs, ids[0]) then Some(ids[0])
    else
      var rest := FirstMissing(devs, ids[1..]);
      assert forall k :: 1 <= k < |ids| ==> ids[k] == ids[1..][k - 1];
      rest
  }

  lemma {:induction false} FirstMissingAppend(devs: seq<Device>, a: seq<string>, b: seq<string>)
    ensures FirstMissing(devs, a + b) == if FirstMissing(devs, a).Some? then FirstMissing(devs, a) else FirstMissing(devs, b)
  {
    if a == [] {
      assert a + b == b;
    } else {
      assert (a + b)[0] == a[0] && (a + b)[1..] == a[1..] + b;
      FirstMissingAppend(devs, a[1..], b);
    }
  }

  lemma {:induction false} AllIdsAppend(a: seq<ContainerRequest>, b: seq<ContainerRequest>)
    ensures AllIds(a + b) == AllIds(a) + AllIds(b)
    decreases |b|
  {
    if b == [] {
      assert a + b == a;
    } else {
      assert (a + b)[..|a + b| - 1] == a + b[..|b| - 1];
      AllIdsAppend(a, b[..|b| - 1]);
    }
  }

  /** The first unknown id of one request: every id before j is known and id j is not. */
  lemma MissingInRequest(devs: seq<Device>, ids: seq<string>, j: nat)
    requires j < |ids|
    requires FirstMissing(devs, ids[..j]) == None && !HasId(devs, ids[j])
    ensures FirstMissing(devs, ids) == Some(ids[j])
  {
    FirstMissingAppend(devs, ids[..j], ids[j..]);
    assert ids[..j] + ids[j..] == ids;
  }

  /** An unknown id among the first k requests stays the first unknown id of all of them. */
  lemma MissingInPrefix(devs: seq<Device>, reqs: seq<ContainerRequest>, k: nat)
    requires k <= |reqs| && FirstMissing(devs, AllIds(reqs[..k])).Some?
    ensures FirstMissing(devs, AllIds(reqs)) == FirstMissing(devs, AllIds(reqs[..k]))
  {
    assert reqs == reqs[..k] + reqs[k..];
    AllIdsAppend(reqs[..k], reqs[k..]);
    FirstMissingAppend(devs, AllIds(reqs[..k]), AllIds(reqs[k..]));
  }

  /** Every id of request k is among AllIds. */
  lemma {:induction false} AllIdsContains(reqs: seq<ContainerRequest>, k: nat, j: nat)
    requires k < |reqs| && j < |reqs[k].devicesIds|
    ensures reqs[k].devicesIds[j] in AllIds(reqs)
  {
    assert reqs == reqs[..k] + [reqs[k]] + reqs[k + 1..];
    AllIdsAppend(reqs[..k] + [reqs[k]], reqs[k + 1..]);
    AllIdsAppend(reqs[..k], [reqs[k]]);
    assert AllIds([reqs[k]]) == [] + reqs[k].devicesIds by {
      assert [reqs[k]][..0] == [];
    }
  }

  /** Every member of AllIds comes from some request. */
  lemma {:induction false} AllIdsFrom(reqs: seq<ContainerRequest>, id: string)
    requires id in AllIds(reqs)
    ensures exists k, j :: 0 <= k < |reqs| && 0 <= j < |reqs[k].devicesIds| && reqs[k].devicesIds[j] == id
  {
    var init := reqs[..|reqs| - 1];
    if id in AllIds(init) {
      AllIdsFrom(init, id);
      var k, j :| 0 <= k < |init| && 0 <= j < |init[k].devicesIds| && init[k].devicesIds[j] == id;
      assert reqs[k] == init[k];
    } else {
      var j :| 0 <= j < |reqs[|reqs| - 1].devicesIds| && reqs[|reqs| - 1].devicesIds[j] == id;
    }
  }

  /** What the generic Allocate answers: all grants, or the first unknown id. */
  function AllocateResult(devs: seq<Device>, deviceFile: string, reqs: seq<ContainerRequest>)
    : Result<seq<ContainerResponse>>
  {
    match FirstMissing(devs, AllIds(reqs))
    case Some(id) => Err(UnknownDevice(id))
    case None => Ok(seq(|reqs|, _ => FileGrant(deviceFile)))
  }

  /**
   * The generic Allocate succeeds iff every id of every request is advertised; then it
   * answers each request with exactly one read-write grant of the device file. Otherwise
   * it fails as a whole, naming a requested id that no device carries.
   */
  lemma AllocateResultMeaning(devs: seq<Device>, deviceFile: string, reqs: seq<ContainerRequest>)
    ensures AllocateResult(devs, deviceFile, reqs).Ok? <==>
            forall k, j :: 0 <= k < |reqs| && 0 <= j < |reqs[k].devicesIds| ==> HasId(devs, reqs[k].devicesIds[j])
    ensures AllocateResult(devs, deviceFile, reqs).Ok? ==>
            |AllocateResult(devs, deviceFile, reqs).value| == |reqs| &&
            forall k :: 0 <= k < |reqs| ==> AllocateResult(devs, deviceFile, reqs).value[k] == FileGrant(deviceFile)
    ensures AllocateResult(devs, deviceFile, reqs).Err? ==>
            exists k, j :: 0 <= k < |reqs| && 0 <= j < |reqs[k].devicesIds| &&
              AllocateResult(devs, deviceFile, reqs).error == UnknownDevice(reqs[k].devicesIds[j]) &&
              !HasId(devs, reqs[k].devicesIds[j])
  {
    var all := AllIds(reqs);
    if forall k, j :: 0 <= k < |reqs| && 0 <= j < |reqs[k].devicesIds| ==> HasId(devs, reqs[k].devicesIds[j]) {
      forall i | 0 <= i < |all| ensures HasId(devs, all[i]) {
        AllIdsFrom(reqs, all[i]);
      }
    } else {
      var k, j :| 0 <= k < |reqs| && 0 <= j < |reqs[k].devicesIds| && !HasId(devs, reqs[k].devicesIds[j]);
      AllIdsContains(reqs, k, j);
    }
    if FirstMissing(devs, all).Some? {
      AllIdsFrom(reqs, FirstMissing(devs, all).value);
    }
  }

  // ---------------------------------------------------------------------------------------
  // the two trivial protocol operations

  /** GetDevicePluginOptions: the defaults, so no PreStartContainer call is asked for. */
  function GetDevicePluginOptions(): (o: DevicePluginOptions)
    ensures !o.preStartRequired
  {
    DevicePluginOptions(false)
  }

  /** PreStartContainer: an empty acknowledgement; it never fails. */
  function PreStartContainer(): (r: Result<PreStartContainerResponse>)
    ensures r.Ok?
  {
    Ok(PreStartContainerResponse)
  }

  // ---------------------------------------------------------------------------------------
  // the plugin instance

  /** SmarterDevicePlugin. */
  class SmarterDevicePlugin {
    var devs: seq<Device>
    const socket: string
    const deviceFile: string
    const resourceName: string

    var stopClosed: bool   // close(m.stop) has run
    var server: bool       // m.server != nil
    var healthchecks: nat  // healthcheck tasks launched so far

    /** NewSmarterDevicePlugin. */
    constructor (nDevices: nat, deviceFilename: string, resourceIdentification: string, serverSock: string)
      ensures devs == Replicas(nDevices)
      ensures socket == serverSock && deviceFile == deviceFilename && resourceName == resourceIdentification
      ensures !server && !stopClosed && healthchecks == 0
    {
      var d := GetDevices(nDevices);
      devs := d;
      socket := serverSock;
      deviceFile := deviceFilename;
      resourceName := resourceIdentification;
      stopClosed := false;
      server := false;
      healthchecks := 0;
    }

    /**
     * Start: clean up the socket path, listen on it, create the gRPC server, check it answers
     * with a blocking self-dial, then launch the health check. A cleanup or listen failure
     * leaves `server` as it was; a self-dial failure returns with the server already set and
     * the socket bound; only full success launches the health check.
     */
    method Start(fs: FileSystem, net: Net) returns (err: Option<Error>)
      modifies this, fs
      ensures devs == old(devs) && stopClosed == old(stopClosed)
      ensures socket in fs.denied ==>
                err == Some(RemoveError(socket)) && server == old(server) &&
                healthchecks == old(healthchecks) && fs.present == old(fs.present)
      ensures socket !in fs.denied && net.listenFails ==>
                err == Some(ListenError(socket)) && server == old(server) &&
                healthchecks == old(healthchecks) && fs.present == old(fs.present) - {socket}
      ensures socket !in fs.denied && !net.listenFails ==>
                server && fs.present == old(fs.present) + {socket} &&
                err == (if net.selfDialFails then Some(DialError(socket)) else None) &&
                healthchecks == old(healthchecks) + (if net.selfDialFails then 0 else 1)
    {
      err := Cleanup(fs, socket);
      if err.Some? {
        return;
      }
      err := fs.Listen(socket, net.listenFails);
      if err.Some? {
        return;
      }
      server := true;
      if net.selfDialFails {
        return Some(DialError(socket));
      }
      healthchecks := healthchecks + 1;
      return None;
    }

    /**
     * Stop: a no-op when no server is held. Otherwise it stops the server, whose unix
     * listener unlinks the socket file as it closes, closes the stop channel and returns
     * cleanup's result. Closing a channel twice panics in Go; that happens only when a
     * stopped instance was started again, and by then the socket file is already gone.
     */
    method Stop(fs: FileSystem) returns (err: Option<Error>)
      modifies this, fs
      ensures devs == old(devs) && healthchecks == old(healthchecks) && !server
      ensures !old(server) ==>
                err == None && stopClosed == old(stopClosed) && fs.present == old(fs.present)
      ensures old(server) && old(stopClosed) ==>
                err == Some(ClosedChannelPanic) && stopClosed &&
                fs.present == AfterCleanup(old(fs.present), fs.denied, socket)
      ensures old(server) && !old(stopClosed) ==>
                stopClosed && err == CleanupError(socket, fs.denied) &&
                fs.present == AfterCleanup(old(fs.present), fs.denied, socket)
    {
      if !server {
        return None;
      }
      server := false;
      // the server's Stop closes its unix listener, which unlinks the socket file
      var unlinked := fs.Remove(socket);
      if stopClosed {
        return Some(ClosedChannelPanic);
      }
      stopClosed := true;
      err := Cleanup(fs, socket);
    }

    /**
     * Serve: Start, then Register with the kubelet. A Start error is returned without
     * stopping; a registration error stops the instance and is then returned.
     */
    method Serve(fs: FileSystem, net: Net) returns (err: Option<Error>)
      modifies this, fs
      ensures devs == old(devs)
      ensures socket in fs.denied ==>
                err == Some(RemoveError(socket)) && server == old(server) && stopClosed == old(stopClosed) &&
                healthchecks == old(healthchecks) && fs.present == old(fs.present)
      ensures socket !in fs.denied && net.listenFails ==>
                err == Some(ListenError(socket)) && server == old(server) && stopClosed == old(stopClosed) &&
                healthchecks == old(healthchecks) && fs.present == old(fs.present) - {socket}
      ensures socket !in fs.denied && !net.listenFails && net.selfDialFails ==>
                err == Some(DialError(socket)) && server && stopClosed == old(stopClosed) &&
                healthchecks == old(healthchecks) && fs.present == old(fs.present) + {socket}
      ensures socket !in fs.denied && !net.listenFails && !net.selfDialFails ==>
                healthchecks == old(healthchecks) + 1 &&
                var reg := Registration(socket, KUBELET_SOCKET, resourceName, net);
                (reg.Err? ==> err == (if old(stopClosed) then Some(ClosedChannelPanic) else Some(reg.error)) &&
                              !server && stopClosed &&
                              fs.present == old(fs.present) - {socket}) &&
                (reg.Ok? ==> err == None && server && stopClosed == old(stopClosed) &&
                             fs.present == old(fs.present) + {socket})
    {
      err := Start(fs, net);
      if err.Some? {
        return;
      }
      var reg := Registration(socket, KUBELET_SOCKET, resourceName, net);
      if reg.Err? {
        // Stop closes the stop channel; on an instance stopped before, that close panics
        var stopped := Stop(fs);
        if stopped == Some(ClosedChannelPanic) {
          return stopped;
        }
        return Some(reg.error);
      }
      return None;
    }

    /** ListAndWatch: send the list, then a fresh list after each health event, until stop. */
    method ListAndWatch(inputs: seq<WatchInput>) returns (sent: seq<seq<Device>>)
      modifies this`devs
      ensures sent == [old(devs)] + Sends(old(devs), inputs)
      ensures devs == sent[|sent| - 1]
    {
      sent := [devs];
      ghost var first := devs;
      var k := 0;
      while k < |inputs|
        invariant 0 <= k <= |inputs|
        invariant sent != [] && devs == sent[|sent| - 1]
        invariant sent + Sends(devs, inputs[k..]) == [first] + Sends(first, inputs)
      {
        assert inputs[k..][0] == inputs[k];
        match inputs[k]
        case StopFired =>
          return;
        case HealthEvent(i) =>
          assert inputs[k..][1..] == inputs[k + 1..];
          devs := MarkUnhealthy(devs, i);
          sent := sent + [devs];
          k := k + 1;
      }
      assert inputs[k..] == [];
    }

    /**
     * Allocate: one read-write grant of the device file per container request, but only if
     * every requested id is advertised; otherwise nothing but the unknown-device error.
     */
    method Allocate(reqs: seq<ContainerRequest>) returns (r: Result<seq<ContainerResponse>>)
      ensures r == AllocateResult(devs, deviceFile, reqs)
    {
      var responses: seq<ContainerResponse> := [];
      for i := 0 to |reqs|
        invariant FirstMissing(devs, AllIds(reqs[..i])) == None
        invariant responses == seq(i, _ => FileGrant(deviceFile))
      {
        var response := FileGrant(deviceFile);
        var ids := reqs[i].devicesIds;
        assert reqs[..i + 1][..i] == reqs[..i];
        assert AllIds(reqs[..i + 1]) == AllIds(reqs[..i]) + ids;
        for j := 0 to |ids|
          invariant FirstMissing(devs, ids[..j]) == None
        {
          var known := DeviceExists(devs, ids[j]);
          FirstMissingAppend(devs, ids[..j], [ids[j]]);
          assert ids[..j + 1] == ids[..j] + [ids[j]];
          if !known {
            MissingPropagates(reqs, i, j);
            return Err(UnknownDevice(ids[j]));
          }
        }
        assert ids[..|ids|] == ids;
        FirstMissingAppend(devs, AllIds(reqs[..i]), ids);
        responses := responses + [response];
      }
      assert reqs[..|reqs|] == reqs;
      r := Ok(responses);
    }

    /** If id j of request i is the first unknown one, it is the first unknown id overall. */
    lemma MissingPropagates(reqs: seq<ContainerRequest>, i: nat, j: nat)
      requires i < |reqs| && j < |reqs[i].devicesIds|
      requires FirstMissing(devs, AllIds(reqs[..i])) == None
      requires FirstMissing(devs, reqs[i].devicesIds[..j]) == None
      requires !HasId(devs, reqs[i].devicesIds[j])
      ensures FirstMissing(devs, AllIds(reqs)) == Some(reqs[i].devicesIds[j])
    {
      MissingInRequest(devs, reqs[i].devicesIds, j);
      assert reqs[..i + 1][..i] == reqs[..i];
      FirstMissingAppend(devs, AllIds(reqs[..i]), reqs[i].devicesIds);
      MissingInPrefix(devs, reqs, i + 1);
    }
  }

  // ---------------------------------------------------------------------------------------
  // lifecycle scenarios

  /** Stop on an instance that never started returns nil twice and touches nothing. */
  method StopNeverStarted(nDevices: nat, deviceFile: string, resourceName: string, socket: string,
                          present: set<string>, denied: set<string>)
    returns (first: Option<Error>, second: Option<Error>, presentAfter: set<string>, closed: bool)
    ensures first == None && second == None && presentAfter == present && !closed
  {
    var fs := new FileSystem(present, denied);
    var p := new SmarterDevicePlugin(nDevices, deviceFile, resourceName, socket);
    first := p.Stop(fs);
    second := p.Stop(fs);
    presentAfter := fs.present;
    closed := p.stopClosed;
  }

  /**
   * A successful Serve leaves the socket file in place; Stop removes it and closes the stop
   * channel; a second Stop is then a no-op.
   */
  method ServeThenStopTwice(nDevices: nat, deviceFile: string, resourceName: string, socket: string,
                            present: set<string>, denied: set<string>, net: Net)
    returns (served: Option<Error>, socketAfterServe: bool, first: Option<Error>,
             socketAfterStop: bool, second: Option<Error>)
    requires socket !in denied
    requires !net.listenFails && !net.selfDialFails && !net.kubeletDialFails && !net.registerFails
    ensures served == None && socketAfterServe
    ensures first == None && !socketAfterStop
    ensures second == None
  {
    var fs := new FileSystem(present, denied);
    var p := new SmarterDevicePlugin(nDevices, deviceFile, resourceName, socket);
    served := p.Serve(fs, net);
    socketAfterServe := socket in fs.present;
    first := p.Stop(fs);
    socketAfterStop := socket in fs.present;
    second := p.Stop(fs);
  }

  /**
   * A registration failure stops the instance again: no server, the socket file removed, and
   * a later Stop is a no-op rather than a second close.
   */
  method RegistrationFailure(nDevices: nat, deviceFile: string, resourceName: string, socket: string,
                             present: set<string>, denied: set<string>, net: Net)
    returns (err: Option<Error>, serverHeld: bool, socketLeft: bool, later: Option<Error>)
    requires socket !in denied
    requires !net.listenFails && !net.selfDialFails && (net.kubeletDialFails || net.registerFails)
    ensures err.Some? && (err.value.DialError? || err.value.RegisterError?)
    ensures !serverHeld && !socketLeft && later == None
  {
    var fs := new FileSystem(present, denied);
    var p := new SmarterDevicePlugin(nDevices, deviceFile, resourceName, socket);
    err := p.Serve(fs, net);
    serverHeld := p.server;
    socketLeft := socket in fs.present;
    later := p.Stop(fs);
  }

  /**
   * A failed self-dial is returned without Stop: the instance keeps its server and its bound
   * socket, and no health check runs.
   */
  method SelfDialFailure(nDevices: nat, deviceFile: string, resourceName: string, socket: string,
                         present: set<string>, denied: set<string>, net: Net)
    returns (err: Option<Error>, serverHeld: bool, socketLeft: bool, healthchecks: nat)
    requires socket !in denied
    requires !net.listenFails && net.selfDialFails
    ensures err == Some(DialError(socket)) && serverHeld && socketLeft && healthchecks == 0
  {
    var fs := new FileSystem(present, denied);
    var p := new SmarterDevicePlugin(nDevices, deviceFile, resourceName, socket);
    err := p.Serve(fs, net);
    serverHeld := p.server;
    socketLeft := socket in fs.present;
    healthchecks := p.healthchecks;
  }

  /**
   * The same double close inside Serve: an instance that was served and stopped, then
   * served again with a failing registration, panics in the Stop that Serve calls instead
   * of returning the registration error. The listener has unlinked the socket file by then.
   */
  method ServeAgainRegistrationFailurePanics(nDevices: nat, deviceFile: string, resourceName: string,
                                             socket: string, present: set<string>, denied: set<string>,
                                             good: Net, bad: Net)
    returns (first: Option<Error>, stopped: Option<Error>, second: Option<Error>, socketLeft: bool)
    requires socket !in denied
    requires !good.listenFails && !good.selfDialFails && !good.kubeletDialFails && !good.registerFails
    requires !bad.listenFails && !bad.selfDialFails && (bad.kubeletDialFails || bad.registerFails)
    ensures first == None && stopped == None
    ensures second == Some(ClosedChannelPanic) && !socketLeft
  {
    var fs := new FileSystem(present, denied);
    var p := new SmarterDevicePlugin(nDevices, deviceFile, resourceName, socket);
    first := p.Serve(fs, good);
    stopped := p.Stop(fs);
    second := p.Serve(fs, bad);
    socketLeft := socket in fs.present;
  }

  /**
   * Start does not make a new stop channel, so stopping an instance that was served, stopped
   * and started again closes the closed channel.
   */
  method RestartedInstancePanics(nDevices: nat, deviceFile: string, resourceName: string, socket: string,
                                 present: set<string>, denied: set<string>, net: Net)
    returns (err: Option<Error>)
    requires socket !in denied
    requires !net.listenFails && !net.selfDialFails && !net.kubeletDialFails && !net.registerFails
    ensures err == Some(ClosedChannelPanic)
  {
    var fs := new FileSystem(present, denied);
    var p := new SmarterDevicePlugin(nDevices, deviceFile, resourceName, socket);
    var _ := p.Serve(fs, net);
    var _ := p.Stop(fs);
    var _ := p.Start(fs, net);
    err := p.Stop(fs);
  }
}
