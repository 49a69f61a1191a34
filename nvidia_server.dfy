/**
 * The NVIDIA device plugin (nvidia-server.go). Its lifecycle (Start, Stop, Serve,
 * ListAndWatch) is that of the generic plugin; what differs is Allocate, which does not check
 * the requested ids and grants through an environment variable carrying the GPU's id, plus,
 * when device specs are passed, whichever NVIDIA control nodes exist on the host.
 */
module NvidiaServer {
  import opened Wrappers
  import opened PluginApi
  import opened Platform
  import opened Argus
  import opened Server

  /** The control nodes apiDeviceSpecs looks for, in the order it looks. */
  const NVIDIA_CONTROL_PATHS: seq<string> :=
    ["/dev/nvidiactl", "/dev/nvidia-uvm", "/dev/nvidia-uvm-tools", "/dev/nvidia-modeset"]

  /** The read-write grant of one node at the same path inside the container. */
  function NodeSpec(p: string): DeviceSpec {
    DeviceSpec(p, p, "rw")
  }

  /** The grants of those `paths` that exist, in order. */
  function ControlSpecs(paths: seq<string>, present: set<string>): seq<DeviceSpec> {
    if paths == [] then []
    else
      var init := ControlSpecs(paths[..|paths| - 1], present);
      var p := paths[|paths| - 1];
      if p in present then init + [NodeSpec(p)] else init
  }

  /**
   * The device specs are exactly the read-write grants of the existing listed paths: a grant
   * for every existing one, none for a missing one, and never more grants than paths.
   */
  lemma {:induction false} ControlSpecsMembers(paths: seq<string>, present: set<string>)
    ensures |ControlSpecs(paths, present)| <= |paths|
    ensures forall s :: s in ControlSpecs(paths, present) <==>
              s.containerPath in paths && s.containerPath in present && s == NodeSpec(s.containerPath)
  {
    if paths != [] {
      var init := paths[..|paths| - 1];
      ControlSpecsMembers(init, present);
      assert paths == init + [paths[|paths| - 1]];
    }
  }

  /** With every control node present, all four are granted, in the listed order. */
  lemma AllControlNodesPresent(present: set<string>)
    requires forall p :: p in NVIDIA_CONTROL_PATHS ==> p in present
    ensures ControlSpecs(NVIDIA_CONTROL_PATHS, present) ==
            [NodeSpec("/dev/nvidiactl"), NodeSpec("/dev/nvidia-uvm"),
             NodeSpec("/dev/nvidia-uvm-tools"), NodeSpec("/dev/nvidia-modeset")]
  {
    var ps := NVIDIA_CONTROL_PATHS;
    assert ps[..3][..2][..1][..0] == [];
    assert ps[..3][..2][..1] == ["/dev/nvidiactl"];
    assert ps[..3][..2] == ["/dev/nvidiactl", "/dev/nvidia-uvm"];
    assert ps[..3] == ["/dev/nvidiactl", "/dev/nvidia-uvm", "/dev/nvidia-uvm-tools"];
    assert ps[3] in present && ps[2] in present && ps[1] in present && ps[0] in present;
    assert ControlSpecs(ps[..3][..2][..1], present) == [NodeSpec(ps[0])];
    assert ControlSpecs(ps[..3][..2], present) == [NodeSpec(ps[0]), NodeSpec(ps[1])];
    assert ControlSpecs(ps[..3], present) == [NodeSpec(ps[0]), NodeSpec(ps[1]), NodeSpec(ps[2])];
  }

  /** The grant of one container: the variable set to the GPU id, and the given nodes. */
  function NvidiaGrant(allocateEnvvar: string, id: string, devices: seq<DeviceSpec>): ContainerResponse {
    ContainerResponse(map[allocateEnvvar := id], devices)
  }

  /** NvidiaDevicePlugin. */
  class NvidiaDevicePlugin {
    var devs: seq<Device>
    const socket: string
    const resourceName: string
    const allocateEnvvar: string
    const id: string

    var stopClosed: bool   // close(m.stop) has run
    var server: bool       // m.server != nil
    var healthchecks: nat  // healthcheck tasks launched so far

    /** NewNvidiaDevicePlugin. */
    constructor (nDevices: nat, resourceName0: string, allocateEnvvar0: string, socket0: string, id0: string)
      ensures devs == Replicas(nDevices)
      ensures socket == socket0 && resourceName == resourceName0 && allocateEnvvar == allocateEnvvar0 && id == id0
      ensures !server && !stopClosed && healthchecks == 0
    {
      var d := GetDevices(nDevices);
      devs := d;
      socket := socket0;
      resourceName := resourceName0;
      allocateEnvvar := allocateEnvvar0;
      id := id0;
      stopClosed := false;
      server := false;
      healthchecks := 0;
    }

    /** Start: as for the generic plugin, on this plugin's socket. */
    method Start(fs: FileSystem, net: Net) returns (err: Option<Error>)
      modifies this, fs
      ensures devs == old(devs) && stopClosed == old(stopClosed)
      ensures socket in fs.denied ==>
                err == Some(RemoveError(socket)) && server == old(server) &&
                healthchecks == old(healthchecks) && fs.present == old(fs.present)
      ensures socket !in fs.denied && net.listenFails ==>
                err == Some(ListenError(socket)) && server == old(server) &&
                healthchecks == old(healthchecks) && fs.present == old(fs.present) - {socket}
      ensures socket !in fs.denied && !net.listenFails ==>
                server && fs.present == old(fs.present) + {socket} &&
                err == (if net.selfDialFails then Some(DialError(socket)) else None) &&
                healthchecks == old(healthchecks) + (if net.selfDialFails then 0 else 1)
    {
      err := Cleanup(fs, socket);
      if err.Some? {
        return;
      }
      err := fs.Listen(socket, net.listenFails);
      if err.Some? {
        return;
      }
      server := true;
      if net.selfDialFails {
        return Some(DialError(socket));
      }
      healthchecks := healthchecks + 1;
      return None;
    }

    /** Stop: as for the generic plugin; a second close of the stop channel panics. */
    method Stop(fs: FileSystem) returns (err: Option<Error>)
      modifies this, fs
      ensures devs == old(devs) && healthchecks == old(healthchecks) && !server
      ensures !old(server) ==>
                err == None && stopClosed == old(stopClosed) && fs.present == old(fs.present)
      ensures old(server) && old(stopClosed) ==>
                err == Some(ClosedChannelPanic) && stopClosed &&
                fs.present == AfterCleanup(old(fs.present), fs.denied, socket)
      ensures old(server) && !old(stopClosed) ==>
                stopClosed && err == CleanupError(socket, fs.denied) &&
                fs.present == AfterCleanup(old(fs.present), fs.denied, socket)
    {
      if !server {
        return None;
      }
      server := false;
      // the server's Stop closes its unix listener, which unlinks the socket file
      var unlinked := fs.Remove(socket);
      if stopClosed {
        return Some(ClosedChannelPanic);
      }
      stopClosed := true;
      err := Cleanup(fs, socket);
    }

    /** Serve: Start, then Register; a registration error stops the instance first. */
    method Serve(fs: FileSystem, net: Net) returns (err: Option<Error>)
      modifies this, fs
      ensures devs == old(devs)
      ensures socket in fs.denied ==>
                err == Some(RemoveError(socket)) && server == old(server) && stopClosed == old(stopClosed) &&
                healthchecks == old(healthchecks) && fs.present == old(fs.present)
      ensures socket !in fs.denied && net.listenFails ==>
                err == Some(ListenError(socket)) && server == old(server) && stopClosed == old(stopClosed) &&
                healthchecks == old(healthchecks) && fs.present == old(fs.present) - {socket}
      ensures socket !in fs.denied && !net.listenFails && net.selfDialFails ==>
                err == Some(DialError(socket)) && server && stopClosed == old(stopClosed) &&
                healthchecks == old(healthchecks) && fs.present == old(fs.present) + {socket}
      ensures socket !in fs.denied && !net.listenFails && !net.selfDialFails ==>
                healthchecks == old(healthchecks) + 1 &&
                var reg := Registration(socket, KUBELET_SOCKET, resourceName, net);
                (reg.Err? ==> err == (if old(stopClosed) then Some(ClosedChannelPanic) else Some(reg.error)) &&
                              !server && stopClosed &&
                              fs.present == old(fs.present) - {socket}) &&
                (reg.Ok? ==> err == None && server && stopClosed == old(stopClosed) &&
                             fs.present == old(fs.present) + {socket})
    {
      err := Start(fs, net);
      if err.Some? {
        return;
      }
      var reg := Registration(socket, KUBELET_SOCKET, resourceName, net);
      if reg.Err? {
        // Stop closes the stop channel; on an instance stopped before, that close panics
        var stopped := Stop(fs);
        if stopped == Some(ClosedChannelPanic) {
          return stopped;
        }
        return Some(reg.error);
      }
      return None;
    }

    /** ListAndWatch: as for the generic plugin. */
    method ListAndWatch(inputs: seq<WatchInput>) returns (sent: seq<seq<Device>>)
      modifies this`devs
      ensures sent == [old(devs)] + Sends(old(devs), inputs)
      ensures devs == sent[|sent| - 1]
    {
      sent := [devs];
      ghost var first := devs;
      var k := 0;
      while k < |inputs|
        invariant 0 <= k <= |inputs|
        invariant sent != [] && devs == sent[|sent| - 1]
        invariant sent + Sends(devs, inputs[k..]) == [first] + Sends(first, inputs)
      {
        assert inputs[k..][0] == inputs[k];
        match inputs[k]
        case StopFired =>
          return;
        case HealthEvent(i) =>
          assert inputs[k..][1..] == inputs[k + 1..];
          devs := MarkUnhealthy(devs, i);
          sent := sent + [devs];
          k := k + 1;
      }
      assert inputs[k..] == [];
    }

    /**
     * apiDeviceSpecs: a read-write grant of each NVIDIA control node that exists on the host.
     * The requested ids (`filter`) play no part.
     */
    method ApiDeviceSpecs(filter: seq<string>, fs: FileSystem) returns (specs: seq<DeviceSpec>)
      ensures specs == ControlSpecs(NVIDIA_CONTROL_PATHS, fs.present)
      ensures forall s :: s in specs <==>
                s.containerPath in NVIDIA_CONTROL_PATHS && s.containerPath in fs.present &&
                s == NodeSpec(s.containerPath)
    {
      var paths := NVIDIA_CONTROL_PATHS;
      specs := [];
      for k := 0 to |paths|
        invariant specs == ControlSpecs(paths[..k], fs.present)
      {
        assert paths[..k + 1][..k] == paths[..k];
        var p := paths[k];
        if p in fs.present {
          specs := specs + [NodeSpec(p)];
        }
      }
      assert paths[..|paths|] == paths;
      ControlSpecsMembers(paths, fs.present);
    }

    /**
     * Allocate: one response per container request, each setting the allocation variable to
     * this plugin's GPU id and, when device specs are passed, granting the existing control
     * nodes. It never fails: the requested ids are not checked.
     */
    method Allocate(reqs: seq<ContainerRequest>, passDeviceSpecs: bool, fs: FileSystem)
      returns (r: Result<seq<ContainerResponse>>)
      ensures r.Ok? && |r.value| == |reqs|
      ensures forall k :: 0 <= k < |reqs| ==>
                r.value[k].envs == map[allocateEnvvar := id] &&
                r.value[k].devices == (if passDeviceSpecs then ControlSpecs(NVIDIA_CONTROL_PATHS, fs.present) else [])
    {
      var responses: seq<ContainerResponse> := [];
      for i := 0 to |reqs|
        invariant |responses| == i
        invariant forall k :: 0 <= k < i ==>
                    responses[k].envs == map[allocateEnvvar := id] &&
                    responses[k].devices == (if passDeviceSpecs then ControlSpecs(NVIDIA_CONTROL_PATHS, fs.present) else [])
      {
        var response := NvidiaGrant(allocateEnvvar, id, []);
        if passDeviceSpecs {
          var specs := ApiDeviceSpecs(reqs[i].devicesIds, fs);
          response := response.(devices := specs);
        }
        responses := responses + [response];
      }
      return Ok(responses);
    }
  }

  /**
   * The GPU plugin grants the same thing for any ids, advertised or not: two requests of the
   * same number of containers get the same answer.
   */
  method AllocateIgnoresIds(nDevices: nat, resourceName: string, allocateEnvvar: string, socket: string,
                            gpuId: string, a: seq<ContainerRequest>, b: seq<ContainerRequest>,
                            passDeviceSpecs: bool, present: set<string>)
    returns (ra: Result<seq<ContainerResponse>>, rb: Result<seq<ContainerResponse>>)
    requires |a| == |b|
    ensures ra == rb
    ensures ra.Ok? && |ra.value| == |a|
    ensures forall k :: 0 <= k < |ra.value| ==>
              allocateEnvvar in ra.value[k].envs && ra.value[k].envs[allocateEnvvar] == gpuId
  {
    var fs := new FileSystem(present, {});
    var p := new NvidiaDevicePlugin(nDevices, resourceName, allocateEnvvar, socket, gpuId);
    ra := p.Allocate(a, passDeviceSpecs, fs);
    rb := p.Allocate(b, passDeviceSpecs, fs);
    assert |ra.value| == |rb.value|;
    forall k | 0 <= k < |ra.value| ensures ra.value[k] == rb.value[k] {
      assert ra.value[k].envs == rb.value[k].envs && ra.value[k].devices == rb.value[k].devices;
    }
    assert ra.value == rb.value;
  }
}
