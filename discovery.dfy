/**
 * Discovery and descriptor construction (main.go:22-42, 72-164): each configured entry is
 * matched against a directory listing, and every matching name yields one DeviceInstance.
 *
 * The entry "nvidia-gpu" is matched with the fixed pattern "gpu.[0-9]*" against the listing
 * of /sys/devices; every other entry is matched with its own pattern against the listing of
 * /dev. The listings are inputs (the model does not read directories), and the regular
 * expression engine is abstract: a Regexp says which patterns compile and what they match.
 * Matched names are used as they are: nothing replaces a '/' in them, and the scan of /dev
 * covers its top level only.
 */
module Discovery {
  import opened Wrappers
  import opened Platform
  import PluginApi

  /** The two variants of main.go:22-25 (deviceFileType = 0, nvidiaSysType = 1). */
  datatype DeviceType = DeviceFileType | NvidiaSysType

  /** One entry of the configuration file. */
  datatype DesiredDevice = DesiredDevice(deviceMatch: string, numMaxDevices: nat)

  /**
   * One resource to serve. `smarterPlugin` and `nvidiaPlugin` stand for the two plugin
   * pointer fields: true when the pointer is set. Nothing ever sets them in the list the
   * orchestrator keeps, because its loops assign to a copy of each element.
   */
  datatype DeviceInstance = DeviceInstance(
    smarterPlugin: bool,
    nvidiaPlugin: bool,
    deviceName: string,
    socketName: string,
    deviceFile: string,
    numDevices: nat,
    deviceType: DeviceType,
    deviceId: string)

  /**
   * The regular expression engine seen from outside: `valid(p)` when regexp.MatchString
   * can compile `p`, and `matches(p, s)` when `p` matches somewhere in `s`.
   */
  datatype Regexp = Regexp(valid: string -> bool, matches: (string, string) -> bool)

  const NVIDIA_MATCH: string := "nvidia-gpu"
  const NVIDIA_SYS_PATTERN: string := "gpu.[0-9]*"
  const GPU_PREFIX: string := "gpu."

  /** The names of `names` that `pattern` matches, in their order. */
  function Matching(names: seq<string>, pattern: string, re: Regexp): seq<string> {
    if names == [] then []
    else
      var last := names[|names| - 1];
      Matching(names[..|names| - 1], pattern, re) + (if re.matches(pattern, last) then [last] else [])
  }

  /** What findDevicesPattern returns: an error only if some name had to be matched. */
  function FindResult(names: seq<string>, pattern: string, re: Regexp): Result<seq<string>> {
    if names != [] && !re.valid(pattern) then Err(PatternError(pattern))
    else Ok(Matching(names, pattern, re))
  }

  /**
   * findDevicesPattern: keeps the names that match. A pattern that does not compile makes
   * the very first match attempt fail, and the partial list is dropped.
   */
  method FindDevicesPattern(listDevices: seq<string>, pattern: string, re: Regexp)
    returns (r: Result<seq<string>>)
    ensures r == FindResult(listDevices, pattern, re)
    ensures listDevices == [] ==> r == Ok([])
    ensures r.Err? <==> listDevices != [] && !re.valid(pattern)
  {
    var found: seq<string> := [];
    for k := 0 to |listDevices|
      invariant found == Matching(listDevices[..k], pattern, re)
      invariant k > 0 ==> re.valid(pattern)
    {
      if !re.valid(pattern) {
        return Err(PatternError(pattern));
      }
      var file := listDevices[k];
      assert listDevices[..k + 1][..k] == listDevices[..k];
      if re.matches(pattern, file) {
        found := found + [file];
      }
    }
    assert listDevices[..|listDevices|] == listDevices;
    return Ok(found);
  }

  /** The descriptor of one matched /sys/devices entry (main.go:130-137). */
  function NvidiaInstance(sysName: string, numMaxDevices: nat): (d: DeviceInstance)
    ensures d.deviceType == NvidiaSysType && d.numDevices == numMaxDevices
    ensures !d.smarterPlugin && !d.nvidiaPlugin
    ensures HasPrefix(sysName, GPU_PREFIX) ==> GPU_PREFIX + d.deviceId == sysName
    ensures !HasPrefix(sysName, GPU_PREFIX) ==> d.deviceId == sysName
    ensures d.deviceFile == d.deviceId
    ensures d.deviceName == "smarter-devices/nvidia-gpu" + d.deviceId
    ensures d.socketName == PluginApi.DEVICE_PLUGIN_PATH + "smarter-nvidia-gpu" + d.deviceId + ".sock"
  {
    var deviceId := TrimPrefix(sysName, GPU_PREFIX);
    DeviceInstance(
      smarterPlugin := false,
      nvidiaPlugin := false,
      deviceName := "smarter-devices/" + "nvidia-gpu" + deviceId,
      socketName := PluginApi.DEVICE_PLUGIN_PATH + "smarter-nvidia-gpu" + deviceId + ".sock",
      deviceFile := deviceId,
      numDevices := numMaxDevices,
      deviceType := NvidiaSysType,
      deviceId := deviceId)
  }

  /** The descriptor of one matched /dev entry (main.go:153-158). */
  function GenericInstance(devName: string, numMaxDevices: nat): (d: DeviceInstance)
    ensures d.deviceType == DeviceFileType && d.deviceId == "" && d.numDevices == numMaxDevices
    ensures !d.smarterPlugin && !d.nvidiaPlugin
    ensures "smarter-devices/" <= d.deviceName && d.deviceName[16..] == devName
    ensures "/dev/" <= d.deviceFile && d.deviceFile[5..] == devName
    ensures d.socketName == PluginApi.DEVICE_PLUGIN_PATH + "smarter-" + devName + ".sock"
  {
    DeviceInstance(
      smarterPlugin := false,
      nvidiaPlugin := false,
      deviceName := "smarter-devices/" + devName,
      socketName := PluginApi.DEVICE_PLUGIN_PATH + "smarter-" + devName + ".sock",
      deviceFile := "/dev/" + devName,
      numDevices := numMaxDevices,
      deviceType := DeviceFileType,
      deviceId := "")
  }

  /** The listing and the pattern an entry is matched with. */
  function EntryListing(entry: DesiredDevice, devNames: seq<string>, sysNames: seq<string>): seq<string> {
    if entry.deviceMatch == NVIDIA_MATCH then sysNames else devNames
  }

  function EntryPattern(entry: DesiredDevice): string {
    if entry.deviceMatch == NVIDIA_MATCH then NVIDIA_SYS_PATTERN else entry.deviceMatch
  }

  function Instance(entry: DesiredDevice, name: string): DeviceInstance {
    if entry.deviceMatch == NVIDIA_MATCH then NvidiaInstance(name, entry.numMaxDevices)
    else GenericInstance(name, entry.numMaxDevices)
  }

  function Instances(entry: DesiredDevice, names: seq<string>): seq<DeviceInstance> {
    seq(|names|, i requires 0 <= i < |names| => Instance(entry, names[i]))
  }

  /** The entry's matches, or the pattern error that stops the program (os.Exit(1)). */
  function EntryMatches(entry: DesiredDevice, devNames: seq<string>, sysNames: seq<string>, re: Regexp)
    : Result<seq<string>>
  {
    FindResult(EntryListing(entry, devNames, sysNames), EntryPattern(entry), re)
  }

  /** The reference result of the descriptor-building loop over the configuration. */
  function Descriptors(entries: seq<DesiredDevice>, devNames: seq<string>, sysNames: seq<string>, re: Regexp)
    : Result<seq<DeviceInstance>>
  {
    if entries == [] then Ok([])
    else
      var entry := entries[|entries| - 1];
      match Descriptors(entries[..|entries| - 1], devNames, sysNames, re)
      case Err(e) => Err(e)
      case Ok(done) =>
        match EntryMatches(entry, devNames, sysNames, re)
        case Err(e) => Err(e)
        case Ok(found) => Ok(done + Instances(entry, found))
  }

  /** The loop of main.go:118-164 that fills listDevicesAvailable. */
  method BuildDescriptors(desiredDevices: seq<DesiredDevice>, existingDevices: seq<string>,
                          existingDevicesSys: seq<string>, re: Regexp)
    returns (r: Result<seq<DeviceInstance>>)
    ensures r == Descriptors(desiredDevices, existingDevices, existingDevicesSys, re)
  {
    var listDevicesAvailable: seq<DeviceInstance> := [];
    for k := 0 to |desiredDevices|
      invariant Descriptors(desiredDevices[..k], existingDevices, existingDevicesSys, re) == Ok(listDevicesAvailable)
    {
      var deviceToTest := desiredDevices[k];
      assert desiredDevices[..k + 1][..k] == desiredDevices[..k];
      var foundDevices: Result<seq<string>>;
      if deviceToTest.deviceMatch == NVIDIA_MATCH {
        foundDevices := FindDevicesPattern(existingDevicesSys, NVIDIA_SYS_PATTERN, re);
      } else {
        foundDevices := FindDevicesPattern(existingDevices, deviceToTest.deviceMatch, re);
      }
      if foundDevices.Err? {
        DescriptorsErrPrefix(desiredDevices, k + 1, existingDevices, existingDevicesSys, re);
        return Err(foundDevices.error);
      }
      var found := foundDevices.value;
      ghost var before := listDevicesAvailable;
      for j := 0 to |found|
        invariant listDevicesAvailable == before + Instances(deviceToTest, found[..j])
      {
        var newDevice: DeviceInstance;
        if deviceToTest.deviceMatch == NVIDIA_MATCH {
          newDevice := NvidiaInstance(found[j], deviceToTest.numMaxDevices);
        } else {
          newDevice := GenericInstance(found[j], deviceToTest.numMaxDevices);
        }
        listDevicesAvailable := listDevicesAvailable + [newDevice];
      }
      assert found[..|found|] == found;
    }
    assert desiredDevices[..|desiredDevices|] == desiredDevices;
    return Ok(listDevicesAvailable);
  }

  // ---------------------------------------------------------------------------------------
  // properties of matching

  /** A name is kept exactly when it is in the listing and the pattern matches it. */
  lemma {:induction false} MatchingMembers(names: seq<string>, pattern: string, re: Regexp, x: string)
    ensures x in Matching(names, pattern, re) <==> x in names && re.matches(pattern, x)
  {
    if names != [] {
      var init := names[..|names| - 1];
      MatchingMembers(init, pattern, re, x);
      assert names == init + [names[|names| - 1]];
    }
  }

  /** Matching goes name by name: matching a concatenation concatenates the results. */
  lemma {:induction false} MatchingAppend(a: seq<string>, b: seq<string>, pattern: string, re: Regexp)
    ensures Matching(a + b, pattern, re) == Matching(a, pattern, re) + Matching(b, pattern, re)
    decreases |b|
  {
    if b == [] {
      assert a + b == a;
    } else {
      var init := b[..|b| - 1];
      assert (a + b)[..|a + b| - 1] == a + init;
      MatchingAppend(a, init, pattern, re);
    }
  }

  /** No name is invented: the result is never longer than the listing. */
  lemma {:induction false} MatchingLength(names: seq<string>, pattern: string, re: Regexp)
    ensures |Matching(names, pattern, re)| <= |names|
    ensures (forall k :: 0 <= k < |names| ==> re.matches(pattern, names[k])) ==> Matching(names, pattern, re) == names
  {
    if names != [] {
      var init := names[..|names| - 1];
      MatchingLength(init, pattern, re);
      assert names == init + [names[|names| - 1]];
      if forall k :: 0 <= k < |names| ==> re.matches(pattern, names[k]) {
        assert forall k :: 0 <= k < |init| ==> init[k] == names[k];
        assert Matching(names, pattern, re) == Matching(init, pattern, re) + [names[|names| - 1]];
      }
    }
  }

  // ---------------------------------------------------------------------------------------
  // properties of the descriptor list

  predicate EntryOk(entry: DesiredDevice, devNames: seq<string>, sysNames: seq<string>, re: Regexp) {
    EntryMatches(entry, devNames, sysNames, re).Ok?
  }

  /** How many descriptors an entry contributes: its number of matches. */
  function MatchCount(entry: DesiredDevice, devNames: seq<string>, sysNames: seq<string>, re: Regexp): nat {
    |Matching(EntryListing(entry, devNames, sysNames), EntryPattern(entry), re)|
  }

  function TotalMatches(entries: seq<DesiredDevice>, devNames: seq<string>, sysNames: seq<string>, re: Regexp): nat {
    if entries == [] then 0
    else TotalMatches(entries[..|entries| - 1], devNames, sysNames, re)
         + MatchCount(entries[|entries| - 1], devNames, sysNames, re)
  }

  /**
   * Building fails exactly when some entry's pattern does not compile and its listing is not
   * empty, and on success there is one descriptor per match, entry by entry.
   */
  lemma {:induction false} DescriptorsOkIff(entries: seq<DesiredDevice>, devNames: seq<string>,
                                            sysNames: seq<string>, re: Regexp)
    ensures Descriptors(entries, devNames, sysNames, re).Ok? <==>
            forall k :: 0 <= k < |entries| ==> EntryOk(entries[k], devNames, sysNames, re)
    ensures Descriptors(entries, devNames, sysNames, re).Ok? ==>
            |Descriptors(entries, devNames, sysNames, re).value| == TotalMatches(entries, devNames, sysNames, re)
  {
    if entries != [] {
      var init := entries[..|entries| - 1];
      DescriptorsOkIff(init, devNames, sysNames, re);
      assert forall k :: 0 <= k < |init| ==> init[k] == entries[k];
    }
  }

  /** The error that stops the program names the pattern of an entry whose listing is not empty. */
  lemma {:induction false} DescriptorsErr(entries: seq<DesiredDevice>, devNames: seq<string>,
                                          sysNames: seq<string>, re: Regexp)
    requires Descriptors(entries, devNames, sysNames, re).Err?
    ensures exists k :: 0 <= k < |entries| &&
              Descriptors(entries, devNames, sysNames, re).error == PatternError(EntryPattern(entries[k])) &&
              EntryListing(entries[k], devNames, sysNames) != [] && !re.valid(EntryPattern(entries[k]))
  {
    var init := entries[..|entries| - 1];
    if Descriptors(init, devNames, sysNames, re).Err? {
      DescriptorsErr(init, devNames, sysNames, re);
      var k :| 0 <= k < |init| &&
               Descriptors(init, devNames, sysNames, re).error == PatternError(EntryPattern(init[k])) &&
               EntryListing(init[k], devNames, sysNames) != [] && !re.valid(EntryPattern(init[k]));
      assert init[k] == entries[k];
    } else {
      assert entries[|entries| - 1] == entries[|entries| - 1];
    }
  }

  /** Once an entry fails, the loop stops: the whole configuration fails with that error. */
  lemma {:induction false} DescriptorsErrPrefix(entries: seq<DesiredDevice>, k: nat, devNames: seq<string>,
                                                sysNames: seq<string>, re: Regexp)
    requires k <= |entries|
    requires Descriptors(entries[..k], devNames, sysNames, re).Err?
    ensures Descriptors(entries, devNames, sysNames, re) == Descriptors(entries[..k], devNames, sysNames, re)
    decreases |entries| - k
  {
    if k < |entries| {
      assert entries[..k + 1][..k] == entries[..k];
      DescriptorsErrPrefix(entries, k + 1, devNames, sysNames, re);
    } else {
      assert entries[..k] == entries;
    }
  }

  /** Every descriptor carries its entry's replica count and the variant the entry selects. */
  lemma InstanceFields(entry: DesiredDevice, name: string)
    ensures Instance(entry, name).numDevices == entry.numMaxDevices
    ensures Instance(entry, name).deviceType == (if entry.deviceMatch == NVIDIA_MATCH then NvidiaSysType else DeviceFileType)
    ensures !Instance(entry, name).smarterPlugin && !Instance(entry, name).nvidiaPlugin
  {
  }

  /** No descriptor discovery builds has a plugin pointer set. */
  lemma {:induction false} DescriptorsDetached(entries: seq<DesiredDevice>, devNames: seq<string>,
                                               sysNames: seq<string>, re: Regexp)
    requires Descriptors(entries, devNames, sysNames, re).Ok?
    ensures forall k :: 0 <= k < |Descriptors(entries, devNames, sysNames, re).value| ==>
              !Descriptors(entries, devNames, sysNames, re).value[k].smarterPlugin &&
              !Descriptors(entries, devNames, sysNames, re).value[k].nvidiaPlugin
  {
    if entries != [] {
      DescriptorsDetached(entries[..|entries| - 1], devNames, sysNames, re);
    }
  }

  // ---------------------------------------------------------------------------------------
  // properties of the descriptors themselves

  /**
   * For a /sys/devices entry "gpu.<id>" the id is what follows the prefix, and it names the
   * resource, the socket and the device file.
   */
  lemma NvidiaInstanceOfGpu(id: string, n: nat)
    ensures NvidiaInstance(GPU_PREFIX + id, n).deviceId == id
    ensures NvidiaInstance(GPU_PREFIX + id, n).deviceFile == id
    ensures NvidiaInstance(GPU_PREFIX + id, n).deviceName == "smarter-devices/nvidia-gpu" + id
    ensures NvidiaInstance(GPU_PREFIX + id, n).socketName == PluginApi.DEVICE_PLUGIN_PATH + "smarter-nvidia-gpu" + id + ".sock"
  {
    assert TrimPrefix(GPU_PREFIX + id, GPU_PREFIX) == id by {
      assert GPU_PREFIX <= GPU_PREFIX + id;
    }
  }

  /** A name without the "gpu." prefix is used whole as the id. */
  lemma NvidiaInstanceWithoutPrefix(sysName: string, n: nat)
    requires !HasPrefix(sysName, GPU_PREFIX)
    ensures NvidiaInstance(sysName, n).deviceId == sysName
  {
  }

  /** Distinct /dev names give distinct resource names, socket paths and device files. */
  lemma {:induction false} GenericInstanceInjective(a: string, b: string, n: nat, m: nat)
    requires a != b
    ensures GenericInstance(a, n).deviceName != GenericInstance(b, m).deviceName
    ensures GenericInstance(a, n).socketName != GenericInstance(b, m).socketName
    ensures GenericInstance(a, n).deviceFile != GenericInstance(b, m).deviceFile
  {
    var p := "smarter-devices/";
    assert (p + a)[|p|..] == a && (p + b)[|p|..] == b;
    var d := "/dev/";
    assert (d + a)[|d|..] == a && (d + b)[|d|..] == b;
    var s := PluginApi.DEVICE_PLUGIN_PATH + "smarter-";
    var x := PluginApi.DEVICE_PLUGIN_PATH + "smarter-" + a + ".sock";
    var y := PluginApi.DEVICE_PLUGIN_PATH + "smarter-" + b + ".sock";
    assert x == s + a + ".sock" && y == s + b + ".sock";
    assert |x| == |s| + |a| + 5 && |y| == |s| + |b| + 5;
    assert x[|s|..|s| + |a|] == a && y[|s|..|s| + |b|] == b;
  }

  /** Distinct "gpu.<id>" names give distinct nvidia resources and sockets. */
  lemma {:induction false} NvidiaInstanceInjective(a: string, b: string, n: nat, m: nat)
    requires a != b
    ensures NvidiaInstance(GPU_PREFIX + a, n).deviceName != NvidiaInstance(GPU_PREFIX + b, m).deviceName
    ensures NvidiaInstance(GPU_PREFIX + a, n).socketName != NvidiaInstance(GPU_PREFIX + b, m).socketName
  {
    NvidiaInstanceOfGpu(a, n);
    NvidiaInstanceOfGpu(b, m);
    var p := "smarter-devices/nvidia-gpu";
    assert (p + a)[|p|..] == a && (p + b)[|p|..] == b;
    var s := PluginApi.DEVICE_PLUGIN_PATH + "smarter-nvidia-gpu";
    var x := PluginApi.DEVICE_PLUGIN_PATH + "smarter-nvidia-gpu" + a + ".sock";
    var y := PluginApi.DEVICE_PLUGIN_PATH + "smarter-nvidia-gpu" + b + ".sock";
    assert x == s + a + ".sock" && y == s + b + ".sock";
    assert |x| == |s| + |a| + 5 && |y| == |s| + |b| + 5;
    assert x[|s|..|s| + |a|] == a && y[|s|..|s| + |b|] == b;
  }

  /**
   * The socket's file name, which is what registration sends as the endpoint, is
   * "smarter-<name>.sock" for a /dev name without '/'.
   */
  lemma GenericSocketBase(devName: string, n: nat)
    requires '/' !in devName
    ensures Base(GenericInstance(devName, n).socketName) == "smarter-" + devName + ".sock"
  {
    var dir := PluginApi.DEVICE_PLUGIN_PATH;
    var file := "smarter-" + devName + ".sock";
    assert GenericInstance(devName, n).socketName == dir + file;
    assert '/' !in file by {
      forall k | 0 <= k < |file| ensures file[k] != '/' {
        if k < 8 {
        } else if k < 8 + |devName| {
          assert file[k] == devName[k - 8];
        } else {
        }
      }
    }
    BaseOfJoin(dir, file);
  }

  /**
   * Resource names are not guaranteed unique: a /dev entry "nvidia-gpu0" and a /sys/devices
   * entry "gpu.0" yield the same resource name and the same socket path.
   */
  lemma GenericAndNvidiaCanCollide(n: nat, m: nat)
    ensures GenericInstance("nvidia-gpu0", n).deviceName == NvidiaInstance("gpu.0", m).deviceName
    ensures GenericInstance("nvidia-gpu0", n).socketName == NvidiaInstance("gpu.0", m).socketName
  {
    NvidiaInstanceOfGpu("0", m);
  }

  /**
   * Nor within the nvidia family: when the unanchored pattern accepts both "gpu0" and
   * "gpu.gpu0" in /sys/devices, the one nvidia entry yields two descriptors that are
   * identical, since "gpu0" lacks the "gpu." prefix and keeps its whole name as the id.
   */
  lemma NvidiaNamesCanCollide(re: Regexp, devNames: seq<string>, n: nat)
    requires re.valid(NVIDIA_SYS_PATTERN)
    requires re.matches(NVIDIA_SYS_PATTERN, "gpu0") && re.matches(NVIDIA_SYS_PATTERN, "gpu.gpu0")
    ensures NvidiaInstance("gpu0", n) == NvidiaInstance("gpu.gpu0", n)
    ensures Descriptors([DesiredDevice(NVIDIA_MATCH, n)], devNames, ["gpu0", "gpu.gpu0"], re)
            == Ok([NvidiaInstance("gpu0", n), NvidiaInstance("gpu0", n)])
  {
    NvidiaInstanceOfGpu("gpu0", n);
    assert !HasPrefix("gpu0", GPU_PREFIX) by {
      assert "gpu0"[3] != GPU_PREFIX[3];
    }
    var entries := [DesiredDevice(NVIDIA_MATCH, n)];
    var sysNames := ["gpu0", "gpu.gpu0"];
    assert entries[..|entries| - 1] == [];
    assert Descriptors(entries[..|entries| - 1], devNames, sysNames, re) == Ok([]);
    assert sysNames[..1][..0] == [];
    assert Matching(sysNames[..1], NVIDIA_SYS_PATTERN, re) == ["gpu0"];
    assert sysNames[..1] == sysNames[..|sysNames| - 1];
    assert Matching(sysNames, NVIDIA_SYS_PATTERN, re) == sysNames;
    assert EntryMatches(entries[0], devNames, sysNames, re) == Ok(sysNames);
    assert Instances(entries[0], sysNames) == [NvidiaInstance("gpu0", n), NvidiaInstance("gpu.gpu0", n)];
    assert Descriptors(entries, devNames, sysNames, re) == Ok([] + Instances(entries[0], sysNames));
    assert [] + Instances(entries[0], sysNames) == [NvidiaInstance("gpu0", n), NvidiaInstance("gpu0", n)];
  }

  // ---------------------------------------------------------------------------------------
  // worked configurations

  /**
   * Configuration [{ttyUSB[0-9]+, 2}] over /dev = [ttyUSB0, ttyUSB1, ttyACM0]: one descriptor
   * per matched name, each advertising two replicas.
   */
  lemma TtyUsbConfiguration(re: Regexp, sysNames: seq<string>)
    requires re.valid("ttyUSB[0-9]+")
    requires re.matches("ttyUSB[0-9]+", "ttyUSB0") && re.matches("ttyUSB[0-9]+", "ttyUSB1")
    requires !re.matches("ttyUSB[0-9]+", "ttyACM0")
    ensures Descriptors([DesiredDevice("ttyUSB[0-9]+", 2)], ["ttyUSB0", "ttyUSB1", "ttyACM0"], sysNames, re)
            == Ok([GenericInstance("ttyUSB0", 2), GenericInstance("ttyUSB1", 2)])
  {
    var entries := [DesiredDevice("ttyUSB[0-9]+", 2)];
    var devNames := ["ttyUSB0", "ttyUSB1", "ttyACM0"];
    assert entries[..|entries| - 1] == [];
    assert Descriptors(entries[..|entries| - 1], devNames, sysNames, re) == Ok([]);
    assert "ttyUSB[0-9]+" != NVIDIA_MATCH by {
      assert "ttyUSB[0-9]+"[0] != NVIDIA_MATCH[0];
    }
    var p := "ttyUSB[0-9]+";
    assert devNames[..1][..0] == [];
    assert Matching(devNames[..1], p, re) == ["ttyUSB0"];
    assert devNames[..2][..1] == devNames[..1];
    assert Matching(devNames[..2], p, re) == ["ttyUSB0", "ttyUSB1"];
    assert devNames[..2] == devNames[..|devNames| - 1];
    assert Matching(devNames, p, re) == ["ttyUSB0", "ttyUSB1"];
    assert EntryMatches(entries[0], devNames, sysNames, re) == Ok(["ttyUSB0", "ttyUSB1"]);
    assert Instances(entries[0], ["ttyUSB0", "ttyUSB1"]) == [GenericInstance("ttyUSB0", 2), GenericInstance("ttyUSB1", 2)];
    assert Descriptors(entries, devNames, sysNames, re) == Ok([] + Instances(entries[0], ["ttyUSB0", "ttyUSB1"]));
    assert [] + Instances(entries[0], ["ttyUSB0", "ttyUSB1"]) == [GenericInstance("ttyUSB0", 2), GenericInstance("ttyUSB1", 2)];
  }

  /**
   * Configuration [{nvidia-gpu, 1}] over /sys/devices = [gpu.0, gpu.1]: resources
   * smarter-devices/nvidia-gpu0 and smarter-devices/nvidia-gpu1, with ids "0" and "1".
   */
  lemma GpuConfiguration(re: Regexp, devNames: seq<string>)
    requires re.valid(NVIDIA_SYS_PATTERN)
    requires re.matches(NVIDIA_SYS_PATTERN, "gpu.0") && re.matches(NVIDIA_SYS_PATTERN, "gpu.1")
    ensures Descriptors([DesiredDevice(NVIDIA_MATCH, 1)], devNames, ["gpu.0", "gpu.1"], re)
            == Ok([NvidiaInstance("gpu.0", 1), NvidiaInstance("gpu.1", 1)])
    ensures NvidiaInstance("gpu.0", 1).deviceId == "0" && NvidiaInstance("gpu.1", 1).deviceId == "1"
    ensures NvidiaInstance("gpu.0", 1).deviceName == "smarter-devices/nvidia-gpu0"
    ensures NvidiaInstance("gpu.1", 1).deviceName == "smarter-devices/nvidia-gpu1"
  {
    var entries := [DesiredDevice(NVIDIA_MATCH, 1)];
    var sysNames := ["gpu.0", "gpu.1"];
    assert entries[..|entries| - 1] == [];
    assert Descriptors(entries[..|entries| - 1], devNames, sysNames, re) == Ok([]);
    assert sysNames[..1][..0] == [];
    assert Matching(sysNames[..1], NVIDIA_SYS_PATTERN, re) == ["gpu.0"];
    assert sysNames[..1] == sysNames[..|sysNames| - 1];
    assert Matching(sysNames, NVIDIA_SYS_PATTERN, re) == sysNames;
    assert EntryMatches(entries[0], devNames, sysNames, re) == Ok(sysNames);
    assert Instances(entries[0], sysNames) == [NvidiaInstance("gpu.0", 1), NvidiaInstance("gpu.1", 1)];
    assert Descriptors(entries, devNames, sysNames, re) == Ok([] + Instances(entries[0], sysNames));
    assert [] + Instances(entries[0], sysNames) == [NvidiaInstance("gpu.0", 1), NvidiaInstance("gpu.1", 1)];
    NvidiaInstanceOfGpu("0", 1);
    NvidiaInstanceOfGpu("1", 1);
  }
}
