# smarter-device-manager, modelled in Dafny

smarter-device-manager is a Kubernetes device plugin. It runs on a node and offers the node's
`/dev` devices, and its NVIDIA GPUs under `/sys/devices`, to the kubelet as schedulable
resources. The model covers these parts of it:

- **Discovery** (main.go). Each configuration entry holds a regular expression and a replica
  count. Discovery matches the entry against the directory names it has read and builds
  one descriptor per match.
  - A descriptor records the resource name, the plugin socket, the device file, the
    replica count and the plugin kind.
  - The special entry `nvidia-gpu` matches `gpu.[0-9]*` against `/sys/devices` instead.
- **Supervision** (main.go). A restart flag starts out true. While it is set, the loop
  stops the recorded plugins and then builds and serves a fresh plugin for every
  descriptor. After that it reads one event:
  - the kubelet's socket being created, or SIGHUP, sets the flag again;
  - watcher errors and any other filesystem event are ignored;
  - any other signal stops the recorded plugins and ends the loop.
- **Plugin instances** (server.go for `/dev` files, nvidia-server.go for GPUs). Each
  instance has a lifecycle:
  - `Start` clears a stale socket file, listens on the socket, probes its own server with a
    self-dial, and launches the health check;
  - `Stop` drops the server, closes the stop channel and removes the socket;
  - `Serve` is `Start` followed by registration with the kubelet.
- **Per-instance protocol operations.**
  - `ListAndWatch` marks devices Unhealthy on health events.
  - `Allocate` answers the kubelet's container requests.
  - The health check reads `DP_DISABLE_HEALTHCHECKS`.
- **Replicas** (argus.go). A resource with *n* replicas advertises *n* devices. Their ids
  are the one-character strings with code points 0 … n−1 (below the surrogate range).

## How the model is built

- Everything the program gets from outside is an input:
  - the names it reads from `/dev` and `/sys/devices`;
  - the parsed configuration;
  - the regular-expression engine, given as two functions: `valid(pattern)` and
    `matches(pattern, name)`;
  - the outcome of each network call, as a `Net` record;
  - the sequence of watcher events and signals;
  - what each `Serve` returns inside the supervision loop, as an oracle `serve(batch, index)`.
- The filesystem is a `FileSystem` object. It holds the set of paths that exist and the set
  of paths whose removal fails for a reason other than "does not exist".
- Each plugin instance is a class. Its fields mirror the Go struct:
  - the device list;
  - `server` stands for `m.server != nil`;
  - `stopClosed` records that `close(m.stop)` has run;
  - a count of launched health checks.
- Go's `break` inside the serve loop's `switch` leaves only the `switch`. So every
  descriptor is served in every batch, and the batch's error is that of the last `Serve`.
- The loops at main.go:182, 196 and 236 iterate over copies of the list elements. The
  plugin pointers they assign never reach the list, so the recorded pointers stay nil and
  the `Stop` calls there never run. The model keeps those pointers as two booleans on the
  descriptor. Discovery sets both to false, and nothing sets them afterwards.
- A batch whose last `Serve` fails is retried at once, without reading an event. This can
  repeat for ever, so the loop's reference semantics `Run` takes a `fuel` bound on the
  number of batches.
- Closing a closed channel panics in Go. The model returns the distinct error
  `ClosedChannelPanic` for it. This happens when an instance is served, stopped, started
  again and stopped again: `Start` never makes a new stop channel. `Stop` stops the server
  before the close, and closing the server's unix listener unlinks the socket file, so the
  file is gone when the panic happens.
- `string(i)` turns an integer into a single code point. Surrogates (0xD800–0xDFFF) and
  values above 0x10FFFF become U+FFFD. So the replica ids are distinct exactly when there
  are at most 0xD801 replicas.

What the code does not do, although one might expect it:

- Generic resource names and socket names are the matched name concatenated as is. Path
  separators are not replaced, so resource names can collide: across entries, a `/dev`
  name against a GPU (`GenericAndNvidiaCanCollide`), and within the one `nvidia-gpu` entry,
  two `/sys/devices` names that both match (`NvidiaNamesCanCollide`).
- `/dev` is read one level deep. There is no bounded recursive scan.
- A restart batch does not stop at the first failing `Serve`. Every descriptor is served,
  and only the last result decides whether the batch is retried.
- A failed batch is retried immediately, not on the next watcher or signal event.
- The `Stop` calls of the supervision loop never run, so previously served instances are
  never stopped by it.
- `Stop` is idempotent only until the instance is started again (see above).

## Model

| member | source | states |
|---|---|---|
| Argus.RuneString | argus.go:20 | `string(i)` is one character: code point `i`, or U+FFFD for surrogates and values past U+10FFFF |
| Argus.GetDevices | argus.go:16-26 | exactly `n` devices in index order, device `i` has id `string(i)` and is Healthy; equals `Replicas(n)` |
| Argus.DeviceExists | argus.go:28-35 | true iff some device carries the id; false on the empty list |
| Argus.RuneStringInjective | argus.go:18-22 | below 0xD801, distinct indices give distinct ids |
| Argus.ReplicaIdsDistinctIff | argus.go:18-22 | the replica ids are pairwise distinct iff n ≤ 0xD801 |
| Argus.HasIdDependsOnlyOnIds | argus.go:28-35 | lists with the same ids answer every lookup alike, whatever their health |
| Argus.HasIdReplicas | argus.go:16-35 | an id is found among n replicas iff it is `string(i)` for some i < n; an id of length ≠ 1 never is |
| Platform.TrimPrefix | main.go:131 | with the prefix present, prefix + result is the input; otherwise the input is unchanged |
| Platform.TrimTrailingSlashes | server.go:121 | the longest prefix of the path that does not end in '/': everything cut off is '/' |
| Platform.AfterLastSlash | server.go:121 | the longest suffix without '/': it is the whole path or preceded by '/'; non-empty when the path does not end in '/' |
| Platform.Base | server.go:121 | `path.Base`: "." for the empty path, "/" exactly for a path of slashes only, otherwise a '/'-free element of the path that starts the path or follows a '/' and is followed only by slashes |
| Platform.AfterLastSlashOfJoin | server.go:121 | after a directory ending in '/', the last element is the file name |
| Platform.BaseOfJoin | server.go:121 | the base of directory + file name is the file name |
| Platform.FileSystem.constructor | server.go:185 | a filesystem with the given existing and non-removable paths |
| Platform.FileSystem.Remove | server.go:185 | `os.Remove`: a removal error, or not-exist leaving everything, or the path removed |
| Platform.FileSystem.Listen | server.go:73-76 | binding fails on a taken path or a network failure; otherwise the socket file exists |
| Discovery.FindDevicesPattern | main.go:72-85 | the matching names in order; an error with no partial list iff the list is non-empty and the pattern invalid; an empty list gives an empty result even for a bad pattern |
| Discovery.BuildDescriptors | main.go:118-164 | the descriptor list the configuration loop builds equals `Descriptors`, stopping at the first pattern error |
| Discovery.MatchingMembers | main.go:72-85 | a name is kept iff it is listed and matches |
| Discovery.MatchingAppend | main.go:75-83 | filtering distributes over concatenation, so the original order is kept |
| Discovery.MatchingLength | main.go:72-85 | never more results than names; all names kept when all match |
| Discovery.DescriptorsOkIff | main.go:118-164 | discovery succeeds iff every entry's pattern search succeeds; then there is one descriptor per match across all entries |
| Discovery.DescriptorsErr | main.go:121-125 | a failure is the pattern error of an entry with a non-empty listing and an invalid pattern |
| Discovery.DescriptorsErrPrefix | main.go:122-125 | once an entry fails, the later entries do not matter (the program exits) |
| Discovery.DescriptorsDetached | main.go:130-159 | no descriptor has a plugin pointer set |
| Discovery.InstanceFields | main.go:136-158 | every descriptor carries its entry's replica count and the kind the entry selects |
| Discovery.NvidiaInstance | main.go:130-137 | a GPU descriptor: the id is the name without "gpu." (or the whole name), the device file is the id, resource name and socket are built from the id, the replica count is the entry's, no plugin pointer |
| Discovery.GenericInstance | main.go:153-158 | a /dev descriptor: empty id, resource name "smarter-devices/<name>", device file "/dev/<name>", socket "smarter-<name>.sock" in the plugin directory, the entry's replica count, no plugin pointer |
| Discovery.NvidiaInstanceOfGpu | main.go:131-137 | for "gpu.<id>": id, device file, resource name and socket are built from `<id>` |
| Discovery.NvidiaInstanceWithoutPrefix | main.go:131 | a name without "gpu." is used whole as the id |
| Discovery.GenericInstanceInjective | main.go:153-158 | distinct /dev names give distinct resource names, sockets and device files |
| Discovery.NvidiaInstanceInjective | main.go:131-134 | distinct GPU ids give distinct resource names and sockets |
| Discovery.GenericSocketBase | main.go:156 | the registered endpoint of a /dev device is "smarter-<name>.sock" |
| Discovery.GenericAndNvidiaCanCollide | main.go:132-134 | "nvidia-gpu0" in /dev and "gpu.0" in /sys/devices give the same resource name and socket |
| Discovery.NvidiaNamesCanCollide | main.go:121-137 | when the pattern accepts both "gpu0" and "gpu.gpu0", the `nvidia-gpu` entry over those two names yields two identical descriptors |
| Discovery.TtyUsbConfiguration | main.go:142-162 | a `ttyUSB[0-9]+` entry over [ttyUSB0, ttyUSB1, ttyACM0] gives the two generic descriptors of the matches, in order |
| Discovery.GpuConfiguration | main.go:119-141 | an `nvidia-gpu` entry over [gpu.0, gpu.1] gives two GPU descriptors with ids "0" and "1" |
| Server.Cleanup | server.go:183-190 | not-exist is swallowed, other removal errors are returned; afterwards the socket is absent on success |
| Server.Registration | server.go:111-130 | fails on a dial or registration failure; on success it sends version v1beta1, `path.Base(socket)` and the resource name |
| Server.RegistrationEndpoint | server.go:119-123 | a socket in the plugin directory registers under its file name |
| Platform.ToLower | server.go:193 | same length; each ASCII capital becomes its lower-case letter, every other character is kept; no capital remains |
| Platform.ContainsIffSlice | server.go:201 | `strings.Contains` holds iff the substring occurs at some position; the empty string is always contained; a contained string is no longer than the text |
| Server.DisabledHealthChecks | server.go:193-196 | the lowercased variable, with "all" widened to the list of every health check; never holds a capital |
| Server.XidsEnabled | server.go:192-204 | the xids source is made iff the lowercased value is not "all" and does not contain "xids" |
| Server.MarkUnhealthy | server.go:140-143 | the indicated device becomes Unhealthy, all others and all ids are unchanged |
| Server.NoRecoveryTransitive | server.go:140-143 | health degradation composes |
| Server.SendsNeverRecover | server.go:132-146 | along the stream the ids never change and no Unhealthy device becomes Healthy again |
| Server.SendsCount | server.go:136-144 | one list is sent per health event before the stop |
| Server.SendsEndAtStop | server.go:138-139 | nothing after the stop signal is sent |
| Server.FirstMissing | server.go:167-171 | none missing iff every id is advertised; otherwise a requested, unadvertised id |
| Server.FirstMissingAppend | server.go:156-171 | ids are checked request after request, in order |
| Server.AllIdsAppend | server.go:156-167 | the checked ids of concatenated requests concatenate |
| Server.AllIdsContains | server.go:156-167 | every id of every request is checked |
| Server.AllIdsFrom | server.go:156-167 | only requested ids are checked |
| Server.AllocateResultMeaning | server.go:153-177 | Allocate succeeds iff every requested id exists; then one response per request with one rw grant of the device file; otherwise the error names a requested unknown id |
| Server.PreStartContainer | server.go:179-181 | always answers with an empty response and no error |
| Server.GetDevicePluginOptions | server.go:236-238 | the default options: no PreStartContainer call is asked for |
| Server.SmarterDevicePlugin.constructor | server.go:37-48 | `getDevices(n)` as the list, fields copied, no server, stop channel open |
| Server.SmarterDevicePlugin.Start | server.go:67-93 | cleanup error aborts with nothing changed; listen error leaves `server` nil; self-dial failure returns with `server` set; only success launches the health check |
| Server.SmarterDevicePlugin.Stop | server.go:96-108 | no-op without a server; otherwise clears it, its listener unlinks the socket file, and it closes the stop channel and returns cleanup's result; a second close panics, with the socket file already unlinked |
| Server.SmarterDevicePlugin.Serve | server.go:217-234 | a Start error is returned without Stop; a Register error stops the instance, leaves no socket file and is returned, unless the stop channel was already closed, when that Stop panics (`ClosedChannelPanic`) instead; otherwise nil with the socket in place |
| Server.SmarterDevicePlugin.ListAndWatch | server.go:132-146 | sends the list, then the degraded list after each health event, until stop |
| Server.SmarterDevicePlugin.Allocate | server.go:153-177 | equals `AllocateResult`: all-or-nothing id validation with one rw grant per request |
| Server.MissingInRequest | server.go:167-170 | an unknown id preceded only by known ids of its request is that request's first unknown id |
| Server.MissingInPrefix | server.go:156-170 | an unknown id among the first requests stays the first unknown id when later requests follow |
| Server.SmarterDevicePlugin.MissingPropagates | server.go:156-170 | the first unknown id met by the loops is the first unknown id overall |
| Server.StopNeverStarted | server.go:96-100 | Stop on a never-started instance returns nil twice and changes nothing |
| Server.ServeThenStopTwice | server.go:96-108 | after a successful Serve the socket exists; Stop removes it; a second Stop is a no-op |
| Server.RegistrationFailure | server.go:225-230 | a failed registration leaves no server, no socket file, and a later Stop returns nil |
| Server.SelfDialFailure | server.go:84-87 | a failed self-dial keeps the server and socket and launches no health check |
| Server.ServeAgainRegistrationFailurePanics | server.go:217-230 | after a served and stopped instance, a Serve whose registration fails panics in its Stop and returns `ClosedChannelPanic`; the listener has already unlinked the socket file |
| Server.RestartedInstancePanics | server.go:67-108 | Serve, Stop, Start, Stop closes the stop channel twice |
| NvidiaServer.ControlSpecsMembers | nvidia-server.go:241-276 | the specs are exactly rw grants of the listed control nodes that exist, no more than four |
| NvidiaServer.AllControlNodesPresent | nvidia-server.go:244-260 | with every node present all four are granted, in the listed order |
| NvidiaServer.NvidiaDevicePlugin.constructor | nvidia-server.go:37-48 | `getDevices(n)`, the four strings copied, no server |
| NvidiaServer.NvidiaDevicePlugin.Start | nvidia-server.go:67-99 | as the generic Start |
| NvidiaServer.NvidiaDevicePlugin.Stop | nvidia-server.go:102-112 | no-op without a server; otherwise clears it, its listener unlinks the socket file, and it closes the stop channel and returns cleanup's result; a second close panics |
| NvidiaServer.NvidiaDevicePlugin.Serve | nvidia-server.go:218-235 | a Start error without Stop; a Register error after Stop, or `ClosedChannelPanic` when that Stop closes an already closed channel; otherwise nil |
| NvidiaServer.NvidiaDevicePlugin.ListAndWatch | nvidia-server.go:137-150 | sends the list, then the degraded list after each health event, until stop |
| NvidiaServer.NvidiaDevicePlugin.ApiDeviceSpecs | nvidia-server.go:241-276 | the existing control nodes in listed order, each rw at the same path; the filter is ignored |
| NvidiaServer.NvidiaDevicePlugin.Allocate | nvidia-server.go:157-179 | never fails; one response per request with envs exactly {allocateEnvvar: id}, devices only when specs are passed |
| NvidiaServer.AllocateIgnoresIds | nvidia-server.go:159-173 | any two requests of the same size get the same answer, advertised ids or not |
| Orchestrator.Dispatch | main.go:219-250 | exit iff a signal other than SIGHUP; restart iff the kubelet socket's Create or SIGHUP |
| Orchestrator.StopAll | main.go:182-193 | one Stop per descriptor whose pointer of the matching kind is set |
| Orchestrator.RestartBatch | main.go:195-211 | every descriptor is served; the batch's error is the last Serve's, nil for no descriptors |
| Orchestrator.Run | main.go:177-251 | the loop only moves forward through the events, halts out of fuel only with a restart pending, blocks only with the events exhausted, and exits only right after a terminating signal |
| Orchestrator.EventLoop | main.go:177-251 | the loop's outcome equals `Run` from the initial state |
| Orchestrator.ServeCallsPerBatch | main.go:196-211 | Serve is called once per descriptor per batch |
| Orchestrator.DetachedStopCount | main.go:182-193 | with no pointer set the stop loop stops nothing |
| Orchestrator.NoStopsWhenDetached | main.go:182-247 | then no run ever calls Stop |
| Orchestrator.DiscoveredPluginsAreNeverStopped | main.go:182-247 | for discovered descriptors neither restart nor shutdown stops a plugin |
| Orchestrator.RetryStorm | main.go:212-214 | when the last Serve always fails, no event is read, not even a terminating signal, until the fuel is spent |
| Orchestrator.ShutdownIsFirstTerminalSignal | main.go:229-249 | the loop ends at the first terminating signal it reads; a blocked loop read none |
| Orchestrator.OneBatchPerRestart | main.go:212-224 | when batches succeed: one batch at start and one per restart request read, none for other events |
| Orchestrator.StartThenSigterm | main.go:177-251 | serve once, read SIGTERM, exit |

## Left out

- gRPC: creating the server, its goroutine, `grpc.Dial` with its 60 s and 5 s timeouts, and
  the registration RPC. They become the failure flags of `Net`.
- Unix sockets: only the socket file's existence in the `FileSystem` is kept. Closing the
  listener in `server.Stop()` is modelled only as its unlink of the socket file; whether that
  unlink fails is decided by the same rule as for `os.Remove`.
- The fsnotify watcher and the signal watcher are not part of this model. They become the
  event sequence.
- `readDevDirectory`, reading and parsing the YAML configuration, and flag parsing are I/O.
  Their results are inputs.
- The regular-expression engine (RE2, unanchored `regexp.MatchString`) is abstract, and so
  is `os.Stat`, which becomes membership in `FileSystem.present`.
- Goroutines, channels, `select` and `context` cancellation. `ListAndWatch` is modelled as
  its sequence of sends, and `healthcheck` as whether it creates its xids channel. That
  channel is never sent to, so its forwarding loop does nothing and is left out.
- glog logging and `check` (argus.go:10-14) only write to the log.
- Platform.ToLower: `strings.ToLower` is modelled on ASCII letters only; non-ASCII capitals are kept.
- Server.XidsEnabled: built on the ASCII-only `ToLower`, so a value spelled with non-ASCII capitals may be judged differently.
- Go strings are byte sequences, while Dafny strings are code points. Names are compared the
  same way in both, so nothing in the model depends on the difference.
- Orchestrator.Run: the `fuel` bound on batches stands in for the unbounded retry. A run that
  spends it ends `OutOfFuel`, where the program would go on serving.
- Orchestrator.RestartBatch: building each plugin and its `Serve` are abstracted into the
  oracle `serve(batch, index)`. The plugin classes are modelled separately. The call at
  main.go:205 passes four arguments to `NewNvidiaDevicePlugin`, which takes five; the
  constructor is modelled as it is declared.
- Error values keep only their kind and the path or name involved. Message text is not
  modelled.
