/**
 * The parts of the kubelet device-plugin API (version v1beta1) that the device manager uses:
 * its well-known paths, its version string and the records it exchanges with the kubelet.
 * The gRPC services themselves are not modelled; only the values sent and received are.
 */
module PluginApi {

  /** Directory in which the kubelet expects device-plugin sockets. */
  const DEVICE_PLUGIN_PATH: string := "/var/lib/kubelet/device-plugins/"

  /** The kubelet's own registration socket inside that directory. */
  const KUBELET_SOCKET: string := DEVICE_PLUGIN_PATH + "kubelet.sock"

  /** The API version sent in every registration request. */
  const VERSION: string := "v1beta1"

  datatype Health = Healthy | Unhealthy

  /** One advertised unit of a resource. */
  datatype Device = Device(id: string, health: Health)

  /** A device node granted to a container. */
  datatype DeviceSpec = DeviceSpec(containerPath: string, hostPath: string, permissions: string)

  /** The device ids the kubelet asks for, for one container. */
  datatype ContainerRequest = ContainerRequest(devicesIds: seq<string>)

  /** What one container is granted: environment variables and device nodes. */
  datatype ContainerResponse = ContainerResponse(envs: map<string, string>, devices: seq<DeviceSpec>)

  /** The registration call's payload. */
  datatype RegisterRequest = RegisterRequest(version: string, endpoint: string, resourceName: string)

  /** Options a plugin reports; the only one the device manager touches is left at its default. */
  datatype DevicePluginOptions = DevicePluginOptions(preStartRequired: bool)

  /** The empty acknowledgement of PreStartContainer. */
  datatype PreStartContainerResponse = PreStartContainerResponse
}
