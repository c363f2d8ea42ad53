// The Kubernetes objects the provider reads, with the fields it looks at.

module Kube {
  import opened Strings

  datatype NamespacedName = NamespacedName(namespace: string, name: string)

  datatype EnvVar = EnvVar(name: string, value: string)

  datatype VolumeMount = VolumeMount(name: string, mountPath: string, readOnly: bool)

  // `optional` is the pointer field of the API: absent, false or true.
  datatype VolumeSource =
    | HostPath
    | EmptyDir
    | SecretSource(secretName: string, optional: Option<bool>)
    | ConfigMapSource(configMapName: string, optional: Option<bool>)
    | Unsupported

  datatype Volume = Volume(name: string, source: VolumeSource)

  datatype Container = Container(
    name: string,
    image: string,
    command: Option<seq<string>>,
    args: Option<seq<string>>,
    workingDir: string,
    env: seq<EnvVar>,
    volumeMounts: seq<VolumeMount>)

  datatype SecurityContext = SecurityContext(
    runAsUser: Option<int>,
    runAsGroup: Option<int>,
    runAsUserName: Option<string>)

  datatype Pod = Pod(
    namespace: string,
    name: string,
    uid: string,
    clusterName: string,
    securityContext: Option<SecurityContext>,
    initContainers: seq<Container>,
    containers: seq<Container>,
    volumes: seq<Volume>)

  function KeyOf(pod: Pod): NamespacedName {
    NamespacedName(pod.namespace, pod.name)
  }
}
