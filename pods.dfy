/**
 The parts of a Kubernetes core/v1 Pod record that the workload attestor
 reads. Every field is a plain value: the attestor never updates a pod.
 */
module Pods {

  /** corev1.ContainerStatus: the container's name, the image it was started
      from (tag-qualified) and the resolved image id (digest-qualified, empty
      until the image has been pulled). */
  datatype ContainerStatus = ContainerStatus(name: string, image: string, imageID: string)

  /** metav1.OwnerReference: the controller that owns the pod. */
  datatype OwnerReference = OwnerReference(kind: string, name: string, uid: string)

  /** corev1.Pod, flattened: metadata (namespace, name, UID, labels, owner
      references), spec (service account, node) and status (the statuses
      of the regular and the init containers). */
  datatype Pod = Pod(
    namespace: string,
    name: string,
    uid: string,
    serviceAccountName: string,
    nodeName: string,
    containerStatuses: seq<ContainerStatus>,
    initContainerStatuses: seq<ContainerStatus>,
    labels: map<string, string>,
    ownerReferences: seq<OwnerReference>)
}
