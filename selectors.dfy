/**
 The selector builder of the k8s_sat workload attestor: the `key:value`
 strings that describe a pod (getSelectorValuesFromPodInfo) or one of its
 containers (getSelectorValuesFromWorkloadContainerStatus).

 The source collects image identifiers into a Go map and ranges over it, and
 ranges over the label map; Go leaves the order of both unspecified. The
 methods here pick each next element with `:|`, so every order is allowed,
 and report the order they used as a ghost out-parameter. PodSelectors is the
 list for one given choice of orders; IsPodSelectors accepts the list built
 under any choice.
 */
module Selectors {
  import opened Pods
  import opened Strconv
  import opened Enumerations

  const SA := "sa:"
  const NS := "ns:"
  const NODE_NAME := "node-name:"
  const POD_UID := "pod-uid:"
  const POD_NAME := "pod-name:"
  const POD_IMAGE_COUNT := "pod-image-count:"
  const POD_INIT_IMAGE_COUNT := "pod-init-image-count:"
  const POD_IMAGE := "pod-image:"
  const POD_INIT_IMAGE := "pod-init-image:"
  const POD_LABEL := "pod-label:"
  const POD_OWNER := "pod-owner:"
  const POD_OWNER_UID := "pod-owner-uid:"
  const CONTAINER_NAME := "container-name:"
  const CONTAINER_IMAGE := "container-image:"

  // ---------------------------------------------------------------------
  // getPodImageIdentifiers
  // ---------------------------------------------------------------------

  /** The keys of the map getPodImageIdentifiers fills: ImageID and then
      Image of each status, in turn. */
  function ImageIdentifiers(statuses: seq<ContainerStatus>): set<string> {
    if statuses == [] then {}
    else
      var last := statuses[|statuses| - 1];
      ImageIdentifiers(statuses[..|statuses| - 1]) + {last.imageID, last.image}
  }

  /** The identifier set is exactly the union of {ImageID, Image} over the statuses. */
  lemma {:induction false} ImageIdentifiersMembers(statuses: seq<ContainerStatus>, x: string)
    ensures x in ImageIdentifiers(statuses) <==>
            exists c :: c in statuses && (x == c.imageID || x == c.image)
  {
    if statuses != [] {
      var init := statuses[..|statuses| - 1];
      var last := statuses[|statuses| - 1];
      assert statuses == init + [last];
      ImageIdentifiersMembers(init, x);
      if x in ImageIdentifiers(init) {
        var c :| c in init && (x == c.imageID || x == c.image);
        assert c in statuses;
      }
    }
  }

  /** At most two identifiers per status; none for no statuses. */
  lemma {:induction false} ImageIdentifiersBound(statuses: seq<ContainerStatus>)
    ensures |ImageIdentifiers(statuses)| <= 2 * |statuses|
    ensures statuses == [] <==> ImageIdentifiers(statuses) == {}
  {
    if statuses != [] {
      var last := statuses[|statuses| - 1];
      ImageIdentifiersBound(statuses[..|statuses| - 1]);
      assert last.image in ImageIdentifiers(statuses);
    }
  }

  /** Listing a status again adds nothing: insertion into the map is idempotent. */
  lemma ImageIdentifiersRepeat(statuses: seq<ContainerStatus>, c: ContainerStatus)
    requires c in statuses
    ensures ImageIdentifiers(statuses + [c]) == ImageIdentifiers(statuses)
  {
    var extended := statuses + [c];
    assert extended[..|extended| - 1] == statuses;
    ImageIdentifiersMembers(statuses, c.image);
    ImageIdentifiersMembers(statuses, c.imageID);
  }

  /** Only which statuses are given matters, not their order or repetition. */
  lemma ImageIdentifiersDependOnlyOnMembers(a: seq<ContainerStatus>, b: seq<ContainerStatus>)
    requires forall c :: c in a <==> c in b
    ensures ImageIdentifiers(a) == ImageIdentifiers(b)
  {
    forall x ensures x in ImageIdentifiers(a) <==> x in ImageIdentifiers(b) {
      ImageIdentifiersMembers(a, x);
      ImageIdentifiersMembers(b, x);
    }
  }

  /** getPodImageIdentifiers: the loop inserting ImageID and Image of each status. */
  method GetPodImageIdentifiers(containerStatuses: seq<ContainerStatus>) returns (podImages: set<string>)
    ensures podImages == ImageIdentifiers(containerStatuses)
    ensures |podImages| <= 2 * |containerStatuses|
  {
    podImages := {};
    for i := 0 to |containerStatuses|
      invariant podImages == ImageIdentifiers(containerStatuses[..i])
    {
      assert containerStatuses[..i + 1][..i] == containerStatuses[..i];
      podImages := podImages + {containerStatuses[i].imageID};
      podImages := podImages + {containerStatuses[i].image};
    }
    assert containerStatuses[..|containerStatuses|] == containerStatuses;
    ImageIdentifiersBound(containerStatuses);
  }

  // ---------------------------------------------------------------------
  // getSelectorValuesFromPodInfo
  // ---------------------------------------------------------------------

  /** The seven selectors every pod list starts with. */
  function Header(pod: Pod): seq<string> {
    [ SA + pod.serviceAccountName,
      NS + pod.namespace,
      NODE_NAME + pod.nodeName,
      POD_UID + pod.uid,
      POD_NAME + pod.name,
      POD_IMAGE_COUNT + Itoa(|pod.containerStatuses|),
      POD_INIT_IMAGE_COUNT + Itoa(|pod.initContainerStatuses|) ]
  }

  function LabelSelector(key: string, value: string): string {
    POD_LABEL + key + ":" + value
  }

  /** One label selector per key of keys, in that order. */
  function LabelSelectors(labels: map<string, string>, keys: seq<string>): seq<string>
    requires forall k :: k in keys ==> k in labels
  {
    seq(|keys|, i requires 0 <= i < |keys| => LabelSelector(keys[i], labels[keys[i]]))
  }

  function OwnerSelector(o: OwnerReference): string {
    POD_OWNER + o.kind + ":" + o.name
  }

  function OwnerUidSelector(o: OwnerReference): string {
    POD_OWNER_UID + o.kind + ":" + o.uid
  }

  /** The pair of selectors of each owner reference, in owner-reference order. */
  function OwnerSelectors(owners: seq<OwnerReference>): seq<string> {
    if owners == [] then []
    else
      var last := owners[|owners| - 1];
      OwnerSelectors(owners[..|owners| - 1]) + [OwnerSelector(last), OwnerUidSelector(last)]
  }

  /** The orders in which the builder ranged over the two image sets and the label map. */
  ghost predicate ValidOrders(pod: Pod, images: seq<string>, initImages: seq<string>, labelKeys: seq<string>) {
    && IsEnumeration(images, ImageIdentifiers(pod.containerStatuses))
    && IsEnumeration(initImages, ImageIdentifiers(pod.initContainerStatuses))
    && IsEnumeration(labelKeys, pod.labels.Keys)
  }

  /** The selectors of a pod for one choice of map orders. */
  function PodSelectors(pod: Pod, images: seq<string>, initImages: seq<string>, labelKeys: seq<string>): seq<string>
    requires forall k :: k in labelKeys ==> k in pod.labels
  {
    Header(pod)
    + Prefixed(POD_IMAGE, images)
    + Prefixed(POD_INIT_IMAGE, initImages)
    + LabelSelectors(pod.labels, labelKeys)
    + OwnerSelectors(pod.ownerReferences)
  }

  /** sv is what getSelectorValuesFromPodInfo may return for pod. */
  ghost predicate IsPodSelectors(pod: Pod, sv: seq<string>) {
    exists images, initImages, labelKeys ::
      && ValidOrders(pod, images, initImages, labelKeys)
      && (forall k :: k in labelKeys ==> k in pod.labels)
      && sv == PodSelectors(pod, images, initImages, labelKeys)
  }

  /** Ranging over a set of values and appending key + value for each. */
  method AppendPrefixed(selectorValues: seq<string>, key: string, values: set<string>)
    returns (result: seq<string>, ghost order: seq<string>)
    ensures IsEnumeration(order, values)
    ensures result == selectorValues + Prefixed(key, order)
  {
    result, order := selectorValues, [];
    var remaining := values;
    while remaining != {}
      invariant remaining <= values
      invariant IsEnumeration(order, values - remaining)
      invariant result == selectorValues + Prefixed(key, order)
      decreases remaining
    {
      var value :| value in remaining;
      result := result + [key + value];
      PrefixedAppend(key, order, value);
      EnumerationExtend(order, values - remaining, value);
      assert values - (remaining - {value}) == (values - remaining) + {value};
      order := order + [value];
      remaining := remaining - {value};
    }
  }

  /** Ranging over the label map and appending one label selector per pair. */
  method AppendLabelSelectors(selectorValues: seq<string>, labels: map<string, string>)
    returns (result: seq<string>, ghost keys: seq<string>)
    ensures IsEnumeration(keys, labels.Keys)
    ensures forall k :: k in keys ==> k in labels
    ensures result == selectorValues + LabelSelectors(labels, keys)
  {
    result, keys := selectorValues, [];
    var remaining := labels.Keys;
    while remaining != {}
      invariant remaining <= labels.Keys
      invariant IsEnumeration(keys, labels.Keys - remaining)
      invariant forall k :: k in keys ==> k in labels
      invariant result == selectorValues + LabelSelectors(labels, keys)
      decreases remaining
    {
      var k :| k in remaining;
      result := result + [LabelSelector(k, labels[k])];
      EnumerationExtend(keys, labels.Keys - remaining, k);
      assert labels.Keys - (remaining - {k}) == (labels.Keys - remaining) + {k};
      keys := keys + [k];
      remaining := remaining - {k};
    }
  }

  /** getSelectorValuesFromPodInfo. */
  method GetSelectorValuesFromPodInfo(pod: Pod) returns (selectorValues: seq<string>)
    ensures IsPodSelectors(pod, selectorValues)
    ensures |selectorValues| >= 7
  {
    selectorValues := Header(pod);

    var podImages := GetPodImageIdentifiers(pod.containerStatuses);
    ghost var images;
    selectorValues, images := AppendPrefixed(selectorValues, POD_IMAGE, podImages);

    var podInitImages := GetPodImageIdentifiers(pod.initContainerStatuses);
    ghost var initImages;
    selectorValues, initImages := AppendPrefixed(selectorValues, POD_INIT_IMAGE, podInitImages);

    ghost var labelKeys;
    selectorValues, labelKeys := AppendLabelSelectors(selectorValues, pod.labels);

    ghost var beforeOwners := selectorValues;
    var owners := pod.ownerReferences;
    for i := 0 to |owners|
      invariant selectorValues == beforeOwners + OwnerSelectors(owners[..i])
    {
      assert owners[..i + 1][..i] == owners[..i];
      selectorValues := selectorValues + [OwnerSelector(owners[i])];
      selectorValues := selectorValues + [OwnerUidSelector(owners[i])];
    }
    assert owners[..|owners|] == owners;
    assert ValidOrders(pod, images, initImages, labelKeys);
    assert selectorValues == PodSelectors(pod, images, initImages, labelKeys);
  }

  // ---------------------------------------------------------------------
  // getSelectorValuesFromWorkloadContainerStatus
  // ---------------------------------------------------------------------

  /** getSelectorValuesFromWorkloadContainerStatus: the container's name,
      then one container-image selector per distinct value of {Image, ImageID}. */
  method GetSelectorValuesFromWorkloadContainerStatus(status: ContainerStatus) returns (selectorValues: seq<string>)
    ensures |selectorValues| == if status.image == status.imageID then 2 else 3
    ensures selectorValues[0] == CONTAINER_NAME + status.name
    ensures AllPrefixed(selectorValues[1..], CONTAINER_IMAGE)
    ensures forall v :: multiset(selectorValues[1..])[CONTAINER_IMAGE + v] ==
                        if v == status.image || v == status.imageID then 1 else 0
  {
    selectorValues := [CONTAINER_NAME + status.name];
    var containerImages := GetPodImageIdentifiers([status]);
    assert [status][..0] == [];
    assert containerImages == {status.imageID, status.image};
    ghost var order;
    selectorValues, order := AppendPrefixed(selectorValues, CONTAINER_IMAGE, containerImages);
    EnumerationLength(order, containerImages);
    assert selectorValues[1..] == Prefixed(CONTAINER_IMAGE, order);
    PrefixedAllPrefixed(CONTAINER_IMAGE, order);
    forall v ensures multiset(selectorValues[1..])[CONTAINER_IMAGE + v] ==
                     if v == status.image || v == status.imageID then 1 else 0 {
      PrefixedMultiplicity(CONTAINER_IMAGE, order, containerImages, v);
    }
  }
}
