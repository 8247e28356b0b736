/**
 What a pod's selector list, as getSelectorValuesFromPodInfo builds it under
 any map order, is guaranteed to say: the seven fixed selectors first, each
 distinct image identifier once per category, one selector per label, the
 owner-reference pairs last and in order, and the total length.
 */
module SelectorProperties {
  import opened Pods
  import opened Strconv
  import opened Enumerations
  import opened Selectors

  /** A key followed by anything does not start with a key it differs from
      at position k. */
  lemma KeyMismatch(key: string, x: string, other: string, k: nat)
    requires k < |key| && k < |other| && key[k] != other[k]
    ensures !HasPrefix(key + x, other)
  {
    assert (key + x)[k] == key[k];
  }

  /** None of the seven fixed selectors looks like an image, label or owner selector. */
  lemma HeaderExcludes(pod: Pod, key: string)
    requires key == POD_IMAGE || key == POD_INIT_IMAGE || key == POD_LABEL || key == POD_OWNER || key == POD_OWNER_UID
    ensures NoneHavePrefix(Header(pod), key)
  {
    var cs := Itoa(|pod.containerStatuses|);
    var ics := Itoa(|pod.initContainerStatuses|);
    // Where each count selector first differs from key.
    var (atCount, atInitCount) := if key == POD_IMAGE then (9, 5) else if key == POD_INIT_IMAGE then (5, 14) else (4, 4);
    KeyMismatch(SA, pod.serviceAccountName, key, 0);
    KeyMismatch(NS, pod.namespace, key, 0);
    KeyMismatch(NODE_NAME, pod.nodeName, key, 0);
    KeyMismatch(POD_UID, pod.uid, key, 4);
    KeyMismatch(POD_NAME, pod.name, key, 4);
    KeyMismatch(POD_IMAGE_COUNT, cs, key, atCount);
    KeyMismatch(POD_INIT_IMAGE_COUNT, ics, key, atInitCount);
  }

  /** Both owner selectors start with this. */
  const OWNER_FAMILY := "pod-owner"

  lemma LabelSelectorsPrefixed(labels: map<string, string>, keys: seq<string>)
    requires forall k :: k in keys ==> k in labels
    ensures AllPrefixed(LabelSelectors(labels, keys), POD_LABEL)
  {
    forall i | 0 <= i < |keys| ensures HasPrefix(LabelSelectors(labels, keys)[i], POD_LABEL) {
      var k := keys[i];
      assert LabelSelector(k, labels[k]) == POD_LABEL + (k + ":" + labels[k]);
      assert (POD_LABEL + (k + ":" + labels[k]))[..|POD_LABEL|] == POD_LABEL;
    }
  }

  /** An owner selector starts with its key and not with the other owner key. */
  lemma OwnerSelectorKeys(o: OwnerReference)
    ensures HasPrefix(OwnerSelector(o), POD_OWNER) && !HasPrefix(OwnerSelector(o), POD_OWNER_UID)
    ensures HasPrefix(OwnerUidSelector(o), POD_OWNER_UID) && !HasPrefix(OwnerUidSelector(o), POD_OWNER)
    ensures HasPrefix(OwnerSelector(o), OWNER_FAMILY) && HasPrefix(OwnerUidSelector(o), OWNER_FAMILY)
  {
    var a, b := OwnerSelector(o), OwnerUidSelector(o);
    assert a == POD_OWNER + (o.kind + ":" + o.name);
    assert b == POD_OWNER_UID + (o.kind + ":" + o.uid);
    assert a[..|POD_OWNER|] == POD_OWNER;
    assert b[..|POD_OWNER_UID|] == POD_OWNER_UID;
    assert a[..|OWNER_FAMILY|] == OWNER_FAMILY;
    assert b[..|OWNER_FAMILY|] == OWNER_FAMILY;
    KeyMismatch(POD_OWNER, o.kind + ":" + o.name, POD_OWNER_UID, 9);
    KeyMismatch(POD_OWNER_UID, o.kind + ":" + o.uid, POD_OWNER, 9);
  }

  /** The owner part: two selectors per owner reference, in owner-reference order. */
  lemma {:induction false} OwnerSelectorsOrder(owners: seq<OwnerReference>)
    ensures |OwnerSelectors(owners)| == 2 * |owners|
    ensures forall j :: 0 <= j < |owners| ==>
              && OwnerSelectors(owners)[2 * j] == OwnerSelector(owners[j])
              && OwnerSelectors(owners)[2 * j + 1] == OwnerUidSelector(owners[j])
  {
    if owners != [] {
      var init := owners[..|owners| - 1];
      OwnerSelectorsOrder(init);
      assert forall j :: 0 <= j < |init| ==> owners[j] == init[j];
    }
  }

  /** The owner part holds one selector of each owner key per owner reference
      and nothing outside the owner family. */
  lemma {:induction false} OwnerSelectorsKeys(owners: seq<OwnerReference>)
    ensures AllPrefixed(OwnerSelectors(owners), OWNER_FAMILY)
    ensures CountPrefixed(OwnerSelectors(owners), POD_OWNER) == |owners|
    ensures CountPrefixed(OwnerSelectors(owners), POD_OWNER_UID) == |owners|
  {
    if owners != [] {
      var init := owners[..|owners| - 1];
      var last := owners[|owners| - 1];
      OwnerSelectorsKeys(init);
      OwnerSelectorKeys(last);
      var front := OwnerSelectors(init) + [OwnerSelector(last)];
      assert OwnerSelectors(owners) == front + [OwnerUidSelector(last)];
      CountPrefixedSnoc(OwnerSelectors(init), OwnerSelector(last), POD_OWNER);
      CountPrefixedSnoc(front, OwnerUidSelector(last), POD_OWNER);
      CountPrefixedSnoc(OwnerSelectors(init), OwnerSelector(last), POD_OWNER_UID);
      CountPrefixedSnoc(front, OwnerUidSelector(last), POD_OWNER_UID);
    }
  }

  /** Outside its own part, no entry of a pod's list carries the pod-image key. */
  lemma ImageKeyPlacement(pod: Pod, initImages: seq<string>, labelKeys: seq<string>, x: string)
    requires forall k :: k in labelKeys ==> k in pod.labels
    ensures var a, c, d, e := Header(pod), Prefixed(POD_INIT_IMAGE, initImages),
                              LabelSelectors(pod.labels, labelKeys), OwnerSelectors(pod.ownerReferences);
      && CountPrefixed(a, POD_IMAGE) == 0 && multiset(a)[POD_IMAGE + x] == 0
      && CountPrefixed(c, POD_IMAGE) == 0 && multiset(c)[POD_IMAGE + x] == 0
      && CountPrefixed(d, POD_IMAGE) == 0 && multiset(d)[POD_IMAGE + x] == 0
      && CountPrefixed(e, POD_IMAGE) == 0 && multiset(e)[POD_IMAGE + x] == 0
  {
    var a, c, d, e := Header(pod), Prefixed(POD_INIT_IMAGE, initImages),
                      LabelSelectors(pod.labels, labelKeys), OwnerSelectors(pod.ownerReferences);
    HeaderExcludes(pod, POD_IMAGE);
    PrefixedAllPrefixed(POD_INIT_IMAGE, initImages);
    LabelSelectorsPrefixed(pod.labels, labelKeys);
    OwnerSelectorsKeys(pod.ownerReferences);
    DivergentKeys(c, POD_INIT_IMAGE, POD_IMAGE, 5);
    DivergentKeys(d, POD_LABEL, POD_IMAGE, 4);
    DivergentKeys(e, OWNER_FAMILY, POD_IMAGE, 4);
    NotAmongUnprefixed(a, POD_IMAGE, x);
    NotAmongUnprefixed(c, POD_IMAGE, x);
    NotAmongUnprefixed(d, POD_IMAGE, x);
    NotAmongUnprefixed(e, POD_IMAGE, x);
  }

  /** Outside its own part, no entry of a pod's list carries the pod-init-image key. */
  lemma InitImageKeyPlacement(pod: Pod, images: seq<string>, labelKeys: seq<string>, x: string)
    requires forall k :: k in labelKeys ==> k in pod.labels
    ensures var a, b, d, e := Header(pod), Prefixed(POD_IMAGE, images),
                              LabelSelectors(pod.labels, labelKeys), OwnerSelectors(pod.ownerReferences);
      && CountPrefixed(a, POD_INIT_IMAGE) == 0 && multiset(a)[POD_INIT_IMAGE + x] == 0
      && CountPrefixed(b, POD_INIT_IMAGE) == 0 && multiset(b)[POD_INIT_IMAGE + x] == 0
      && CountPrefixed(d, POD_INIT_IMAGE) == 0 && multiset(d)[POD_INIT_IMAGE + x] == 0
      && CountPrefixed(e, POD_INIT_IMAGE) == 0 && multiset(e)[POD_INIT_IMAGE + x] == 0
  {
    var a, b, d, e := Header(pod), Prefixed(POD_IMAGE, images),
                      LabelSelectors(pod.labels, labelKeys), OwnerSelectors(pod.ownerReferences);
    HeaderExcludes(pod, POD_INIT_IMAGE);
    PrefixedAllPrefixed(POD_IMAGE, images);
    LabelSelectorsPrefixed(pod.labels, labelKeys);
    OwnerSelectorsKeys(pod.ownerReferences);
    DivergentKeys(b, POD_IMAGE, POD_INIT_IMAGE, 5);
    DivergentKeys(d, POD_LABEL, POD_INIT_IMAGE, 4);
    DivergentKeys(e, OWNER_FAMILY, POD_INIT_IMAGE, 4);
    NotAmongUnprefixed(a, POD_INIT_IMAGE, x);
    NotAmongUnprefixed(b, POD_INIT_IMAGE, x);
    NotAmongUnprefixed(d, POD_INIT_IMAGE, x);
    NotAmongUnprefixed(e, POD_INIT_IMAGE, x);
  }

  /** Outside its own part, no entry of a pod's list carries the pod-label key. */
  lemma LabelKeyPlacement(pod: Pod, images: seq<string>, initImages: seq<string>)
    ensures var a, b, c, e := Header(pod), Prefixed(POD_IMAGE, images),
                              Prefixed(POD_INIT_IMAGE, initImages), OwnerSelectors(pod.ownerReferences);
      && NoneHavePrefix(a + b + c, POD_LABEL) && NoneHavePrefix(e, POD_LABEL)
  {
    var a, b, c, e := Header(pod), Prefixed(POD_IMAGE, images),
                      Prefixed(POD_INIT_IMAGE, initImages), OwnerSelectors(pod.ownerReferences);
    HeaderExcludes(pod, POD_LABEL);
    PrefixedAllPrefixed(POD_IMAGE, images);
    PrefixedAllPrefixed(POD_INIT_IMAGE, initImages);
    OwnerSelectorsKeys(pod.ownerReferences);
    DivergentKeys(b, POD_IMAGE, POD_LABEL, 4);
    DivergentKeys(c, POD_INIT_IMAGE, POD_LABEL, 4);
    DivergentKeys(e, OWNER_FAMILY, POD_LABEL, 4);
    forall i | 0 <= i < |a + b + c| ensures !HasPrefix((a + b + c)[i], POD_LABEL) {
      if i < |a| {
        assert (a + b + c)[i] == a[i];
      } else if i < |a| + |b| {
        assert (a + b + c)[i] == b[i - |a|];
      } else {
        assert (a + b + c)[i] == c[i - |a| - |b|];
      }
    }
  }

  /** Outside its own part, no entry of a pod's list carries either owner key. */
  lemma OwnerKeyPlacement(pod: Pod, images: seq<string>, initImages: seq<string>, labelKeys: seq<string>)
    requires forall k :: k in labelKeys ==> k in pod.labels
    ensures var a, b, c, d := Header(pod), Prefixed(POD_IMAGE, images),
                              Prefixed(POD_INIT_IMAGE, initImages), LabelSelectors(pod.labels, labelKeys);
      && CountPrefixed(a, POD_OWNER) == 0 && CountPrefixed(a, POD_OWNER_UID) == 0
      && CountPrefixed(b, POD_OWNER) == 0 && CountPrefixed(b, POD_OWNER_UID) == 0
      && CountPrefixed(c, POD_OWNER) == 0 && CountPrefixed(c, POD_OWNER_UID) == 0
      && CountPrefixed(d, POD_OWNER) == 0 && CountPrefixed(d, POD_OWNER_UID) == 0
  {
    var b, c, d := Prefixed(POD_IMAGE, images), Prefixed(POD_INIT_IMAGE, initImages),
                   LabelSelectors(pod.labels, labelKeys);
    HeaderExcludes(pod, POD_OWNER);
    HeaderExcludes(pod, POD_OWNER_UID);
    PrefixedAllPrefixed(POD_IMAGE, images);
    PrefixedAllPrefixed(POD_INIT_IMAGE, initImages);
    LabelSelectorsPrefixed(pod.labels, labelKeys);
    DivergentKeys(b, POD_IMAGE, POD_OWNER, 4);
    DivergentKeys(b, POD_IMAGE, POD_OWNER_UID, 4);
    DivergentKeys(c, POD_INIT_IMAGE, POD_OWNER, 4);
    DivergentKeys(c, POD_INIT_IMAGE, POD_OWNER_UID, 4);
    DivergentKeys(d, POD_LABEL, POD_OWNER, 4);
    DivergentKeys(d, POD_LABEL, POD_OWNER_UID, 4);
  }

  /** The list has 7 + |images| + |init images| + |labels| + 2 * |owner references|
      entries, so it is never empty. */
  lemma PodSelectorsLength(pod: Pod, sv: seq<string>)
    requires IsPodSelectors(pod, sv)
    ensures |sv| == 7 + |ImageIdentifiers(pod.containerStatuses)| + |ImageIdentifiers(pod.initContainerStatuses)|
                     + |pod.labels| + 2 * |pod.ownerReferences|
  {
    var images, initImages, labelKeys :|
      && ValidOrders(pod, images, initImages, labelKeys)
      && (forall k :: k in labelKeys ==> k in pod.labels)
      && sv == PodSelectors(pod, images, initImages, labelKeys);
    EnumerationLength(images, ImageIdentifiers(pod.containerStatuses));
    EnumerationLength(initImages, ImageIdentifiers(pod.initContainerStatuses));
    EnumerationLength(labelKeys, pod.labels.Keys);
    OwnerSelectorsOrder(pod.ownerReferences);
  }

  /** The first seven selectors, in order; the two counts read back as the
      numbers of container and init-container statuses. */
  lemma PodSelectorsHeader(pod: Pod, sv: seq<string>)
    requires IsPodSelectors(pod, sv)
    ensures |sv| >= 7
    ensures sv[0] == SA + pod.serviceAccountName
    ensures sv[1] == NS + pod.namespace
    ensures sv[2] == NODE_NAME + pod.nodeName
    ensures sv[3] == POD_UID + pod.uid
    ensures sv[4] == POD_NAME + pod.name
    ensures HasPrefix(sv[5], POD_IMAGE_COUNT) && AllDigits(sv[5][|POD_IMAGE_COUNT|..])
            && Atoi(sv[5][|POD_IMAGE_COUNT|..]) == |pod.containerStatuses|
    ensures HasPrefix(sv[6], POD_INIT_IMAGE_COUNT) && AllDigits(sv[6][|POD_INIT_IMAGE_COUNT|..])
            && Atoi(sv[6][|POD_INIT_IMAGE_COUNT|..]) == |pod.initContainerStatuses|
  {
    var images, initImages, labelKeys :|
      && ValidOrders(pod, images, initImages, labelKeys)
      && (forall k :: k in labelKeys ==> k in pod.labels)
      && sv == PodSelectors(pod, images, initImages, labelKeys);
    var n, m := Itoa(|pod.containerStatuses|), Itoa(|pod.initContainerStatuses|);
    assert sv[5] == POD_IMAGE_COUNT + n && sv[6] == POD_INIT_IMAGE_COUNT + m;
    assert (POD_IMAGE_COUNT + n)[|POD_IMAGE_COUNT|..] == n;
    assert (POD_INIT_IMAGE_COUNT + m)[|POD_INIT_IMAGE_COUNT|..] == m;
    assert (POD_IMAGE_COUNT + n)[..|POD_IMAGE_COUNT|] == POD_IMAGE_COUNT;
    assert (POD_INIT_IMAGE_COUNT + m)[..|POD_INIT_IMAGE_COUNT|] == POD_INIT_IMAGE_COUNT;
    AtoiItoa(|pod.containerStatuses|);
    AtoiItoa(|pod.initContainerStatuses|);
  }

  /** Each distinct container image identifier appears exactly once as a
      pod-image selector and each distinct init-container one exactly once as
      a pod-init-image selector; nothing else carries either key. */
  lemma PodImageSelectorsOnce(pod: Pod, sv: seq<string>, x: string)
    requires IsPodSelectors(pod, sv)
    ensures multiset(sv)[POD_IMAGE + x] == if x in ImageIdentifiers(pod.containerStatuses) then 1 else 0
    ensures multiset(sv)[POD_INIT_IMAGE + x] == if x in ImageIdentifiers(pod.initContainerStatuses) then 1 else 0
    ensures CountPrefixed(sv, POD_IMAGE) == |ImageIdentifiers(pod.containerStatuses)|
    ensures CountPrefixed(sv, POD_INIT_IMAGE) == |ImageIdentifiers(pod.initContainerStatuses)|
  {
    var images, initImages, labelKeys :|
      && ValidOrders(pod, images, initImages, labelKeys)
      && (forall k :: k in labelKeys ==> k in pod.labels)
      && sv == PodSelectors(pod, images, initImages, labelKeys);
    ImageSelectorsOnce(pod, images, initImages, labelKeys, x);
    InitImageSelectorsOnce(pod, images, initImages, labelKeys, x);
  }

  lemma ImageSelectorsOnce(pod: Pod, images: seq<string>, initImages: seq<string>, labelKeys: seq<string>, x: string)
    requires ValidOrders(pod, images, initImages, labelKeys)
    requires forall k :: k in labelKeys ==> k in pod.labels
    ensures var sv := PodSelectors(pod, images, initImages, labelKeys);
      && multiset(sv)[POD_IMAGE + x] == (if x in ImageIdentifiers(pod.containerStatuses) then 1 else 0)
      && CountPrefixed(sv, POD_IMAGE) == |ImageIdentifiers(pod.containerStatuses)|
  {
    var a, b, c, d, e := Header(pod), Prefixed(POD_IMAGE, images), Prefixed(POD_INIT_IMAGE, initImages),
                         LabelSelectors(pod.labels, labelKeys), OwnerSelectors(pod.ownerReferences);
    assert PodSelectors(pod, images, initImages, labelKeys) == a + b + c + d + e;
    ImageKeyPlacement(pod, initImages, labelKeys, x);
    PrefixedMultiplicity(POD_IMAGE, images, ImageIdentifiers(pod.containerStatuses), x);
    PrefixedAllPrefixed(POD_IMAGE, images);
    EnumerationLength(images, ImageIdentifiers(pod.containerStatuses));
    MultisetOfParts(a, b, c, d, e);
    CountFive(a, b, c, d, e, POD_IMAGE);
  }

  lemma InitImageSelectorsOnce(pod: Pod, images: seq<string>, initImages: seq<string>, labelKeys: seq<string>, x: string)
    requires ValidOrders(pod, images, initImages, labelKeys)
    requires forall k :: k in labelKeys ==> k in pod.labels
    ensures var sv := PodSelectors(pod, images, initImages, labelKeys);
      && multiset(sv)[POD_INIT_IMAGE + x] == (if x in ImageIdentifiers(pod.initContainerStatuses) then 1 else 0)
      && CountPrefixed(sv, POD_INIT_IMAGE) == |ImageIdentifiers(pod.initContainerStatuses)|
  {
    var a, b, c, d, e := Header(pod), Prefixed(POD_IMAGE, images), Prefixed(POD_INIT_IMAGE, initImages),
                         LabelSelectors(pod.labels, labelKeys), OwnerSelectors(pod.ownerReferences);
    assert PodSelectors(pod, images, initImages, labelKeys) == a + b + c + d + e;
    InitImageKeyPlacement(pod, images, labelKeys, x);
    PrefixedMultiplicity(POD_INIT_IMAGE, initImages, ImageIdentifiers(pod.initContainerStatuses), x);
    PrefixedAllPrefixed(POD_INIT_IMAGE, initImages);
    EnumerationLength(initImages, ImageIdentifiers(pod.initContainerStatuses));
    MultisetOfParts(a, b, c, d, e);
    CountFive(a, b, c, d, e, POD_INIT_IMAGE);
  }

  lemma CountFive(a: seq<string>, b: seq<string>, c: seq<string>, d: seq<string>, e: seq<string>, key: string)
    ensures CountPrefixed(a + b + c + d + e, key) ==
            CountPrefixed(a, key) + CountPrefixed(b, key) + CountPrefixed(c, key) + CountPrefixed(d, key) + CountPrefixed(e, key)
  {
    CountPrefixedConcat(a, b, key);
    CountPrefixedConcat(a + b, c, key);
    CountPrefixedConcat(a + b + c, d, key);
    CountPrefixedConcat(a + b + c + d, e, key);
  }

  /** Every label pair gives its pod-label selector, every pod-label selector
      comes from a label pair, and there are exactly as many as labels. */
  lemma PodLabelSelectors(pod: Pod, sv: seq<string>)
    requires IsPodSelectors(pod, sv)
    ensures forall k :: k in pod.labels ==> LabelSelector(k, pod.labels[k]) in sv
    ensures forall s :: s in sv && HasPrefix(s, POD_LABEL) ==>
              exists k :: k in pod.labels && s == LabelSelector(k, pod.labels[k])
    ensures CountPrefixed(sv, POD_LABEL) == |pod.labels|
  {
    var images, initImages, labelKeys :|
      && ValidOrders(pod, images, initImages, labelKeys)
      && (forall k :: k in labelKeys ==> k in pod.labels)
      && sv == PodSelectors(pod, images, initImages, labelKeys);
    LabelSelectorsPresent(pod, images, initImages, labelKeys);
    LabelSelectorsOrigin(pod, images, initImages, labelKeys);
    LabelSelectorsCount(pod, images, initImages, labelKeys);
  }

  lemma LabelSelectorsPresent(pod: Pod, images: seq<string>, initImages: seq<string>, labelKeys: seq<string>)
    requires ValidOrders(pod, images, initImages, labelKeys)
    requires forall k :: k in labelKeys ==> k in pod.labels
    ensures forall k :: k in pod.labels ==> LabelSelector(k, pod.labels[k]) in PodSelectors(pod, images, initImages, labelKeys)
  {
    var front := Header(pod) + Prefixed(POD_IMAGE, images) + Prefixed(POD_INIT_IMAGE, initImages);
    var d := LabelSelectors(pod.labels, labelKeys);
    var sv := PodSelectors(pod, images, initImages, labelKeys);
    assert sv == front + d + OwnerSelectors(pod.ownerReferences);
    forall k | k in pod.labels ensures LabelSelector(k, pod.labels[k]) in sv {
      assert k in (set y | y in labelKeys);
      var i :| 0 <= i < |labelKeys| && labelKeys[i] == k;
      assert d[i] == LabelSelector(k, pod.labels[k]);
      assert sv[|front| + i] == d[i];
    }
  }

  lemma LabelSelectorsOrigin(pod: Pod, images: seq<string>, initImages: seq<string>, labelKeys: seq<string>)
    requires forall k :: k in labelKeys ==> k in pod.labels
    ensures forall s :: s in PodSelectors(pod, images, initImages, labelKeys) && HasPrefix(s, POD_LABEL) ==>
              exists k :: k in pod.labels && s == LabelSelector(k, pod.labels[k])
  {
    var front := Header(pod) + Prefixed(POD_IMAGE, images) + Prefixed(POD_INIT_IMAGE, initImages);
    var d, e := LabelSelectors(pod.labels, labelKeys), OwnerSelectors(pod.ownerReferences);
    var sv := PodSelectors(pod, images, initImages, labelKeys);
    assert sv == front + d + e;
    LabelKeyPlacement(pod, images, initImages);
    forall s | s in sv && HasPrefix(s, POD_LABEL)
      ensures exists k :: k in pod.labels && s == LabelSelector(k, pod.labels[k])
    {
      assert s in front || s in d || s in e;
      var i :| 0 <= i < |d| && d[i] == s;
      assert labelKeys[i] in pod.labels;
    }
  }

  lemma LabelSelectorsCount(pod: Pod, images: seq<string>, initImages: seq<string>, labelKeys: seq<string>)
    requires ValidOrders(pod, images, initImages, labelKeys)
    requires forall k :: k in labelKeys ==> k in pod.labels
    ensures CountPrefixed(PodSelectors(pod, images, initImages, labelKeys), POD_LABEL) == |pod.labels|
  {
    var front := Header(pod) + Prefixed(POD_IMAGE, images) + Prefixed(POD_INIT_IMAGE, initImages);
    var d, e := LabelSelectors(pod.labels, labelKeys), OwnerSelectors(pod.ownerReferences);
    assert PodSelectors(pod, images, initImages, labelKeys) == front + d + e;
    LabelKeyPlacement(pod, images, initImages);
    LabelSelectorsPrefixed(pod.labels, labelKeys);
    EnumerationLength(labelKeys, pod.labels.Keys);
    CountPrefixedConcat(front, d, POD_LABEL);
    CountPrefixedConcat(front + d, e, POD_LABEL);
  }

  /** The list ends with the owner references' pairs, in owner-reference
      order: pod-owner immediately followed by pod-owner-uid. */
  lemma PodOwnerSelectorsOrder(pod: Pod, sv: seq<string>)
    requires IsPodSelectors(pod, sv)
    ensures |sv| >= 7 + 2 * |pod.ownerReferences|
    ensures sv[|sv| - 2 * |pod.ownerReferences|..] == OwnerSelectors(pod.ownerReferences)
    ensures var base := |sv| - 2 * |pod.ownerReferences|;
      forall j :: 0 <= j < |pod.ownerReferences| ==>
        && sv[base + 2 * j] == OwnerSelector(pod.ownerReferences[j])
        && sv[base + 2 * j + 1] == OwnerUidSelector(pod.ownerReferences[j])
  {
    var images, initImages, labelKeys :|
      && ValidOrders(pod, images, initImages, labelKeys)
      && (forall k :: k in labelKeys ==> k in pod.labels)
      && sv == PodSelectors(pod, images, initImages, labelKeys);
    var front := Header(pod) + Prefixed(POD_IMAGE, images) + Prefixed(POD_INIT_IMAGE, initImages)
                 + LabelSelectors(pod.labels, labelKeys);
    assert sv == front + OwnerSelectors(pod.ownerReferences);
    OwnerSelectorsOrder(pod.ownerReferences);
    OwnerTail(front, pod.ownerReferences);
  }

  /** Exactly one pod-owner and one pod-owner-uid selector per owner reference. */
  lemma PodOwnerSelectorsCount(pod: Pod, sv: seq<string>)
    requires IsPodSelectors(pod, sv)
    ensures CountPrefixed(sv, POD_OWNER) == |pod.ownerReferences|
    ensures CountPrefixed(sv, POD_OWNER_UID) == |pod.ownerReferences|
  {
    var images, initImages, labelKeys :|
      && ValidOrders(pod, images, initImages, labelKeys)
      && (forall k :: k in labelKeys ==> k in pod.labels)
      && sv == PodSelectors(pod, images, initImages, labelKeys);
    var a, b, c, d, e := Header(pod), Prefixed(POD_IMAGE, images), Prefixed(POD_INIT_IMAGE, initImages),
                         LabelSelectors(pod.labels, labelKeys), OwnerSelectors(pod.ownerReferences);
    assert sv == a + b + c + d + e;
    OwnerSelectorsKeys(pod.ownerReferences);
    OwnerKeyPlacement(pod, images, initImages, labelKeys);
    CountFive(a, b, c, d, e, POD_OWNER);
    CountFive(a, b, c, d, e, POD_OWNER_UID);
  }

  lemma OwnerTail(front: seq<string>, owners: seq<OwnerReference>)
    requires |OwnerSelectors(owners)| == 2 * |owners|
    requires forall j :: 0 <= j < |owners| ==>
               && OwnerSelectors(owners)[2 * j] == OwnerSelector(owners[j])
               && OwnerSelectors(owners)[2 * j + 1] == OwnerUidSelector(owners[j])
    ensures var sv := front + OwnerSelectors(owners);
      forall j :: 0 <= j < |owners| ==>
        && sv[|front| + 2 * j] == OwnerSelector(owners[j])
        && sv[|front| + 2 * j + 1] == OwnerUidSelector(owners[j])
  {
  }

  lemma LabelSelectorsConcat(labels: map<string, string>, a: seq<string>, b: seq<string>)
    requires forall k :: k in a ==> k in labels
    requires forall k :: k in b ==> k in labels
    ensures forall k :: k in a + b ==> k in labels
    ensures LabelSelectors(labels, a + b) == LabelSelectors(labels, a) + LabelSelectors(labels, b)
  {
  }

  /** Taking one key out of a key list takes its selector out of the label selectors. */
  lemma LabelSelectorsRemove(labels: map<string, string>, keys: seq<string>, i: nat)
    requires forall k :: k in keys ==> k in labels
    requires i < |keys|
    ensures forall k :: k in keys[..i] + keys[i + 1..] ==> k in labels
    ensures multiset(LabelSelectors(labels, keys))
         == multiset(LabelSelectors(labels, keys[..i] + keys[i + 1..])) + multiset{LabelSelector(keys[i], labels[keys[i]])}
  {
    var front, x, back := keys[..i], keys[i], keys[i + 1..];
    assert keys == front + [x] + back;
    LabelSelectorsConcat(labels, front, back);
    LabelSelectorsConcat(labels, front, [x]);
    LabelSelectorsConcat(labels, front + [x], back);
  }

  /** Listing the label keys in another order permutes the label selectors. */
  lemma {:induction false} LabelSelectorsPermute(labels: map<string, string>, keys: seq<string>, others: seq<string>)
    requires forall k :: k in keys ==> k in labels
    requires multiset(keys) == multiset(others)
    ensures forall k :: k in others ==> k in labels
    ensures multiset(LabelSelectors(labels, keys)) == multiset(LabelSelectors(labels, others))
    decreases |keys|
  {
    assert forall k :: k in others ==> k in labels by {
      forall k | k in others ensures k in labels {
        assert k in multiset(others);
      }
    }
    if keys == [] {
      assert |others| == |multiset(others)| == 0;
    } else {
      var last := |keys| - 1;
      var x := keys[last];
      assert x in multiset(others);
      var i :| 0 <= i < |others| && others[i] == x;
      var rest, rest' := keys[..last] + keys[last + 1..], others[..i] + others[i + 1..];
      assert keys == keys[..last] + [x] + keys[last + 1..];
      assert others == others[..i] + [x] + others[i + 1..];
      forall y ensures multiset(rest)[y] == multiset(rest')[y] {
        assert multiset(keys)[y] == multiset(others)[y];
      }
      LabelSelectorsRemove(labels, keys, last);
      LabelSelectorsRemove(labels, others, i);
      LabelSelectorsPermute(labels, rest, rest');
    }
  }

  /** Two enumerations of one set, each prefixed by the same key, hold the same strings. */
  lemma PrefixedPermute(key: string, xs: seq<string>, ys: seq<string>, values: set<string>)
    requires IsEnumeration(xs, values) && IsEnumeration(ys, values)
    ensures multiset(Prefixed(key, xs)) == multiset(Prefixed(key, ys))
  {
    PrefixedAllPrefixed(key, xs);
    PrefixedAllPrefixed(key, ys);
    forall t ensures multiset(Prefixed(key, xs))[t] == multiset(Prefixed(key, ys))[t] {
      if HasPrefix(t, key) {
        var v := t[|key|..];
        assert t == key + v;
        PrefixedMultiplicity(key, xs, values, v);
        PrefixedMultiplicity(key, ys, values, v);
      } else {
        assert t !in Prefixed(key, xs) && t !in Prefixed(key, ys);
      }
    }
  }

  /** Building the selectors of one pod twice gives the same selectors: the
      same seven first and the same owner pairs last, in the same places, and
      the same strings in all, each as often; only the map-ordered middle
      part may come out in another order. */
  lemma PodSelectorsUpToOrder(pod: Pod, sv: seq<string>, sv': seq<string>)
    requires IsPodSelectors(pod, sv) && IsPodSelectors(pod, sv')
    ensures |sv| == |sv'| >= 7 + 2 * |pod.ownerReferences|
    ensures sv[..7] == sv'[..7]
    ensures sv[|sv| - 2 * |pod.ownerReferences|..] == sv'[|sv'| - 2 * |pod.ownerReferences|..]
    ensures multiset(sv) == multiset(sv')
  {
    PodSelectorsLength(pod, sv);
    PodSelectorsLength(pod, sv');
    PodSelectorsHeader(pod, sv);
    PodSelectorsHeader(pod, sv');
    assert sv[..7] == sv'[..7];
    PodOwnerSelectorsOrder(pod, sv);
    PodOwnerSelectorsOrder(pod, sv');
    PodSelectorsSameMultiset(pod, sv, sv');
  }

  lemma PodSelectorsSameMultiset(pod: Pod, sv: seq<string>, sv': seq<string>)
    requires IsPodSelectors(pod, sv) && IsPodSelectors(pod, sv')
    ensures multiset(sv) == multiset(sv')
  {
    var images, initImages, labelKeys :|
      && ValidOrders(pod, images, initImages, labelKeys)
      && (forall k :: k in labelKeys ==> k in pod.labels)
      && sv == PodSelectors(pod, images, initImages, labelKeys);
    var images', initImages', labelKeys' :|
      && ValidOrders(pod, images', initImages', labelKeys')
      && (forall k :: k in labelKeys' ==> k in pod.labels)
      && sv' == PodSelectors(pod, images', initImages', labelKeys');
    OrdersPermute(pod, images, initImages, labelKeys, images', initImages', labelKeys');
  }

  lemma OrdersPermute(pod: Pod, images: seq<string>, initImages: seq<string>, labelKeys: seq<string>,
                      images': seq<string>, initImages': seq<string>, labelKeys': seq<string>)
    requires ValidOrders(pod, images, initImages, labelKeys) && (forall k :: k in labelKeys ==> k in pod.labels)
    requires ValidOrders(pod, images', initImages', labelKeys') && (forall k :: k in labelKeys' ==> k in pod.labels)
    ensures multiset(PodSelectors(pod, images, initImages, labelKeys))
         == multiset(PodSelectors(pod, images', initImages', labelKeys'))
  {
    PrefixedPermute(POD_IMAGE, images, images', ImageIdentifiers(pod.containerStatuses));
    PrefixedPermute(POD_INIT_IMAGE, initImages, initImages', ImageIdentifiers(pod.initContainerStatuses));
    forall k ensures multiset(labelKeys)[k] == multiset(labelKeys')[k] {
      EnumerationMultiplicity(labelKeys, pod.labels.Keys, k);
      EnumerationMultiplicity(labelKeys', pod.labels.Keys, k);
    }
    assert multiset(labelKeys) == multiset(labelKeys');
    LabelSelectorsPermute(pod.labels, labelKeys, labelKeys');
    MultisetOfParts(Header(pod), Prefixed(POD_IMAGE, images), Prefixed(POD_INIT_IMAGE, initImages),
                    LabelSelectors(pod.labels, labelKeys), OwnerSelectors(pod.ownerReferences));
    MultisetOfParts(Header(pod), Prefixed(POD_IMAGE, images'), Prefixed(POD_INIT_IMAGE, initImages'),
                    LabelSelectors(pod.labels, labelKeys'), OwnerSelectors(pod.ownerReferences));
  }

  lemma MultisetOfParts(a: seq<string>, b: seq<string>, c: seq<string>, d: seq<string>, e: seq<string>)
    ensures multiset(a + b + c + d + e) == multiset(a) + multiset(b) + multiset(c) + multiset(d) + multiset(e)
  {
  }
}
