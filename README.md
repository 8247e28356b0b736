# k8s_sat workload attestor — a Dafny model

This project models the core of the `k8s_sat` SPIRE workload-attestor plugin
(`cmd/k8s_sat.go`). The core has two parts.

- **The selector builder.** `getPodImageIdentifiers`,
  `getSelectorValuesFromPodInfo` and
  `getSelectorValuesFromWorkloadContainerStatus` turn a Kubernetes pod record
  into a list of `key:value` selector strings. The pod list is:
  - seven fixed selectors, first;
  - one `pod-image:` selector per distinct container image identifier;
  - one `pod-init-image:` selector per distinct init-container image
    identifier;
  - one `pod-label:` selector per label;
  - a `pod-owner:` / `pod-owner-uid:` pair per owner reference, last.

  The container list is a `container-name:` selector followed by its
  `container-image:` selectors.
- **The `Attest` polling loop.**
  - It lists the cluster's pods at most `defaultMaxPollAttempts` (60) times.
  - It succeeds when exactly one listed pod carries a UID.
  - It fails with `Internal` as soon as a second such pod turns up.
  - It fails with `DeadlineExceeded` once the attempts are used up.
  - It fails with `Canceled` when the request context ends during the wait
    between two attempts.

Modules:

- `Pods` (pods.dfy): the pod, container-status and owner-reference records,
  as datatypes.
- `Strconv` (strconv.dfy): `strconv.Itoa` for the two counts, plus a decimal
  reader `Atoi`. The source has no `Atoi`; it is here only to state that a
  count selector can be read back as the count.
- `Enumerations` (enumerations.dfy): orders in which a Go program may range
  over a map, and strings built by prepending a selector key.
- `Selectors` (selectors.dfy): the builder as imperative methods with loops.
  - Go leaves the order of ranging over a map unspecified. The loops over the
    image sets and the label map therefore pick each next element with `:|`,
    so every order is allowed.
  - Each of those loops reports the order it chose as a ghost out-parameter.
  - `IsPodSelectors(pod, sv)` holds when `sv` is the list built under some
    valid choice of orders.
- `SelectorProperties` (selector_properties.dfy): what every such list
  guarantees. This covers the fixed prefix, the counts read back, the
  multiplicities of the image selectors, the label selectors and the ordered
  owner pairs, and the length. Two builds of one pod agree up to the order of
  the map-ordered middle part.
- `Attest` (attest.dfy): the loop.
  - The cluster is an input `listing(k)`: the pods returned at attempt `k`.
  - The context is an input `canceled(k)`: whether the wait after attempt `k`
    ends through `ctx.Done()`.
  - `Run` is the loop's specification.
  - `Attest` is a `while` loop proved equal to it.
  - Lemmas characterise each of the four outcomes in both directions.

## Model

| member | source | states |
|---|---|---|
| Strconv.Itoa | cmd/k8s_sat.go:136-137 | the rendering of a count is a non-empty string of decimal digits with no leading zero (except "0" itself) |
| Strconv.AtoiItoa | cmd/k8s_sat.go:136-137 | reading a rendered count back as a decimal gives the count |
| Strconv.ItoaInjective | cmd/k8s_sat.go:136-137 | distinct counts render as distinct strings |
| Selectors.ImageIdentifiersMembers | cmd/k8s_sat.go:111-127 | a string is an image identifier exactly when it is the ImageID or the Image of some given status |
| Selectors.ImageIdentifiersBound | cmd/k8s_sat.go:111-127 | at most two identifiers per status, and the set is empty exactly when no statuses are given |
| Selectors.ImageIdentifiersRepeat | cmd/k8s_sat.go:122-125 | listing a status a second time leaves the identifier set unchanged: map insertion is idempotent |
| Selectors.ImageIdentifiersDependOnlyOnMembers | cmd/k8s_sat.go:122-125 | the identifier set depends only on which statuses are given, not on their order or repetition |
| Selectors.GetPodImageIdentifiers | cmd/k8s_sat.go:111-127 | the loop's map holds exactly the union of {ImageID, Image} over the statuses, with at most 2 per status |
| Selectors.AppendPrefixed | cmd/k8s_sat.go:140-145 | ranging over a set appends key + v once for each element v, in some order that lists every element exactly once |
| Selectors.AppendLabelSelectors | cmd/k8s_sat.go:147-149 | ranging over the label map appends one `pod-label:k:v` per key, in some order that lists every key exactly once |
| Selectors.GetSelectorValuesFromPodInfo | cmd/k8s_sat.go:129-156 | the result is the header, then the image, init-image and label selectors under valid map orders, then the owner pairs; it has at least 7 entries |
| Selectors.GetSelectorValuesFromWorkloadContainerStatus | cmd/k8s_sat.go:158-164 | `container-name:<name>` first, then one `container-image:` entry per distinct value of {Image, ImageID}, so 2 or 3 entries |
| SelectorProperties.HeaderExcludes | cmd/k8s_sat.go:130-138 | none of the seven fixed selectors starts with the image, init-image, label or owner keys |
| SelectorProperties.OwnerSelectorsOrder | cmd/k8s_sat.go:150-153 | the owner part has 2 entries per owner reference: the pod-owner selector of reference j at 2j and its pod-owner-uid selector at 2j+1 |
| SelectorProperties.OwnerSelectorsKeys | cmd/k8s_sat.go:150-153 | the owner part holds exactly one pod-owner and one pod-owner-uid selector per owner reference |
| SelectorProperties.ImageKeyPlacement | cmd/k8s_sat.go:130-153 | apart from the pod-image part, no part of the list holds a pod-image selector |
| SelectorProperties.InitImageKeyPlacement | cmd/k8s_sat.go:130-153 | apart from the pod-init-image part, no part of the list holds a pod-init-image selector |
| SelectorProperties.LabelKeyPlacement | cmd/k8s_sat.go:130-153 | apart from the label part, no part of the list holds a pod-label selector |
| SelectorProperties.OwnerKeyPlacement | cmd/k8s_sat.go:130-153 | apart from the owner part, no part of the list holds a pod-owner or pod-owner-uid selector |
| SelectorProperties.PodSelectorsLength | cmd/k8s_sat.go:129-156 | the pod list has 7 + images + init images + labels + 2·owner references entries |
| SelectorProperties.PodSelectorsHeader | cmd/k8s_sat.go:130-138 | the first seven entries are sa, ns, node-name, pod-uid and pod-name, in that order, then the two counts, which read back as the numbers of container and init-container statuses |
| SelectorProperties.PodImageSelectorsOnce | cmd/k8s_sat.go:140-145 | under any map order, each distinct container image identifier occurs exactly once as `pod-image:` and each init one exactly once as `pod-init-image:`; no other string occurs under either key, and each key is used exactly once per identifier |
| SelectorProperties.ImageSelectorsOnce | cmd/k8s_sat.go:140-142 | for given orders, `pod-image:x` occurs once if x is a container image identifier and otherwise not at all, and the key is used once per identifier |
| SelectorProperties.InitImageSelectorsOnce | cmd/k8s_sat.go:143-145 | for given orders, `pod-init-image:x` occurs once if x is an init-container image identifier and otherwise not at all, and the key is used once per identifier |
| SelectorProperties.PodLabelSelectors | cmd/k8s_sat.go:147-149 | every label pair gives its `pod-label:k:v`, every pod-label entry comes from a label pair, and there are exactly as many as labels |
| SelectorProperties.LabelSelectorsPresent | cmd/k8s_sat.go:147-149 | for given orders, every label pair's selector is in the list |
| SelectorProperties.LabelSelectorsOrigin | cmd/k8s_sat.go:147-149 | for given orders, every pod-label entry of the list is the selector of some label pair |
| SelectorProperties.LabelSelectorsCount | cmd/k8s_sat.go:147-149 | for given orders, the list has exactly one pod-label entry per label |
| SelectorProperties.PodOwnerSelectorsOrder | cmd/k8s_sat.go:150-153 | the list ends with the owner pairs in owner-reference order, each pod-owner entry immediately followed by its pod-owner-uid entry |
| SelectorProperties.PodOwnerSelectorsCount | cmd/k8s_sat.go:150-153 | the list has exactly one pod-owner and one pod-owner-uid entry per owner reference |
| SelectorProperties.LabelSelectorsPermute | cmd/k8s_sat.go:147-149 | ranging over the label keys in another order permutes the label selectors |
| SelectorProperties.PrefixedPermute | cmd/k8s_sat.go:140-145 | two orders of one image set give the same image selectors, up to order |
| SelectorProperties.OrdersPermute | cmd/k8s_sat.go:140-149 | the pod lists built under any two valid choice of orders hold the same strings, each as often |
| SelectorProperties.PodSelectorsUpToOrder | cmd/k8s_sat.go:129-156 | two builds of one pod have the same length, the same first seven entries and the same owner tail, and are permutations of each other |
| Attest.KnownPodsMultiset | cmd/k8s_sat.go:64-73 | the pods that yield selectors are exactly the listed pods with a non-empty UID, each as often as it is listed |
| Attest.ScanIgnoresOrder | cmd/k8s_sat.go:59-82 | an attempt's decision does not depend on the order of the listing |
| Attest.MatchIsTheKnownPod | cmd/k8s_sat.go:59-82 | a match is a listed pod with a UID, listed once, and every other listed pod has an empty UID |
| Attest.UnknownPodIgnored | cmd/k8s_sat.go:64-75 | inserting a pod with an empty UID anywhere in a listing does not change the attempt's decision |
| Attest.RunSkipsQuiet | cmd/k8s_sat.go:50-104 | attempts that find no known pod and are not cancelled leave the loop's outcome unchanged |
| Attest.RunExplained | cmd/k8s_sat.go:50-104 | every outcome names the attempt that decided it, all attempts before it were quiet, and that attempt saw what the outcome says |
| Attest.AttemptsBounded | cmd/k8s_sat.go:50-94 | the loop makes between 1 and 60 listings |
| Attest.SelectedIff | cmd/k8s_sat.go:59-88 | success with pod p at attempt k exactly when p is the only pod with a UID in listing k and all earlier attempts were quiet |
| Attest.AmbiguousIff | cmd/k8s_sat.go:75-79 | the Internal "two pods" error at attempt k exactly when listing k has two or more pods with a UID and all earlier attempts were quiet |
| Attest.ExhaustedIff | cmd/k8s_sat.go:91-94 | DeadlineExceeded exactly when none of the 60 listings has a pod with a UID and none of the waits was cancelled |
| Attest.CanceledIff | cmd/k8s_sat.go:99-103 | Canceled after attempt k exactly when attempt k < 60 was quiet apart from its wait being cancelled; listing k + 1 is never made |
| Attest.NeverKnownExhausts | cmd/k8s_sat.go:91-94 | a cluster that never lists a pod with a UID and a context that is never cancelled give exactly 60 listings and DeadlineExceeded |
| Attest.ScanPods | cmd/k8s_sat.go:59-82 | one attempt's scan reports ambiguity exactly when the listing has two or more pods with a UID; otherwise it returns a response exactly when there is one, and the response is that pod's selector list |
| Attest.Attest | cmd/k8s_sat.go:44-105 | the loop returns exactly the outcome its specification Run gives and makes as many listings as Run says; on success it returns the selected pod's selectors, a list of at least 7 entries |

## Left out

- The cluster client (`cmd/k8s_sat_posix.go`) is not part of this model. This covers client construction, kubeconfig and environment handling, the namespace filter and the annotation updates. Each attempt's pod list is an input.
- `pods` is never nil in the model. In the source, `GetPodsFromK8sClient` returns nil when no client can be built (cmd/k8s_sat_posix.go:160-161), and ranging over `pods.Items` then fails (cmd/k8s_sat.go:57-59).
- The logger is not modelled. In the source, `log` is declared as a nil `hclog.Logger` (cmd/k8s_sat.go:46), so calling `log.With` at line 52, as written, fails on the first attempt. The model follows the control flow the loop evidently intends.
- The model does not reproduce the debug print at cmd/k8s_sat.go:84. It reads `attestResponse.SelectorValues` before the nil check, which fails whenever an attempt finds no pod with a UID. The model follows lines 86-103 as intended.
- The following are left out as output-only: `fmt.Printf` output, `hclog` warnings and telemetry, and the printing of `req.SaName` and `req.Pid`. `req.Pid` plays no part in matching.
- The clock and the context are reduced to the `canceled` oracle. `defaultPollRetryInterval` survives only as the constant `Attest.POLL_RETRY_INTERVAL_MS`.
  - The duration of a wait is not modelled.
  - A Go `select` with both channels ready picks either one. The oracle may answer either way, so both outcomes are covered.
- `New`, `SetLogger` and `Configure` are left out, as is plugin hosting (`main.go`). They hold no logic beyond storing a logger and a clock. `Configure` returns an empty response.
- `Strconv.Itoa`: covers only the non-negative integers it is applied to (slice lengths).
- `Selectors.GetSelectorValuesFromPodInfo` does not fix an order. The order of the image, init-image and label selectors depends on Go's map iteration order, so the model leaves it open. A description of this attestor calls the selector list deduplicated and stably ordered, but the code is neither:
  - two builds of one pod may differ in that middle part;
  - duplicate owner references give duplicate owner selectors.

  The model follows the code and proves what does hold (`SelectorProperties.PodSelectorsUpToOrder`).
- Only the fields of a pod that the builder reads are modelled. Kubernetes objects carry many more.
