# pvc-cleaner, modelled in Dafny

pvc-cleaner deletes orphaned persistent volume claims from a Kubernetes
cluster. One pass lists the claims in the configured namespace (all
namespaces when none is configured). It keeps the claims whose names pass
the optional prefix and suffix filters. It lists the pods and gathers every
pod volume that is backed by a claim. It then requests deletion of each
remaining claim that is not Bound, and of each Bound claim that no gathered
volume names. A Bound claim is deleted that way only when the pod listing
succeeded. A failed delete is logged and the pass goes on.

The model takes the cluster API's answers as inputs:

- the claim listing: `Option<seq<Claim>>`, `None` when the call failed;
- the pod listing: `Option<seq<Pod>>`, `None` when the call failed;
- the answer to the k-th delete request: `answers(k)`.

The configuration is `Option<Conf>`, `None` when the file could not be read
or parsed. A pass (`Cleanup.Run`) returns either `Aborted(cause)` or
`Completed(scope, attempts)`. `attempts` lists every delete request in
order, each with the claim's name and the answer it got.

Files:

- `kube.dfy`: the data model (claim, phase, volume, pod, configuration, delete answer).
- `filtering.dfy`: the stable filter all selections are built from, with its lemmas (exact, ordered, counted).
- `name_filter.dfy`: the prefix and suffix predicates, the claim filter loop, and the conditional filtering step.
- `usage.dfy`: gathering the claim-backed pod volumes (nested loop) and the usage lookup (linear search).
- `cleanup.dfy`: the orphan condition, the delete loop, the whole pass, and what a pass deletes.
- `scenarios.dfy`: concrete passes worked through the model.

Where the intended behaviour and the code differ, the model follows the code:

- A configuration file that cannot be read is meant to "load defaults". In the code, `readConf` then returns a nil configuration, and its namespace field is read at main.go:76. The pass therefore fails before listing anything, so the model aborts with `MissingConfig`.
- Usage is meant to be a set of claim names. The code keeps the gathered volumes and searches them linearly. The model does the same, and `Usage.ClaimVolumesMention` proves that the search answers the set question.

## Model

| member | source | states |
|---|---|---|
| `Filtering.Filter` | main.go:132-140 | the filtered list is no longer than the input, and every element in it is accepted by the predicate |
| `Filtering.FilterPositions` | main.go:132-140 | the kept elements stand in the input at strictly increasing positions, so the filter keeps the original order |
| `Filtering.FilterIsSubsequence` | main.go:132-140 | the filtered list is a subsequence of the input |
| `Filtering.FilterCount` | main.go:132-140 | an accepted value occurs in the result exactly as often as in the input; a rejected value never occurs |
| `Filtering.FilterMembers` | main.go:132-140 | an element is in the result iff it is in the input and the predicate accepts it |
| `Filtering.FilterKeepsAll` | main.go:132-140 | a predicate that accepts every element returns the list unchanged |
| `Filtering.FilterCongruent` | main.go:132-140 | two predicates that agree on the input's elements give the same result |
| `Filtering.FilterFilter` | main.go:87-93 | filtering by one predicate and then another equals one filter by their conjunction |
| `NameFilter.PrefixFilterMatches` | main.go:143-147 | the prefix closure accepts a name iff the name is the prefix followed by some rest |
| `NameFilter.SuffixFilterMatches` | main.go:150-154 | the suffix closure accepts a name iff the name is some rest followed by the suffix |
| `NameFilter.EmptyFiltersAcceptAll` | main.go:143-154 | the empty prefix and the empty suffix accept every name |
| `NameFilter.FilterClaims` | main.go:132-140 | the loop returns exactly the claims whose name the predicate accepts, as an order-preserving subsequence of the input |
| `NameFilter.SurvivorsAreAdmitted` | main.go:87-93 | prefix-then-suffix filtering, each applied only when its field is non-empty, equals one filter by "satisfies every non-empty field" |
| `NameFilter.ApplyNameFilters` | main.go:87-93 | after the filtering step, a claim remains iff it was listed and satisfies every non-empty filter field; the order is kept |
| `Usage.ClaimVolumesSound` | main.go:101-107 | every gathered volume has a claim source |
| `Usage.ClaimVolumesMention` | main.go:101-107 | a gathered volume names a claim iff some volume of some listed pod names it |
| `Usage.ReferencedIgnoresOrder` | main.go:101-107 | whether a claim is referenced does not depend on the order in which pods are listed |
| `Usage.CollectPodVolumes` | main.go:94-108 | on a failed pod listing nothing is gathered and the list is untrusted; otherwise the list is trusted and the result is each pod's claim-backed volumes, pod by pod and in volume order |
| `Usage.IsVolumeUsed` | main.go:122-129 | the lookup answers true iff some volume's claim source names the claim; it requires every volume to have a claim source, which the gathering step guarantees |
| `Cleanup.ListScope` | main.go:76-79 | an empty namespace selects every namespace, and the clients receive the configured namespace string unchanged |
| `Cleanup.IsOrphan` | main.go:111 | a claim that is not Bound is always an orphan; with an untrusted pod list a claim is an orphan iff it is not Bound; with a trusted list a Bound claim is an orphan iff it is unused |
| `Cleanup.DeleteOrphans` | main.go:110-119 | the loop issues exactly one delete request per orphan, in list order, and records each answer without stopping |
| `Cleanup.Run` | main.go:70-119 | a missing configuration or a failed claim listing aborts with no requests; otherwise the requests are exactly those for the planned claims, in order, with the k-th request getting the k-th answer |
| `Cleanup.PlannedExactly` | main.go:87-111 | a claim gets a delete request iff it was listed, passes the name filters, and is not Bound or is named by no volume of a successful pod listing |
| `Cleanup.PlannedInListingOrder` | main.go:110-119 | requests follow the listing order, and each listed claim is requested as often as it is listed when doomed and never otherwise |
| `Cleanup.UntrustedSparesBound` | main.go:94-111 | when the pod listing failed, no Bound claim is ever requested for deletion |
| `Cleanup.AttemptedNamesIgnoreAnswers` | main.go:110-119 | the sequence of requested names does not depend on the answers to the delete requests |
| `Scenarios.UsedBoundClaimKept` | main.go:111 | a Bound claim that a pod volume names gets no request |
| `Scenarios.UnusedBoundClaimDeleted` | main.go:111 | an unreferenced Bound claim gets a request when the pod list is trusted |
| `Scenarios.PendingClaimDeleted` | main.go:111 | a pending claim gets a request whatever the pods are |
| `Scenarios.UntrustedBoundClaimKept` | main.go:94-111 | an unreferenced Bound claim gets no request when the pod listing failed |
| `Scenarios.PrefixKeepsCacheClaims` | main.go:87-89 | the prefix "cache-" keeps "cache-a" and "cache-c", in that order, and drops "data-b" |

## Left out

- Reading and parsing the configuration file (main.go:27-40): file I/O and YAML decoding. The configuration is an input record, and `None` stands for any read or parse failure.
- Command-line flags, kubeconfig and in-cluster credentials, and building the API client (main.go:43-69): connection set-up outside the cleaning logic.
- The API calls themselves and their request context (main.go:80-85, 94, 113): they are the model's inputs (the listings and the delete answers).
- Logging: the model records each delete request and its answer instead of printing them.
- The two crash paths: a crash while setting up the client is outside the model. A failed claim listing is modelled as `Aborted(ClaimListFailed)` with no requests.
- Object fields other than a claim's name and phase and each volume's optional claim name. Namespaces of individual objects are not modelled. A claim is matched to volumes by name alone, as the code does.
- The phase is one of Pending, Bound, Lost or Unknown. The code compares a phase string only with "Bound", so any other string behaves as a non-Bound phase.
- Names are sequences of characters. The code compares bytes, which gives the same answers for valid UTF-8 names.
