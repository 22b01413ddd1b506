/**
  One cleanup pass: filter the listed claims by name, gather the claim-backed
  pod volumes, and request deletion of every remaining claim that is not
  Bound, or that is Bound while the pod list is trustworthy and no gathered
  volume names it. The cluster API is replaced by its answers: the claim
  listing and the pod listing (`None` when the call failed) and the answer
  to the k-th delete request (`answers(k)`).
 */
module Cleanup {
  import opened Kube
  import opened Filtering
  import opened NameFilter
  import opened Usage

  /** The namespace value the API client takes for "every namespace". */
  const NamespaceAll: string := ""

  datatype Scope = AllNamespaces | InNamespace(namespace: string)

  /** The namespace string the API clients are created with for `scope`. */
  function ClientNamespace(scope: Scope): string {
    match scope
    case AllNamespaces => NamespaceAll
    case InNamespace(ns) => ns
  }

  /**
    The listing scope of a run: an empty configured namespace means every
    namespace. Since "every namespace" is itself the empty string, the
    clients receive the configured value unchanged.
   */
  function ListScope(namespace: string): (scope: Scope)
    ensures scope.AllNamespaces? <==> namespace == ""
    ensures ClientNamespace(scope) == namespace
  {
    if namespace == "" then AllNamespaces else InNamespace(namespace)
  }

  /**
    The deletion condition for one claim: it is not Bound, or the pod list
    can be trusted and the claim is not used by any gathered volume.
   */
  function IsOrphan(claim: Claim, canTrustPodlist: bool, used: bool): (orphan: bool)
    ensures claim.phase != Bound ==> orphan
    ensures !canTrustPodlist ==> (orphan <==> claim.phase != Bound)
    ensures canTrustPodlist && claim.phase == Bound ==> (orphan <==> !used)
  {
    claim.phase != Bound || (canTrustPodlist && !used)
  }

  /** The deletion condition as a claim predicate, with "used" read off the gathered volumes. */
  function OrphanTest(podVolumes: seq<Volume>, canTrustPodlist: bool): Claim -> bool {
    (c: Claim) => IsOrphan(c, canTrustPodlist, Mentions(podVolumes, c.name))
  }

  /** `attempts` are delete requests for the claims `doomed`, in order, the k-th answered by `answers(k)`. */
  predicate Reports(attempts: seq<Attempt>, doomed: seq<Claim>, answers: nat -> DeleteResult) {
    && |attempts| == |doomed|
    && forall k :: 0 <= k < |attempts| ==> attempts[k] == Attempt(doomed[k].name, answers(k))
  }

  /**
    The delete loop: walks the filtered claims in order, requests deletion of
    each orphan once, records the answer and goes on to the next claim
    whatever the answer was. The usage lookup runs only for a Bound claim
    while the pod list is trusted, as the short-circuit condition has it.
   */
  method DeleteOrphans(items: seq<Claim>, podVolumes: seq<Volume>, canTrustPodlist: bool,
                       answers: nat -> DeleteResult) returns (attempts: seq<Attempt>)
    requires forall v :: v in podVolumes ==> HasClaimSource(v)
    ensures Reports(attempts, Filter(items, OrphanTest(podVolumes, canTrustPodlist)), answers)
  {
    attempts := [];
    for i := 0 to |items|
      invariant Reports(attempts, Filter(items[..i], OrphanTest(podVolumes, canTrustPodlist)), answers)
    {
      var item := items[i];
      assert items[..i + 1][..i] == items[..i];
      var delete := item.phase != Bound;
      if !delete && canTrustPodlist {
        var used := IsVolumeUsed(item, podVolumes);
        delete := !used;
      }
      if delete {
        var err := answers(|attempts|);
        attempts := attempts + [Attempt(item.name, err)];
      }
    }
    assert items[..|items|] == items;
  }

  /** The volumes a run gathers from a pod listing, `None` standing for a failed listing. */
  function PodVolumes(podList: Option<seq<Pod>>): seq<Volume> {
    if podList.Some? then ClaimVolumes(podList.value) else []
  }

  /** The claims a run requests deletion of, in the order of the requests. */
  function Planned(conf: Conf, claims: seq<Claim>, podList: Option<seq<Pod>>): seq<Claim> {
    Filter(Filter(claims, Admission(conf)), OrphanTest(PodVolumes(podList), podList.Some?))
  }

  /** The claim predicate that `Planned` amounts to. */
  function Doomed(conf: Conf, podList: Option<seq<Pod>>): Claim -> bool {
    Both(Admission(conf), OrphanTest(PodVolumes(podList), podList.Some?))
  }

  datatype Abort = MissingConfig | ClaimListFailed

  datatype RunResult = Aborted(cause: Abort) | Completed(scope: Scope, attempts: seq<Attempt>)

  /**
    A whole pass. A missing configuration (the config file could not be read
    or parsed) aborts before anything is listed, and so does a failed claim
    listing; a failed pod listing only makes the pod list untrustworthy.
   */
  method Run(conf: Option<Conf>, pvcList: Option<seq<Claim>>, podList: Option<seq<Pod>>,
             answers: nat -> DeleteResult) returns (run: RunResult)
    ensures conf.None? ==> run == Aborted(MissingConfig)
    ensures conf.Some? && pvcList.None? ==> run == Aborted(ClaimListFailed)
    ensures conf.Some? && pvcList.Some? ==>
              && run.Completed?
              && run.scope == ListScope(conf.value.namespace)
              && Reports(run.attempts, Planned(conf.value, pvcList.value, podList), answers)
  {
    if conf.None? {
      return Aborted(MissingConfig);
    }
    var scope := ListScope(conf.value.namespace);
    if pvcList.None? {
      return Aborted(ClaimListFailed);
    }
    var items := ApplyNameFilters(pvcList.value, conf.value);
    var podVolumes, canTrustPodlist := CollectPodVolumes(podList);
    var attempts := DeleteOrphans(items, podVolumes, canTrustPodlist, answers);
    return Completed(scope, attempts);
  }

  /**
    A listed claim is planned for deletion exactly when it passes the name
    filters and either is not Bound, or the pod listing succeeded and no
    volume of any listed pod names it.
   */
  lemma PlannedExactly(conf: Conf, claims: seq<Claim>, podList: Option<seq<Pod>>, c: Claim)
    ensures c in Planned(conf, claims, podList) <==>
              && c in claims
              && Admitted(conf, c.name)
              && (c.phase != Bound || (podList.Some? && !Referenced(podList.value, c.name)))
  {
    var kept := Filter(claims, Admission(conf));
    FilterMembers(kept, OrphanTest(PodVolumes(podList), podList.Some?), c);
    FilterMembers(claims, Admission(conf), c);
    if podList.Some? {
      ClaimVolumesMention(podList.value, c.name);
    }
  }

  /**
    Deletion is requested in listing order, and for each listed claim at most
    as often as it is listed: exactly that often when it is doomed, never
    otherwise.
   */
  lemma PlannedInListingOrder(conf: Conf, claims: seq<Claim>, podList: Option<seq<Pod>>, c: Claim)
    ensures IsSubsequence(Planned(conf, claims, podList), claims)
    ensures multiset(Planned(conf, claims, podList))[c] ==
              if Doomed(conf, podList)(c) then multiset(claims)[c] else 0
  {
    var doomed := Doomed(conf, podList);
    FilterFilter(claims, Admission(conf), OrphanTest(PodVolumes(podList), podList.Some?));
    FilterIsSubsequence(claims, doomed);
    FilterCount(claims, doomed, c);
  }

  /** When the pod listing failed, no Bound claim is ever planned for deletion, whatever references it. */
  lemma UntrustedSparesBound(conf: Conf, claims: seq<Claim>, c: Claim)
    requires c in Planned(conf, claims, None)
    ensures c.phase != Bound
  {
  }

  /** The names of a sequence of delete requests, in order. */
  function Names(attempts: seq<Attempt>): seq<string> {
    seq(|attempts|, k requires 0 <= k < |attempts| => attempts[k].name)
  }

  /**
    Which claims get a delete request, and in which order, does not depend on
    what the API answers: two runs over the same listings that differ only in
    the answers request the same names.
   */
  lemma AttemptedNamesIgnoreAnswers(doomed: seq<Claim>, attempts: seq<Attempt>, answers: nat -> DeleteResult,
                                    attempts': seq<Attempt>, answers': nat -> DeleteResult)
    requires Reports(attempts, doomed, answers)
    requires Reports(attempts', doomed, answers')
    ensures Names(attempts) == Names(attempts')
  {
  }
}
