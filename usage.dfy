/**
  Which claims are in use: the pod volumes that have a claim source are
  gathered from a successful pod listing, and a claim counts as used when
  one of the gathered volumes names it.
 */
module Usage {
  import opened Kube
  import opened Filtering

  predicate HasClaimSource(v: Volume) {
    v.claimSource.Some?
  }

  /** The claim-backed volumes of `pods`, pod by pod, each pod's volumes in their order. */
  function ClaimVolumes(pods: seq<Pod>): seq<Volume> {
    if pods == [] then []
    else ClaimVolumes(pods[..|pods| - 1]) + Filter(pods[|pods| - 1].volumes, HasClaimSource)
  }

  /** Some volume of some pod in `pods` is backed by the claim called `name`. */
  ghost predicate Referenced(pods: seq<Pod>, name: string) {
    exists i, j :: 0 <= i < |pods| && 0 <= j < |pods[i].volumes| && pods[i].volumes[j].claimSource == Some(name)
  }

  /** Some volume in `volumes` is backed by the claim called `name`. */
  predicate Mentions(volumes: seq<Volume>, name: string) {
    exists k :: 0 <= k < |volumes| && volumes[k].claimSource == Some(name)
  }

  /** Every gathered volume has a claim source. */
  lemma {:induction false} ClaimVolumesSound(pods: seq<Pod>)
    ensures forall v :: v in ClaimVolumes(pods) ==> HasClaimSource(v)
  {
    if pods != [] {
      var n := |pods| - 1;
      ClaimVolumesSound(pods[..n]);
      forall v | v in Filter(pods[n].volumes, HasClaimSource) ensures HasClaimSource(v) {
        FilterMembers(pods[n].volumes, HasClaimSource, v);
      }
    }
  }

  /** A claim is named by a gathered volume exactly when some pod's volume names it. */
  lemma {:induction false} ClaimVolumesMention(pods: seq<Pod>, name: string)
    ensures Mentions(ClaimVolumes(pods), name) <==> Referenced(pods, name)
  {
    if pods == [] {
    } else {
      var n := |pods| - 1;
      var front: seq<Volume>, last: seq<Volume> := ClaimVolumes(pods[..n]), Filter(pods[n].volumes, HasClaimSource);
      var vs := pods[n].volumes;
      ClaimVolumesMention(pods[..n], name);
      assert ClaimVolumes(pods) == front + last;
      var v := Volume(Some(name));
      FilterMembers(vs, HasClaimSource, v);
      if Mentions(ClaimVolumes(pods), name) {
        var k :| 0 <= k < |front + last| && (front + last)[k].claimSource == Some(name);
        if k >= |front| {
          assert last[k - |front|] == v;
          var j :| 0 <= j < |vs| && vs[j] == v;
          assert pods[n].volumes[j].claimSource == Some(name);
        } else {
          assert Mentions(front, name);
          var i, j :| 0 <= i < n && 0 <= j < |pods[..n][i].volumes| && pods[..n][i].volumes[j].claimSource == Some(name);
          assert pods[i].volumes[j].claimSource == Some(name);
        }
      }
      if Referenced(pods, name) {
        var i, j :| 0 <= i < |pods| && 0 <= j < |pods[i].volumes| && pods[i].volumes[j].claimSource == Some(name);
        if i == n {
          assert vs[j] == v;
          var k :| 0 <= k < |last| && last[k] == v;
          assert (front + last)[|front| + k] == v;
        } else {
          assert pods[..n][i] == pods[i];
          assert Referenced(pods[..n], name);
          var k :| 0 <= k < |front| && front[k].claimSource == Some(name);
          assert (front + last)[k] == front[k];
        }
      }
    }
  }

  /** Whether a claim is referenced does not depend on the order in which the pods are listed. */
  lemma ReferencedIgnoresOrder(pods: seq<Pod>, reordered: seq<Pod>, name: string)
    requires multiset(pods) == multiset(reordered)
    ensures Referenced(pods, name) <==> Referenced(reordered, name)
  {
    forall a: seq<Pod>, b: seq<Pod> | multiset(a) == multiset(b) && Referenced(a, name)
      ensures Referenced(b, name)
    {
      var i, j :| 0 <= i < |a| && 0 <= j < |a[i].volumes| && a[i].volumes[j].claimSource == Some(name);
      assert a[i] in multiset(b);
      var i' :| 0 <= i' < |b| && b[i'] == a[i];
    }
  }

  /**
    The volume-gathering step of a run. A failed pod listing (`None`) gathers
    nothing and marks the pod list untrustworthy; a successful one gathers,
    pod by pod, every volume that has a claim source.
   */
  method CollectPodVolumes(podList: Option<seq<Pod>>) returns (podVolumes: seq<Volume>, canTrustPodlist: bool)
    ensures canTrustPodlist <==> podList.Some?
    ensures podList.None? ==> podVolumes == []
    ensures podList.Some? ==> podVolumes == ClaimVolumes(podList.value)
    ensures forall v :: v in podVolumes ==> HasClaimSource(v)
  {
    podVolumes := [];
    canTrustPodlist := true;
    if podList.None? {
      canTrustPodlist := false;
    } else {
      var pods := podList.value;
      for i := 0 to |pods|
        invariant podVolumes == ClaimVolumes(pods[..i])
      {
        var volumes := pods[i].volumes;
        for j := 0 to |volumes|
          invariant podVolumes == ClaimVolumes(pods[..i]) + Filter(volumes[..j], HasClaimSource)
        {
          assert volumes[..j + 1][..j] == volumes[..j];
          if volumes[j].claimSource.Some? {
            podVolumes := podVolumes + [volumes[j]];
          }
        }
        assert volumes[..|volumes|] == volumes;
        assert pods[..i + 1][..i] == pods[..i];
      }
      assert pods[..|pods|] == pods;
      ClaimVolumesSound(pods);
    }
  }

  /**
    Linear search for a volume whose claim source names `volumeClaim`.
    Every volume is required to have a claim source, as the gathering step
    guarantees (the lookup dereferences it).
   */
  method IsVolumeUsed(volumeClaim: Claim, volumes: seq<Volume>) returns (used: bool)
    requires forall v :: v in volumes ==> HasClaimSource(v)
    ensures used <==> exists k :: 0 <= k < |volumes| && volumes[k].claimSource == Some(volumeClaim.name)
  {
    for i := 0 to |volumes|
      invariant forall k :: 0 <= k < i ==> volumes[k].claimSource != Some(volumeClaim.name)
    {
      assert volumes[i] in volumes;
      if volumes[i].claimSource.value == volumeClaim.name {
        return true;
      }
    }
    return false;
  }
}
