/**
  Concrete passes worked through the model: one claim used by a pod, one
  unused, one pending, one Bound claim seen with a failed pod listing, and a
  prefix filter over three claims.
 */
module Scenarios {
  import opened Kube
  import opened Filtering
  import opened NameFilter
  import opened Usage
  import opened Cleanup

  const NoFilters := Conf("", "", "")

  /** A Bound claim that a pod volume names is left alone. */
  lemma UsedBoundClaimKept()
    ensures Planned(NoFilters, [Claim("data-1", Bound)], Some([Pod([Volume(Some("data-1"))])])) == []
  {
    var pods := [Pod([Volume(Some("data-1"))])];
    assert pods[0].volumes[0].claimSource == Some("data-1");
    PlannedExactly(NoFilters, [Claim("data-1", Bound)], Some(pods), Claim("data-1", Bound));
  }

  /** A Bound claim that no pod names is deleted when the pod list is trusted. */
  lemma UnusedBoundClaimDeleted()
    ensures Planned(NoFilters, [Claim("data-2", Bound)], Some([Pod([Volume(None)])])) == [Claim("data-2", Bound)]
  {
  }

  /** A pending claim is deleted whatever uses it. */
  lemma PendingClaimDeleted(pods: Option<seq<Pod>>)
    ensures Planned(NoFilters, [Claim("tmp-3", Pending)], pods) == [Claim("tmp-3", Pending)]
  {
  }

  /** With a failed pod listing, an unreferenced Bound claim is not deleted. */
  lemma UntrustedBoundClaimKept()
    ensures Planned(NoFilters, [Claim("data-4", Bound)], None) == []
  {
  }

  /** The prefix "cache-" keeps the two cache claims, in their order. */
  lemma PrefixKeepsCacheClaims()
    ensures Filter([Claim("cache-a", Bound), Claim("data-b", Bound), Claim("cache-c", Bound)],
                   Admission(Conf("cache-", "", "")))
         == [Claim("cache-a", Bound), Claim("cache-c", Bound)]
  {
    var claims := [Claim("cache-a", Bound), Claim("data-b", Bound), Claim("cache-c", Bound)];
    assert "cache-a"[..6] == "cache-";
    assert "data-b"[..6] != "cache-" by {
      assert "data-b"[..6][0] == 'd';
    }
    assert "cache-c"[..6] == "cache-";
    assert claims[..2][..1] == claims[..1];
    assert claims[..1][..0] == [];
  }
}
