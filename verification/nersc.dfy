/** The client's NERSC support: recognising the NERSC deployment and fetching
    (or creating) its `cori` cluster. */
module Nersc {
  import opened Wrappers
  import opened Lists
  import opened Store

  /** The host name of the NERSC deployment. */
  const NerscHost := "nersc.openchemistry.org"

  /** `_nersc`: the `GIRDER_HOST` setting names the NERSC deployment. An unset
      variable is `None`. */
  predicate NerscSite(girderHost: Option<string>) {
    girderHost == Some(NerscHost)
  }

  /** `_fetch_cori_cluster`: ask the store for the `newt` clusters named `cori`;
      return the first, or post a new one when there is none. The result is
      the store afterwards and the cluster. */
  function FetchCoriCluster(clusters: seq<Cluster>): (r: (seq<Cluster>, Cluster))
    ensures IsCori(r.1)
    ensures |r.0| == |clusters| || r.0 == clusters + [NewCori(|clusters|)]
  {
    var found := Filter(clusters, IsCori);
    if |found| > 0 then (clusters, found[0])
    else (clusters + [NewCori(|clusters|)], NewCori(|clusters|))
  }

  /** The first element the filter keeps is the first match. */
  lemma {:induction false} FilterHeadIsFirstMatch<T>(xs: seq<T>, p: T -> bool)
    ensures |Filter(xs, p)| > 0 <==> FirstMatch(xs, p).Some?
    ensures |Filter(xs, p)| > 0 ==> Filter(xs, p)[0] == xs[FirstMatch(xs, p).value]
    decreases |xs|
  {
    if |xs| > 0 && !p(xs[0]) {
      FilterHeadIsFirstMatch(xs[1..], p);
      if FirstMatch(xs[1..], p).Some? {
        assert xs[1..][FirstMatch(xs[1..], p).value] == xs[FirstMatch(xs, p).value];
      }
    }
  }

  /** The client's lookup and the taskflow's `_get_cori` agree: the same
      cluster is returned, and a cluster is created in exactly the same
      cases. */
  lemma FetchCoriAgreesWithTaskflow(clusters: seq<Cluster>)
    ensures FetchCoriCluster(clusters) == GetCori(clusters)
  {
    FilterHeadIsFirstMatch(clusters, IsCori);
  }

  /** An existing `cori` cluster is returned unchanged and nothing is posted. */
  lemma FetchCoriReturnsExisting(clusters: seq<Cluster>, j: nat)
    requires j < |clusters| && IsCori(clusters[j])
    requires forall k :: 0 <= k < j ==> !IsCori(clusters[k])
    ensures FetchCoriCluster(clusters) == (clusters, clusters[j])
  {
    FetchCoriAgreesWithTaskflow(clusters);
    GetCoriReturnsFirst(clusters, j);
  }

  /** A cluster is created only when none exists, with host `cori`. */
  lemma FetchCoriCreatesOnlyWhenMissing(clusters: seq<Cluster>)
    ensures FetchCoriCluster(clusters).0 != clusters <==> forall j :: 0 <= j < |clusters| ==> !IsCori(clusters[j])
    ensures FetchCoriCluster(clusters).0 != clusters ==> FetchCoriCluster(clusters).1 == NewCori(|clusters|)
  {
    FetchCoriAgreesWithTaskflow(clusters);
    FilterHeadIsFirstMatch(clusters, IsCori);
    if forall j :: 0 <= j < |clusters| ==> !IsCori(clusters[j]) {
      assert |FetchCoriCluster(clusters).0| == |clusters| + 1;
    }
  }
}
