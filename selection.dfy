/** Step three of the prediction: choose among the per-group estimates. */
module Selection {
  import opened Options

  /** The latest of a non-empty list of dates. */
  function Latest(ds: seq<int>): (m: int)
    requires ds != []
    ensures m in ds
    ensures forall k :: 0 <= k < |ds| ==> ds[k] <= m
  {
    if |ds| == 1 then ds[0]
    else
      var m0 := Latest(ds[..|ds| - 1]);
      assert forall k :: 0 <= k < |ds| - 1 ==> ds[..|ds| - 1][k] == ds[k];
      if ds[|ds| - 1] > m0 then ds[|ds| - 1] else m0
  }

  /** The selection loop of the source: start from null and replace the
      running choice by every estimate strictly later than it. Despite the
      source's naming ("nearest", "smallest"), this yields the LATEST
      estimate, and null only when there is no estimate at all. */
  method SelectLatest(estimates: seq<int>) returns (r: Option<int>)
    ensures r.None? <==> estimates == []
    ensures r.Some? ==> r.value in estimates && forall k :: 0 <= k < |estimates| ==> estimates[k] <= r.value
    ensures estimates != [] ==> r == Some(Latest(estimates))
  {
    r := None;
    for i := 0 to |estimates|
      invariant i == 0 <==> r.None?
      invariant r.Some? ==> r.value in estimates[..i] && forall k :: 0 <= k < i ==> estimates[k] <= r.value
    {
      if r.None? || r.value < estimates[i] {
        r := Some(estimates[i]);
      }
    }
    if estimates != [] {
      assert estimates[..|estimates|] == estimates;
      LatestUnique(estimates, r.value);
    }
  }

  /** Being in the list and no earlier than any of its elements determines
      the latest date. */
  lemma LatestUnique(ds: seq<int>, m: int)
    requires m in ds && forall k :: 0 <= k < |ds| ==> ds[k] <= m
    ensures Latest(ds) == m
  {
  }
}
