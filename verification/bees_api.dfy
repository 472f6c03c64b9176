/** The public product listing: active products in display order, each with
    its three newest testimonials. */
module BeesApi {
  import opened Wrappers
  import opened Queries
  import opened Store

  /** How many testimonials each product carries. */
  const TESTIMONIAL_LIMIT: nat := 3

  datatype Listed = Listed(bee: Bee, testimonials: seq<Testimonial>)

  function IsActive(b: Bee): bool { b.isActive }

  function Newness(t: Testimonial): int { -t.createdAt }

  /** The testimonials attached to `b`. */
  function Own(ts: seq<Testimonial>, b: Bee): (r: seq<Testimonial>)
    ensures forall k :: 0 <= k < |r| ==> r[k].beeId == Some(b.id) && r[k] in ts
    ensures forall i :: 0 <= i < |ts| && ts[i].beeId == Some(b.id) ==> ts[i] in r
    ensures multiset(r) <= multiset(ts)
    ensures forall t :: multiset(r)[t] == if t.beeId == Some(b.id) then multiset(ts)[t] else 0
    ensures Subsequence(r, ts)
  {
    FilterExact(ts, (t: Testimonial) => t.beeId == Some(b.id));
    Filter(ts, (t: Testimonial) => t.beeId == Some(b.id))
  }

  /** The three newest testimonials of `b`, newest first. */
  function Newest(ts: seq<Testimonial>, b: Bee): (r: seq<Testimonial>)
    ensures |r| <= TESTIMONIAL_LIMIT
    ensures multiset(r) <= multiset(Own(ts, b))
    ensures forall i, j :: 0 <= i < j < |r| ==> r[i].createdAt >= r[j].createdAt
    // a testimonial of `b` that is left out is no newer than any shown
    ensures forall i :: 0 <= i < |Own(ts, b)| ==>
              Own(ts, b)[i] in r || forall k :: 0 <= k < |r| ==> r[k].createdAt >= Own(ts, b)[i].createdAt
    // fewer than three are shown only when `b` has no more
    ensures |r| < TESTIMONIAL_LIMIT ==> multiset(r) == multiset(Own(ts, b))
  {
    var r := Top(Own(ts, b), Newness, TESTIMONIAL_LIMIT);
    assert forall i, j :: 0 <= i < j < |r| ==> Newness(r[i]) <= Newness(r[j]);
    r
  }

  /** Every testimonial shown belongs to `b`. */
  lemma NewestAreOwn(ts: seq<Testimonial>, b: Bee)
    ensures forall k :: 0 <= k < |Newest(ts, b)| ==> Newest(ts, b)[k].beeId == Some(b.id) && Newest(ts, b)[k] in ts
  {
    var r := Newest(ts, b);
    forall k | 0 <= k < |r| ensures r[k].beeId == Some(b.id) && r[k] in ts {
      assert r[k] in multiset(Own(ts, b));
    }
  }

  /** Attaches to each product what `pick` selects for it, keeping the
      product order. */
  function Attach(bees: seq<Bee>, pick: Bee -> seq<Testimonial>): (r: seq<Listed>)
    ensures |r| == |bees|
    ensures forall k :: 0 <= k < |r| ==> r[k] == Listed(bees[k], pick(bees[k]))
  {
    if |bees| == 0 then [] else [Listed(bees[0], pick(bees[0]))] + Attach(bees[1..], pick)
  }

  /** The products of a listing, in order. */
  function BeesOf(r: seq<Listed>): (bs: seq<Bee>)
    ensures |bs| == |r| && forall k :: 0 <= k < |r| ==> bs[k] == r[k].bee
  {
    if |r| == 0 then [] else [r[0].bee] + BeesOf(r[1..])
  }

  function DisplayOrder(b: Bee): int { b.sortOrder }

  /** The active products in ascending display order. */
  function Shown(bees: seq<Bee>): (r: seq<Bee>)
    ensures multiset(r) == multiset(Filter(bees, IsActive))
    ensures forall k :: 0 <= k < |r| ==> r[k].isActive && r[k] in bees
    ensures forall i, j :: 0 <= i < j < |r| ==> r[i].sortOrder <= r[j].sortOrder
  {
    var active := Filter(bees, IsActive);
    var r := Sort(active, DisplayOrder);
    SortedIsActive(bees, active, r);
    SortedByDisplayOrder(r);
    r
  }

  /** A permutation of the active products holds active products only. */
  lemma SortedIsActive(bees: seq<Bee>, active: seq<Bee>, r: seq<Bee>)
    requires active == Filter(bees, IsActive) && multiset(r) == multiset(active)
    ensures forall k :: 0 <= k < |r| ==> r[k].isActive && r[k] in bees
  {
    forall k | 0 <= k < |r| ensures r[k].isActive && r[k] in bees {
      assert r[k] in multiset(active);
      var j :| 0 <= j < |active| && active[j] == r[k];
      assert IsActive(active[j]);
    }
  }

  lemma SortedByDisplayOrder(r: seq<Bee>)
    requires SortedBy(r, DisplayOrder)
    ensures forall i, j :: 0 <= i < j < |r| ==> r[i].sortOrder <= r[j].sortOrder
  {
    assert forall i, j :: 0 <= i < j < |r| ==> DisplayOrder(r[i]) <= DisplayOrder(r[j]);
  }

  /** Attaching testimonials keeps the products and their order. */
  lemma AttachKeepsBees(bees: seq<Bee>, pick: Bee -> seq<Testimonial>)
    ensures BeesOf(Attach(bees, pick)) == bees
  {
    var r := Attach(bees, pick);
    assert forall k :: 0 <= k < |r| ==> BeesOf(r)[k] == bees[k];
  }

  /** `GET /api/bees`. */
  function List(st: Store): (r: seq<Listed>)
    // the active products and only those, each as often as it is stored
    ensures multiset(BeesOf(r)) == multiset(Filter(st.bees, IsActive))
    ensures forall k :: 0 <= k < |r| ==> r[k].bee.isActive && r[k].bee in st.bees
    // in ascending display order
    ensures forall i, j :: 0 <= i < j < |r| ==> r[i].bee.sortOrder <= r[j].bee.sortOrder
    // each with at most three of its own testimonials, newest first
    ensures forall k :: 0 <= k < |r| ==> r[k].testimonials == Newest(st.testimonials, r[k].bee)
  {
    var ordered := Shown(st.bees);
    AttachKeepsBees(ordered, b => Newest(st.testimonials, b));
    Attach(ordered, b => Newest(st.testimonials, b))
  }

  /** An inactive product is never listed. */
  lemma InactiveBeeNotListed(st: Store, b: Bee)
    requires !b.isActive
    ensures forall k :: 0 <= k < |List(st)| ==> List(st)[k].bee != b
  {
  }
}
