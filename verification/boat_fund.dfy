/** The boat-fund ledger: contributions in pence are only ever appended, the
    listing shows the newest fifty, and the total runs over every row. */
module BoatFund {
  import opened Wrappers
  import opened Text
  import opened Queries
  import opened Store

  /** How many contributions the listing shows. */
  const WINDOW: nat := 50

  /** The create request; `amount` is `None` when missing or null. */
  datatype FundPost = FundPost(amount: Option<int>, description: Option<string>)

  datatype PostReply = Added(contribution: Contribution) | InvalidAmount {
    function Code(): int {
      if Added? then 200 else 400
    }
  }

  /** The sum of the amounts of `cs`. */
  function Sum(cs: seq<Contribution>): int
  {
    if |cs| == 0 then 0 else cs[0].amount + Sum(cs[1..])
  }

  /** Appending a row adds its amount to the sum. */
  lemma {:induction false} SumAppend(cs: seq<Contribution>, c: Contribution)
    ensures Sum(cs + [c]) == Sum(cs) + c.amount
  {
    if |cs| > 0 {
      assert (cs + [c])[1..] == cs[1..] + [c];
      SumAppend(cs[1..], c);
    }
  }

  /** The sum does not depend on the order of the rows. */
  lemma {:induction false} SumPermutation(a: seq<Contribution>, b: seq<Contribution>)
    requires multiset(a) == multiset(b)
    ensures Sum(a) == Sum(b)
    decreases |a|
  {
    if |a| > 0 {
      assert a[0] in multiset(b);
      var k :| 0 <= k < |b| && b[k] == a[0];
      var rest := b[..k] + b[k + 1..];
      assert b == b[..k] + [b[k]] + b[k + 1..];
      assert a == [a[0]] + a[1..];
      assert multiset(a) == multiset{a[0]} + multiset(a[1..]);
      assert multiset(b) == multiset(b[..k]) + multiset{b[k]} + multiset(b[k + 1..]);
      assert multiset(rest) == multiset(b[..k]) + multiset(b[k + 1..]);
      assert multiset(a[1..]) == multiset(a) - multiset{a[0]};
      assert multiset(rest) == multiset(b) - multiset{b[k]};
      SumPermutation(a[1..], rest);
      SumSplit(b[..k], b[k], b[k + 1..]);
    } else {
      assert |b| == 0;
    }
  }

  /** Removing one row from the middle takes off exactly its amount. */
  lemma {:induction false} SumSplit(x: seq<Contribution>, c: Contribution, y: seq<Contribution>)
    ensures Sum(x + [c] + y) == Sum(x + y) + c.amount
  {
    if |x| == 0 {
      assert x + [c] + y == [c] + y;
      assert x + y == y;
    } else {
      assert (x + [c] + y)[1..] == x[1..] + [c] + y;
      assert (x + y)[1..] == x[1..] + y;
      SumSplit(x[1..], c, y);
    }
  }

  /** A total is never negative when every amount is positive. */
  lemma {:induction false} SumOfPositives(cs: seq<Contribution>)
    requires forall i :: 0 <= i < |cs| ==> cs[i].amount > 0
    ensures Sum(cs) >= 0
    ensures |cs| > 0 ==> Sum(cs) > 0
  {
    if |cs| > 0 {
      SumOfPositives(cs[1..]);
    }
  }

  /** `POST /api/boat-fund`. */
  function Post(st: Store, req: FundPost, now: Instant): (r: Step<PostReply>)
    ensures r.reply.InvalidAmount? <==> req.amount.None? || req.amount.value <= 0
    ensures r.reply.InvalidAmount? ==> r.st == st
    ensures r.reply.Added? ==>
      var c := r.reply.contribution;
      // exactly one row is appended; the existing ones are untouched
      && r.st == st.(contributions := st.contributions + [c], nextId := st.nextId + 1)
      && c.id == st.nextId && c.createdAt == now
      && c.amount == req.amount.value && c.amount > 0
      // an empty or missing description becomes the default
      && c.description == (if Filled(req.description) then req.description.value else "Contribution")
    ensures WellFormed(st) ==> WellFormed(r.st)
  {
    if req.amount.None? || req.amount.value <= 0 then Step(InvalidAmount, st)
    else
      var c := Contribution(st.nextId, req.amount.value, OrDefault(req.description, "Contribution"), now);
      Step(Added(c), st.(contributions := st.contributions + [c], nextId := st.nextId + 1))
  }

  /** A successful post raises the total by exactly its amount. */
  lemma PostRaisesTotal(st: Store, req: FundPost, now: Instant)
    requires Post(st, req, now).reply.Added?
    ensures Sum(Post(st, req, now).st.contributions) == Sum(st.contributions) + req.amount.value
    ensures Sum(Post(st, req, now).st.contributions) > Sum(st.contributions)
  {
    SumAppend(st.contributions, Post(st, req, now).reply.contribution);
  }

  datatype Listing = Listing(contributions: seq<Contribution>, total: int)

  /** `GET /api/boat-fund`. */
  function Get(st: Store): (r: Listing)
    // at most fifty rows, newest first, all drawn from the ledger
    ensures |r.contributions| <= WINDOW
    ensures |r.contributions| == WINDOW || |r.contributions| == |st.contributions|
    ensures forall i, j :: 0 <= i < j < |r.contributions| ==>
              r.contributions[i].createdAt >= r.contributions[j].createdAt
    ensures multiset(r.contributions) <= multiset(st.contributions)
    // a row that is not shown is no newer than any row shown
    ensures forall i :: 0 <= i < |st.contributions| ==>
              st.contributions[i] in r.contributions
              || forall k :: 0 <= k < |r.contributions| ==>
                   r.contributions[k].createdAt >= st.contributions[i].createdAt
    // the total covers every row, shown or not
    ensures r.total == Sum(st.contributions)
    ensures |st.contributions| <= WINDOW ==> r.total == Sum(r.contributions)
  {
    var shown := Top(st.contributions, (c: Contribution) => -c.createdAt, WINDOW);
    assert forall i, j :: 0 <= i < j < |shown| ==> -shown[i].createdAt <= -shown[j].createdAt;
    if |st.contributions| <= WINDOW then SumPermutation(shown, st.contributions); Listing(shown, Sum(st.contributions))
    else Listing(shown, Sum(st.contributions))
  }

  /** `n` unit contributions, created one after the other. */
  function Ones(n: nat): (cs: seq<Contribution>)
    ensures |cs| == n
    ensures forall k :: 0 <= k < n ==> cs[k].amount == 1
  {
    if n == 0 then [] else Ones(n - 1) + [Contribution(n - 1, 1, "Contribution", n - 1)]
  }

  /** A run of unit amounts sums to its length. */
  lemma {:induction false} OnesSum(cs: seq<Contribution>)
    requires forall k :: 0 <= k < |cs| ==> cs[k].amount == 1
    ensures Sum(cs) == |cs|
  {
    if |cs| > 0 {
      OnesSum(cs[1..]);
    }
  }

  /** Once there are more than fifty rows, the total exceeds what the
      listing shows: with fifty-one unit contributions it is 51, while the
      rows listed add up to 50. */
  lemma TotalCoversUnlistedRows(st: Store)
    requires st.contributions == Ones(51)
    ensures Get(st).total == 51
    ensures Sum(Get(st).contributions) == 50
  {
    var r := Get(st);
    OnesSum(st.contributions);
    forall k | 0 <= k < |r.contributions| ensures r.contributions[k].amount == 1 {
      assert r.contributions[k] in multiset(st.contributions);
    }
    OnesSum(r.contributions);
  }
}
