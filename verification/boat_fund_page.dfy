/** The arithmetic of the boat-fund admin page: the goal, the milestone
    markers, the contribution tiers, the confetti threshold, the remaining
    amount, and the guard on the form before it posts. All amounts are in
    pence. */
module BoatFundPage {
  import opened Wrappers
  import opened Text
  import opened Store
  import BoatFund

  /** The goal: thirty thousand pounds. */
  const GOAL: int := 3000000

  /** The percentages at which a milestone marker is drawn. */
  const MILESTONES: seq<int> := [25, 50, 75, 100]

  /** The amount a milestone stands for; exact, since the goal is a
      multiple of one hundred. */
  function MilestoneAmount(m: int): (a: int)
    ensures 100 * a == GOAL * m
  {
    GOAL * m / 100
  }

  /** Whether the marker for milestone `m` shows as reached. */
  predicate Reached(total: int, m: int) {
    total >= MilestoneAmount(m)
  }

  /** A milestone is reached exactly when the total is at least that share of
      the goal. */
  lemma ReachedIsShareOfGoal(total: int, m: int)
    ensures Reached(total, m) <==> 100 * total >= GOAL * m
  {
  }

  /** Reaching a milestone means reaching every smaller one. */
  lemma MilestonesMonotone(total: int, i: nat, j: nat)
    requires i <= j < |MILESTONES|
    requires Reached(total, MILESTONES[j])
    ensures Reached(total, MILESTONES[i])
  {
  }

  /** Only the final marker means the goal is met. */
  lemma LastMilestoneIsGoal(total: int)
    ensures Reached(total, MILESTONES[|MILESTONES| - 1]) <==> total >= GOAL
  {
  }

  /** The icon shown next to a contribution. */
  datatype Tier = Banknote | MoneyBag | Party {
    function Rank(): nat {
      match this
      case Banknote => 0
      case MoneyBag => 1
      case Party => 2
    }
  }

  const PARTY_PENCE: int := 100000
  const MONEY_BAG_PENCE: int := 50000

  function TierOf(amount: int): Tier
  {
    if amount >= PARTY_PENCE then Party
    else if amount >= MONEY_BAG_PENCE then MoneyBag
    else Banknote
  }

  /** A larger contribution never gets a lower tier, and every contribution of
      a thousand pounds or more gets the top one. */
  lemma TierMonotone(a: int, b: int)
    requires a <= b
    ensures TierOf(a).Rank() <= TierOf(b).Rank()
    ensures b >= PARTY_PENCE ==> TierOf(b) == Party
    ensures TierOf(a) == Party ==> TierOf(b) == Party
  {
  }

  /** What the goal still needs; negative once the goal is exceeded. */
  function Remaining(total: int): (r: int)
    ensures r + total == GOAL
    ensures r < 0 <==> total > GOAL
    ensures r == 0 <==> total == GOAL
  {
    GOAL - total
  }

  /** The request the form posts for a pence amount, or `None` when the guard
      stops it: a zero or negative amount sends nothing. */
  function SubmitRequest(pence: int, description: string): (r: Option<BoatFund.FundPost>)
    ensures r.None? <==> pence <= 0
    ensures r.Some? ==> r.value.amount == Some(pence)
    ensures r.Some? ==> Filled(r.value.description)
    ensures r.Some? && description != "" ==> r.value.description == Some(description)
  {
    if pence <= 0 then None
    else Some(BoatFund.FundPost(Some(pence), Some(if description != "" then description else "Contribution")))
  }

  /** Whether the celebration plays: only after a successful post of a
      thousand pounds or more. */
  predicate Confetti(pence: int, posted: bool) {
    posted && pence >= PARTY_PENCE
  }

  /** The effect of submitting the form: whether a request went out, whether
      confetti plays, and the ledger afterwards. */
  datatype Outcome = Outcome(sent: bool, confetti: bool, st: Store)

  function Submit(st: Store, pence: int, description: string, now: Instant): (o: Outcome)
    ensures !o.sent <==> pence <= 0
    ensures !o.sent ==> o.st == st && !o.confetti
    // the guard on the form is at least as strict as the one on the server
    ensures o.sent ==> |o.st.contributions| == |st.contributions| + 1
    ensures o.sent ==> o.st.contributions[|st.contributions|].amount == pence
    ensures o.sent ==> BoatFund.Sum(o.st.contributions) == BoatFund.Sum(st.contributions) + pence
    // confetti exactly for a top-tier contribution
    ensures o.confetti <==> o.sent && TierOf(pence) == Party
  {
    match SubmitRequest(pence, description)
    case None => Outcome(false, false, st)
    case Some(req) =>
      var step := BoatFund.Post(st, req, now);
      BoatFund.PostRaisesTotal(st, req, now);
      Outcome(true, Confetti(pence, step.reply.Added?), step.st)
  }

  /** The server keeps the description the form sends, so both apply the same
      default. */
  lemma FormAndServerAgreeOnDescription(st: Store, pence: int, description: string, now: Instant)
    requires pence > 0
    ensures var c := BoatFund.Post(st, SubmitRequest(pence, description).value, now).reply.contribution;
            c.description == (if description != "" then description else "Contribution")
  {
  }
}
