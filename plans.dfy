/**
 * Subscription plans and the weekly bet quotas of the browser client
 * (public/js/plans.js). The plan and the counters live in browser storage
 * under `userPlan`, `freeBetsThisWeek`, `premiumBetsThisWeek` and
 * `lastFreeBetReset`; `PlanStorage` holds them.
 */
module Plans {
  import opened Common

  /** One week in milliseconds. */
  const Week: int := 7 * 24 * 60 * 60 * 1000

  /** `localStorage.getItem('userPlan') || 'free'`: a missing or empty plan is the free plan. */
  function PlanOf(stored: Option<string>): (plan: string)
    ensures plan != ""
    ensures stored.Some? && stored.value != "" ==> plan == stored.value
    ensures stored.None? || stored == Some("") ==> plan == "free"
  {
    if stored.None? || stored.value == "" then "free" else stored.value
  }

  /** `parseInt(localStorage.getItem(key) || '0')` for a counter the script writes itself. */
  function CountOf(stored: Option<int>): int {
    stored.GetOr(0)
  }

  /** `getPlanDisplayName`. */
  function DisplayName(plan: string): string {
    match plan
    case "free" => "Gratis"
    case "premium" => "Premium"
    case "premium-plus" => "Premium+"
    case _ => plan
  }

  /** The plans the page knows by name. */
  predicate KnownPlan(plan: string) {
    plan == "free" || plan == "premium" || plan == "premium-plus"
  }

  /**
   * The three known plans are shown as "Gratis", "Premium" and "Premium+",
   * no two alike; any other plan is shown as it is stored; a user with no
   * stored plan sees "Gratis".
   */
  lemma DisplayNames(plan: string, other: string)
    ensures DisplayName("free") == "Gratis" && DisplayName("premium") == "Premium" && DisplayName("premium-plus") == "Premium+"
    ensures KnownPlan(plan) && KnownPlan(other) && plan != other ==> DisplayName(plan) != DisplayName(other)
    ensures !KnownPlan(plan) ==> DisplayName(plan) == plan
    ensures DisplayName(PlanOf(None)) == "Gratis"
  {
    assert "Gratis" != "Premium" && "Premium" != "Premium+" && "Gratis" != "Premium+" by {
      assert |"Gratis"| != |"Premium"| && |"Premium"| != |"Premium+"|;
      assert "Gratis"[0] != "Premium+"[0];
    }
  }

  /** What `updatePlanButtonText` does to a plan card's button. */
  datatype ButtonUpdate = Keep | SetText(text: string, disable: bool)

  /** The decision of `updatePlanButtonText(plan, current)`. */
  function PlanButton(plan: string, current: string): (u: ButtonUpdate)
    ensures u.SetText? && u.disable <==> plan == current
    ensures plan != current && plan == "free" ==> u == SetText("Nedgradera till gratis", false)
    ensures plan != current && plan != "free" && current == "free" ==> u == SetText("Uppgradera nu", false)
    ensures current == "premium" && plan == "premium-plus" ==> u == SetText("Uppgradera", false)
    ensures current == "premium-plus" && plan == "premium" ==> u == SetText("Nedgradera", false)
    ensures u == Keep <==>
      plan != current && plan != "free" && current != "free" &&
      !(current == "premium" && plan == "premium-plus") &&
      !(current == "premium-plus" && plan == "premium")
  {
    if plan == current then SetText("Din nuvarande plan", true)
    else if plan == "free" then SetText("Nedgradera till gratis", false)
    else if current == "free" then SetText("Uppgradera nu", false)
    else if (current == "premium" && plan == "premium-plus") || (current == "premium-plus" && plan == "premium") then
      SetText(if current == "premium" then "Uppgradera" else "Nedgradera", false)
    else Keep
  }

  /** The stored plan, the free-bet counter with its weekly reset date, and the premium counter. */
  datatype Quota = Quota(plan: Option<string>, freeUsed: Option<int>, premiumUsed: Option<int>, lastReset: Option<int>)

  /** `Math.max(0, 1 - used)`: a free user has one bet a week. */
  function FreeBetsLeft(used: int): (left: int)
    ensures left >= 0
    ensures used >= 0 ==> left <= 1
    ensures left == 0 <==> used >= 1
    ensures left > 0 ==> left == 1 - used
  {
    if 1 - used > 0 then 1 - used else 0
  }

  /** `calculateFreeBetsRemaining(now)`: None for paying plans; otherwise the weekly reset, then the bets left. */
  function FreeBetsRemaining(q: Quota, now: int): (res: (Option<int>, Quota))
    ensures PlanOf(q.plan) != "free" ==> res == (None, q)
    ensures PlanOf(q.plan) == "free" && now - CountOf(q.lastReset) > Week ==>
      res.1 == q.(freeUsed := Some(0), lastReset := Some(now)) && res.0 == Some(1)
    ensures PlanOf(q.plan) == "free" && now - CountOf(q.lastReset) <= Week ==>
      res.1 == q && res.0 == Some(FreeBetsLeft(CountOf(q.freeUsed)))
  {
    if PlanOf(q.plan) != "free" then (None, q)
    else
      var q' := if now - CountOf(q.lastReset) > Week then q.(freeUsed := Some(0), lastReset := Some(now)) else q;
      (Some(FreeBetsLeft(CountOf(q'.freeUsed))), q')
  }

  /** `useFreeBet()`: whether a bet may be placed, and the counters afterwards. */
  function SpendFreeBet(q: Quota): (res: (bool, Quota))
    ensures PlanOf(q.plan) == "premium-plus" ==> res == (true, q)
    ensures PlanOf(q.plan) == "premium" ==>
      (res.0 <==> CountOf(q.premiumUsed) < 5) &&
      (res.0 ==> res.1 == q.(premiumUsed := Some(CountOf(q.premiumUsed) + 1))) &&
      (!res.0 ==> res.1 == q)
    ensures PlanOf(q.plan) !in {"premium", "premium-plus"} ==>
      (res.0 <==> CountOf(q.freeUsed) < 1) &&
      (res.0 ==> res.1 == q.(freeUsed := Some(1))) &&
      (!res.0 ==> res.1 == q)
  {
    var plan := PlanOf(q.plan);
    if plan == "premium-plus" then (true, q)
    else if plan == "premium" then
      if CountOf(q.premiumUsed) >= 5 then (false, q)
      else (true, q.(premiumUsed := Some(CountOf(q.premiumUsed) + 1)))
    else if CountOf(q.freeUsed) >= 1 then (false, q)
    else (true, q.(freeUsed := Some(1)))
  }

  /** `upgradeToPlan(plan)`: stores the plan; choosing the free plan starts a fresh week. */
  function UpgradeTo(q: Quota, plan: string, now: int): (r: Quota)
    ensures r.plan == Some(plan) && r.premiumUsed == q.premiumUsed
    ensures plan == "free" ==> r.freeUsed == Some(0) && r.lastReset == Some(now)
    ensures plan != "free" ==> r.freeUsed == q.freeUsed && r.lastReset == q.lastReset
  {
    if plan == "free" then Quota(Some(plan), Some(0), q.premiumUsed, Some(now))
    else q.(plan := Some(plan))
  }

  /** A free user's bet succeeds once; a second one in the same week fails. */
  lemma FreeBetOncePerWeek(q: Quota, now: int)
    requires PlanOf(q.plan) !in {"premium", "premium-plus"}
    requires SpendFreeBet(q).0
    requires now - CountOf(q.lastReset) <= Week
    ensures !SpendFreeBet(SpendFreeBet(q).1).0
    ensures PlanOf(q.plan) == "free" ==> FreeBetsRemaining(SpendFreeBet(q).1, now).0 == Some(0)
  {
  }

  /** The number of successes among `n` consecutive calls of `useFreeBet`. */
  function Successes(q: Quota, n: nat): nat
    decreases n
  {
    if n == 0 then 0
    else
      var (ok, q') := SpendFreeBet(q);
      (if ok then 1 else 0) + Successes(q', n - 1)
  }

  /**
   * A premium user with `used` bets already placed gets exactly `min(n, 5 - used)`
   * of `n` further bets. Nothing ever resets the premium counter (the reset
   * only renews the free-bet date), so the five bets are a limit over the
   * account's lifetime, not per week.
   */
  lemma {:induction false} PremiumLifetimeLimit(q: Quota, n: nat)
    requires PlanOf(q.plan) == "premium" && CountOf(q.premiumUsed) >= 0
    ensures var left := if 5 - CountOf(q.premiumUsed) > 0 then 5 - CountOf(q.premiumUsed) else 0;
      Successes(q, n) == if n < left then n else left
    decreases n
  {
    if n > 0 {
      var (ok, q') := SpendFreeBet(q);
      PremiumLifetimeLimit(q', n - 1);
    }
  }

  /** Premium-plus users are never refused. */
  lemma {:induction false} PremiumPlusUnlimited(q: Quota, n: nat)
    requires PlanOf(q.plan) == "premium-plus"
    ensures Successes(q, n) == n
    decreases n
  {
    if n > 0 {
      PremiumPlusUnlimited(q, n - 1);
    }
  }

  /** Switching to the free plan gives one bet at once, whatever was used before. */
  lemma DowngradeGivesFreshWeek(q: Quota, now: int)
    ensures FreeBetsRemaining(UpgradeTo(q, "free", now), now).0 == Some(1)
    ensures SpendFreeBet(UpgradeTo(q, "free", now)).0
  {
  }

  /** The keys `plans.js` keeps in browser storage. */
  class PlanStorage {
    var userPlan: Option<string>
    var freeBetsThisWeek: Option<int>
    var premiumBetsThisWeek: Option<int>
    var lastFreeBetReset: Option<int>

    constructor (q: Quota)
      ensures State() == q
    {
      userPlan := q.plan;
      freeBetsThisWeek := q.freeUsed;
      premiumBetsThisWeek := q.premiumUsed;
      lastFreeBetReset := q.lastReset;
    }

    function State(): Quota
      reads this
    {
      Quota(userPlan, freeBetsThisWeek, premiumBetsThisWeek, lastFreeBetReset)
    }

    method CalculateFreeBetsRemaining(now: int) returns (left: Option<int>)
      modifies this`freeBetsThisWeek, this`lastFreeBetReset
      ensures (left, State()) == FreeBetsRemaining(old(State()), now)
    {
      var plan := PlanOf(userPlan);
      if plan != "free" {
        return None;
      }
      var lastReset := CountOf(lastFreeBetReset);
      if now - lastReset > Week {
        freeBetsThisWeek := Some(0);
        lastFreeBetReset := Some(now);
      }
      var used := CountOf(freeBetsThisWeek);
      left := Some(if 1 - used > 0 then 1 - used else 0);
    }

    method UseFreeBet() returns (ok: bool)
      modifies this`freeBetsThisWeek, this`premiumBetsThisWeek
      ensures (ok, State()) == SpendFreeBet(old(State()))
    {
      var plan := PlanOf(userPlan);
      if plan == "premium-plus" {
        return true;
      }
      if plan == "premium" {
        var used := CountOf(premiumBetsThisWeek);
        if used >= 5 {
          return false;
        }
        premiumBetsThisWeek := Some(used + 1);
        return true;
      }
      var used := CountOf(freeBetsThisWeek);
      if used >= 1 {
        return false;
      }
      freeBetsThisWeek := Some(1);
      return true;
    }

    method UpgradeToPlan(plan: string, now: int)
      modifies this
      ensures State() == UpgradeTo(old(State()), plan, now)
    {
      userPlan := Some(plan);
      if plan == "free" {
        freeBetsThisWeek := Some(0);
        lastFreeBetReset := Some(now);
      }
    }
  }
}
