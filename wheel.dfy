/**
 * The wheel of fortune in the browser client (public/js/wheel.js): the spin
 * counter and its plan-based initial value, buying extra spins, the weighted
 * prize draw and crediting a coin prize. Storage keys: `gobet_user_plan`,
 * `gobet_user_coins` (read as 5000 when missing) and `gobet_remaining_spins`.
 */
module Wheel {
  import opened Common
  import Plans

  /** A wheel section: its label and its integer weight. */
  datatype Prize = Prize(name: string, probability: int)

  /** The sections of the wheel, in order. */
  const Prizes: seq<Prize> := [
    Prize("250 GoCoins", 20),
    Prize("500 GoCoins", 15),
    Prize("1000 GoCoins", 8),
    Prize("Premium 1 dag", 5),
    Prize("Premium 1 vecka", 2),
    Prize("Exklusiv Avatar", 5),
    Prize("Sällsynt Item", 3),
    Prize("Tyvärr, inget", 42)
  ]

  /** The coin balance a missing `gobet_user_coins` stands for on this page. */
  const DefaultCoins: int := 5000

  // `localStorage.getItem('gobet_user_plan') || 'free'` applies the same
  // default as the plans page, read from this page's own key: Plans.PlanOf.

  /** The spin count `updateRemainingSpins(plan)` stores when none is stored. */
  function InitialSpins(plan: string): int {
    if plan == "premium" then 3 else if plan == "premium-plus" then 5 else 1
  }

  /** The price of one extra spin in `buyAdditionalSpin`. */
  function SpinCost(plan: string): int {
    if plan == "premium" then 350 else if plan == "premium-plus" then 200 else 500
  }

  /**
   * 1, 3 and 5 starting spins: a better plan starts with more, and any other
   * plan, or a missing one, is treated as free.
   */
  lemma SpinsByPlan(plan: string)
    ensures InitialSpins("free") == 1 && InitialSpins("premium") == 3 && InitialSpins("premium-plus") == 5
    ensures InitialSpins("free") < InitialSpins("premium") < InitialSpins("premium-plus")
    ensures plan != "premium" && plan != "premium-plus" ==> InitialSpins(plan) == InitialSpins("free")
    ensures InitialSpins(Plans.PlanOf(None)) == 1
  {
  }

  /**
   * Extra spins cost 500, 350 and 200 coins: a better plan pays less, and any
   * other plan, or a missing one, pays the free price.
   */
  lemma CostByPlan(plan: string)
    ensures SpinCost("free") == 500 && SpinCost("premium") == 350 && SpinCost("premium-plus") == 200
    ensures SpinCost("free") > SpinCost("premium") > SpinCost("premium-plus")
    ensures plan != "premium" && plan != "premium-plus" ==> SpinCost(plan) == SpinCost("free")
    ensures SpinCost(Plans.PlanOf(None)) == 500 && SpinCost(Plans.PlanOf(Some(""))) == 500
  {
  }

  /** The counter after the decrement in `spinWheel`: lowered only when positive. */
  function AfterSpin(stored: Option<int>): (r: Option<int>)
    ensures stored.Some? && stored.value > 0 ==> r == Some(stored.value - 1)
    ensures !(stored.Some? && stored.value > 0) ==> r == stored
    ensures r.Some? && stored.Some? && stored.value >= 0 ==> r.value >= 0
  {
    if stored.Some? && stored.value > 0 then Some(stored.value - 1) else stored
  }

  /** The spin counter never becomes negative, however many spins are taken. */
  lemma {:induction false} SpinsNeverNegative(stored: Option<int>, n: nat)
    requires stored.None? || stored.value >= 0
    ensures var r := SpinTimes(stored, n); r.None? || r.value >= 0
    ensures stored.Some? ==> SpinTimes(stored, n) == Some(if stored.value >= n then stored.value - n else 0)
    decreases n
  {
    if n > 0 {
      SpinsNeverNegative(AfterSpin(stored), n - 1);
    }
  }

  /** The counter after `n` spins' decrements. */
  function SpinTimes(stored: Option<int>, n: nat): Option<int>
    decreases n
  {
    if n == 0 then stored else SpinTimes(AfterSpin(stored), n - 1)
  }

  /* ---------------------------------------------------------------------- */
  /* The weighted draw                                                      */
  /* ---------------------------------------------------------------------- */

  /** The cumulative weight of the first `k` prizes. */
  function Prefix(ps: seq<Prize>, k: nat): int
    requires k <= |ps|
  {
    if k == 0 then 0 else Prefix(ps, k - 1) + ps[k - 1].probability
  }

  /** The cumulative weight up to and including prize `j`. */
  function Through(ps: seq<Prize>, j: nat): int
    requires j < |ps|
  {
    Prefix(ps, j + 1)
  }

  predicate NonNegativeWeights(ps: seq<Prize>) {
    forall i | 0 <= i < |ps| :: ps[i].probability >= 0
  }

  /** The configured weights are non-negative and sum to 100. */
  lemma ConfiguredWeights()
    ensures NonNegativeWeights(Prizes)
    ensures Prefix(Prizes, |Prizes|) == 100
  {
  }

  /** With non-negative weights the cumulative weight only grows. */
  lemma {:induction false} PrefixMonotone(ps: seq<Prize>, j: nat, k: nat)
    requires NonNegativeWeights(ps) && j <= k <= |ps|
    ensures Prefix(ps, j) <= Prefix(ps, k)
    decreases k
  {
    if j < k {
      PrefixMonotone(ps, j, k - 1);
    }
  }

  /**
   * The prize `selectWinnerBasedOnProbability` returns for the draw `r`: the
   * first whose cumulative weight exceeds `r`, or the first prize when none does.
   */
  function Selected(ps: seq<Prize>, r: int): (i: nat)
    requires |ps| > 0
    ensures i < |ps|
  {
    SelectedFrom(ps, r, 0)
  }

  function SelectedFrom(ps: seq<Prize>, r: int, k: nat): (i: nat)
    requires |ps| > 0 && k <= |ps|
    ensures i < |ps|
    ensures (exists j | k <= j < |ps| :: r < Through(ps, j)) ==>
      k <= i && r < Through(ps, i) && forall j | k <= j < i :: r >= Through(ps, j)
    ensures (forall j | k <= j < |ps| :: r >= Through(ps, j)) ==> i == 0
    decreases |ps| - k
  {
    if k == |ps| then 0
    else if r < Through(ps, k) then k
    else SelectedFrom(ps, r, k + 1)
  }

  /**
   * With non-negative weights and a draw in [0, total), prize `i` is chosen
   * exactly for the draws in its own interval [Prefix(i), Prefix(i + 1)), so
   * it is chosen for `probability` of the `total` possible draws.
   */
  lemma SelectedInterval(ps: seq<Prize>, r: int, i: nat)
    requires |ps| > 0 && NonNegativeWeights(ps)
    requires 0 <= r < Prefix(ps, |ps|) && i < |ps|
    ensures Selected(ps, r) == i <==> Prefix(ps, i) <= r < Prefix(ps, i + 1)
  {
    var s := Selected(ps, r);
    assert r < Through(ps, |ps| - 1);
    if s > 0 {
      assert r >= Through(ps, s - 1);
    }
    if s < i {
      PrefixMonotone(ps, s + 1, i);
    } else if i < s {
      PrefixMonotone(ps, i + 1, s);
      assert r >= Through(ps, i);
    }
  }

  /** `selectWinnerBasedOnProbability(prizes)` for the draw `r`; None for an empty list. */
  method SelectWinner(ps: seq<Prize>, r: int) returns (winner: Option<Prize>)
    ensures ps == [] ==> winner == None
    ensures ps != [] ==> winner == Some(ps[Selected(ps, r)])
  {
    var cumulative := 0;
    var i := 0;
    while i < |ps|
      invariant 0 <= i <= |ps|
      invariant cumulative == Prefix(ps, i)
      invariant forall j | 0 <= j < i :: r >= Through(ps, j)
    {
      cumulative := cumulative + ps[i].probability;
      assert cumulative == Through(ps, i);
      if r < cumulative {
        return Some(ps[i]);
      }
      i := i + 1;
    }
    if ps == [] {
      return None;
    }
    return Some(ps[0]);
  }

  /* ---------------------------------------------------------------------- */
  /* Coin prizes                                                            */
  /* ---------------------------------------------------------------------- */

  predicate IsDigit(c: char) {
    '0' <= c <= '9'
  }

  /** The longest prefix of `s` made of digits. */
  function LeadingDigits(s: string): (d: string)
    ensures |d| <= |s| && d == s[..|d|]
    ensures forall i | 0 <= i < |d| :: IsDigit(d[i])
    ensures |d| < |s| ==> !IsDigit(s[|d|])
    decreases |s|
  {
    if s != [] && IsDigit(s[0]) then [s[0]] + LeadingDigits(s[1..]) else []
  }

  /** `s.match(/\d+/)`: the first run of digits, or None (`null`). */
  function FirstDigitRun(s: string): (r: Option<string>)
    ensures r.Some? ==> |r.value| > 0 && forall i | 0 <= i < |r.value| :: IsDigit(r.value[i])
    ensures r.None? <==> forall i | 0 <= i < |s| :: !IsDigit(s[i])
    decreases |s|
  {
    if s == [] then None
    else if IsDigit(s[0]) then Some(LeadingDigits(s))
    else
      var r := FirstDigitRun(s[1..]);
      assert forall i | 1 <= i < |s| :: s[i] == s[1..][i - 1];
      r
  }

  /**
   * The run `FirstDigitRun` finds starts at the first digit of `s` and is the
   * longest run of digits from there.
   */
  lemma {:induction false} FirstDigitRunAt(s: string)
    ensures FirstDigitRun(s).Some? ==> exists i | 0 <= i < |s| ::
      IsDigit(s[i]) && (forall k | 0 <= k < i :: !IsDigit(s[k])) &&
      FirstDigitRun(s).value == LeadingDigits(s[i..])
    decreases |s|
  {
    if s != [] && !IsDigit(s[0]) {
      var rest := s[1..];
      FirstDigitRunAt(rest);
      if FirstDigitRun(s).Some? {
        assert FirstDigitRun(rest) == FirstDigitRun(s);
        var i :| 0 <= i < |rest| && IsDigit(rest[i]) && (forall k | 0 <= k < i :: !IsDigit(rest[k])) &&
          FirstDigitRun(rest).value == LeadingDigits(rest[i..]);
        assert s[i + 1] == rest[i] && s[i + 1..] == rest[i..];
        forall k | 0 <= k < i + 1 ensures !IsDigit(s[k]) {
          if k > 0 {
            assert s[k] == rest[k - 1];
          }
        }
      }
    } else if s != [] {
      assert s[0..] == s;
    }
  }


  /** `parseInt` of a string of decimal digits. */
  function ParseDigits(d: string): (n: nat)
    requires forall i | 0 <= i < |d| :: IsDigit(d[i])
    decreases |d|
  {
    if d == [] then 0
    else
      assert IsDigit(d[|d| - 1]);
      ParseDigits(d[..|d| - 1]) * 10 + (d[|d| - 1] as int - '0' as int)
  }

  /** The decimal representation of `n`, without leading zeros. */
  function Decimal(n: nat): (d: string)
    ensures |d| > 0 && forall i | 0 <= i < |d| :: IsDigit(d[i])
    decreases n
  {
    var last := ['0' + (n % 10) as char];
    if n < 10 then last else Decimal(n / 10) + last
  }

  /** `parseInt` reads back the number written in decimal. */
  lemma {:induction false} ParseDecimal(n: nat)
    ensures ParseDigits(Decimal(n)) == n
    decreases n
  {
    var d := Decimal(n);
    if n >= 10 {
      ParseDecimal(n / 10);
      assert d[..|d| - 1] == Decimal(n / 10);
    }
  }

  /** The digit run of a label `<digits><label>` is `<digits>` when the tail does not begin with a digit. */
  lemma {:induction false} DigitRunOfLabel(d: string, tail: string)
    requires |d| > 0 && forall i | 0 <= i < |d| :: IsDigit(d[i])
    requires tail == [] || !IsDigit(tail[0])
    ensures FirstDigitRun(d + tail) == Some(d)
  {
    LeadingDigitsOf(d, tail);
  }

  lemma {:induction false} LeadingDigitsOf(d: string, tail: string)
    requires forall i | 0 <= i < |d| :: IsDigit(d[i])
    requires tail == [] || !IsDigit(tail[0])
    ensures LeadingDigits(d + tail) == d
    decreases |d|
  {
    if d != [] {
      LeadingDigitsOf(d[1..], tail);
      assert (d + tail)[1..] == d[1..] + tail;
      assert [d[0]] + d[1..] == d;
    } else {
      assert d + tail == tail;
    }
  }

  /** What `processPrize(name)` does to the coins. */
  datatype PrizeEffect = CoinsWon(amount: nat) | NoCoins | NumberMissing

  /** A label that mentions GoCoins credits its first number; one without a number makes the script throw. */
  function EffectOf(name: string): (e: PrizeEffect)
    ensures !Contains(name, "GoCoins") ==> e == NoCoins
    ensures Contains(name, "GoCoins") && FirstDigitRun(name).None? ==> e == NumberMissing
  {
    if !Contains(name, "GoCoins") then NoCoins
    else
      match FirstDigitRun(name)
      case None => NumberMissing
      case Some(d) => CoinsWon(ParseDigits(d))
  }

  /** A label `<digits> GoCoins` credits the number its digits spell. */
  lemma CoinLabel(d: string)
    requires |d| > 0 && forall i | 0 <= i < |d| :: IsDigit(d[i])
    ensures EffectOf(d + " GoCoins") == CoinsWon(ParseDigits(d))
  {
    var name := d + " GoCoins";
    LabelMentionsCoins(d);
    DigitRunOfLabel(d, " GoCoins");
  }

  lemma LabelMentionsCoins(d: string)
    ensures Contains(d + " GoCoins", "GoCoins")
  {
    var name := d + " GoCoins";
    assert name[|d| + 1..|d| + 8] == "GoCoins";
    ContainsAt(name, "GoCoins", |d| + 1);
  }

  /** A prize labelled `<n> GoCoins` credits exactly `n`. */
  lemma CoinPrizeCredits(n: nat)
    ensures EffectOf(Decimal(n) + " GoCoins") == CoinsWon(n)
  {
    CoinLabel(Decimal(n));
    ParseDecimal(n);
  }

  /** The first configured coin prize pays 250. */
  lemma FirstCoinPrize()
    ensures EffectOf(Prizes[0].name) == CoinsWon(250)
  {
    CoinLabel("250");
    assert "250"[..2] == "25";
    assert "25"[..1] == "2";
    assert ParseDigits("25") == 25;
    assert "250" + " GoCoins" == Prizes[0].name;
  }

  /** The second configured coin prize pays 500. */
  lemma SecondCoinPrize()
    ensures EffectOf(Prizes[1].name) == CoinsWon(500)
  {
    CoinLabel("500");
    assert "500"[..2] == "50";
    assert "50"[..1] == "5";
    assert ParseDigits("50") == 50;
    assert "500" + " GoCoins" == Prizes[1].name;
  }

  /** The third configured coin prize pays 1000. */
  lemma ThirdCoinPrize()
    ensures EffectOf(Prizes[2].name) == CoinsWon(1000)
  {
    CoinLabel("1000");
    assert "1000"[..3] == "100";
    assert "100"[..2] == "10";
    assert "10"[..1] == "1";
    assert ParseDigits("10") == 10;
    assert ParseDigits("100") == 100;
    assert "1000" + " GoCoins" == Prizes[2].name;
  }

  /* ---------------------------------------------------------------------- */
  /* Storage                                                                */
  /* ---------------------------------------------------------------------- */

  class WheelStorage {
    /** `gobet_user_plan` */
    var plan: Option<string>
    /** `gobet_user_coins` */
    var coins: Option<int>
    /** `gobet_remaining_spins` */
    var spins: Option<int>

    constructor (plan: Option<string>, coins: Option<int>, spins: Option<int>)
      ensures this.plan == plan && this.coins == coins && this.spins == spins
    {
      this.plan := plan;
      this.coins := coins;
      this.spins := spins;
    }

    /** `updateRemainingSpins(plan)`: initialises a missing counter; the button is disabled when no spin is left. */
    method UpdateRemainingSpins(forPlan: string) returns (disabled: bool)
      modifies this`spins
      ensures old(spins).None? ==> spins == Some(InitialSpins(forPlan))
      ensures old(spins).Some? ==> spins == old(spins)
      ensures spins.Some? && (disabled <==> spins.value <= 0)
    {
      if spins.None? {
        spins := Some(InitialSpins(forPlan));
      }
      disabled := spins.value <= 0;
    }

    /** `buyAdditionalSpin()`. */
    method BuyAdditionalSpin() returns (bought: bool)
      modifies this`coins, this`spins
      ensures var cost := SpinCost(Plans.PlanOf(plan)); var balance := old(coins).GetOr(DefaultCoins);
        (bought <==> balance >= cost) &&
        (bought ==> coins == Some(balance - cost) && spins == Some(old(spins).GetOr(0) + 1)) &&
        (!bought ==> coins == old(coins) && spins == old(spins))
    {
      var balance := coins.GetOr(DefaultCoins);
      var cost := SpinCost(Plans.PlanOf(plan));
      if balance >= cost {
        coins := Some(balance - cost);
        spins := Some(spins.GetOr(0) + 1);
        var _ := UpdateRemainingSpins(Plans.PlanOf(plan));
        return true;
      }
      return false;
    }

    /** `processPrize(name)`; false when the label mentions GoCoins but holds no number (the script throws). */
    method ProcessPrize(name: string) returns (ok: bool)
      modifies this`coins
      ensures ok <==> !EffectOf(name).NumberMissing?
      ensures EffectOf(name).CoinsWon? ==> coins == Some(old(coins).GetOr(DefaultCoins) + EffectOf(name).amount)
      ensures !EffectOf(name).CoinsWon? ==> coins == old(coins)
    {
      if Contains(name, "GoCoins") {
        var run := FirstDigitRun(name);
        if run.None? {
          return false;
        }
        var amount := ParseDigits(run.value);
        coins := Some(coins.GetOr(DefaultCoins) + amount);
      }
      return true;
    }

    /**
     * `spinWheel()` followed by the prize modal, for the draw `r`: choose a
     * prize, lower the counter when positive, re-initialise it with the
     * default plan if missing, then credit the prize.
     */
    method Spin(sections: seq<Prize>, r: int) returns (winner: Option<Prize>)
      modifies this`coins, this`spins
      ensures sections == [] ==> winner == None
      ensures sections != [] ==> winner == Some(sections[Selected(sections, r)])
      ensures spins == Some(AfterSpin(old(spins)).GetOr(InitialSpins("free")))
      ensures winner.Some? && EffectOf(winner.value.name).CoinsWon? ==>
        coins == Some(old(coins).GetOr(DefaultCoins) + EffectOf(winner.value.name).amount)
      ensures !(winner.Some? && EffectOf(winner.value.name).CoinsWon?) ==> coins == old(coins)
    {
      winner := SelectWinner(sections, r);
      var remaining := spins.GetOr(0);
      if remaining > 0 {
        spins := Some(remaining - 1);
      }
      var _ := UpdateRemainingSpins("free");
      if winner.Some? {
        var _ := ProcessPrize(winner.value.name);
      }
    }
  }
}
