/**
 * The winner-takes-all estimate on the betting page (public/js/betting.js): a
 * bet object that knows its pot and participants, the potential-win preview,
 * and the amount check made before a bet is sent.
 */
module Betting {
  import opened Common

  /** What `calculatePotentialWinnings` returns; the win per person is a JavaScript number. */
  datatype Estimate = Estimate(totalPot: int, estimatedWinners: int, potentialWin: real)

  datatype Participant = Participant(userId: string, amount: int)

  /** `parseInt(value) || 0`: an unparsable input (`None`) or zero becomes 0. */
  function ParsedAmount(parsed: Option<int>): int {
    if parsed.Some? then parsed.value else 0
  }

  /**
   * `|| 0` makes an unparsable input and a typed 0 the same amount, keeps any
   * other number, and changes nothing when applied to its own result.
   */
  lemma ParsedAmountDefault(parsed: Option<int>)
    ensures ParsedAmount(parsed) == 0 <==> parsed.None? || parsed == Some(0)
    ensures parsed.Some? ==> ParsedAmount(parsed) == parsed.value
    ensures ParsedAmount(Some(ParsedAmount(parsed))) == ParsedAmount(parsed)
  {
  }

  /** The submit handler's check: the amount to send, or `None` when it is not positive. */
  function SubmitAmount(parsed: Option<int>): (amount: Option<int>)
    ensures amount.Some? <==> parsed.Some? && parsed.value > 0
    ensures amount.Some? ==> amount.value == parsed.value && amount.value > 0
  {
    var a := ParsedAmount(parsed);
    if a <= 0 then None else Some(a)
  }

  /** `Math.floor(potentialWin)`, the figure the preview shows. */
  function DisplayedWin(e: Estimate): int {
    e.potentialWin.Floor
  }

  /** The shown win is the pot shared equally among the estimated winners, rounded down. */
  lemma DisplayedWinIsShare(pot: int, winners: int)
    requires winners >= 1
    ensures DisplayedWin(Estimate(pot, winners, pot as real / winners as real)) == pot / winners
  {
    var q := pot / winners;
    DivBounds(pot, winners);
    var w := winners as real;
    var x := pot as real / w;
    assert q * winners <= pot < (q + 1) * winners;
    QuotientTimesDivisor(pot as real, w);
    assert x * w == pot as real;
    CastProduct(q, winners);
    assert (q as real) * w <= x * w;
    CastProduct(q + 1, winners);
    assert x * w < ((q + 1) as real) * w;
    RealCancel(q as real, x, w);
    RealCancel(x, (q + 1) as real, w);
    FloorBetween(x, q);
  }

  lemma QuotientTimesDivisor(p: real, w: real)
    requires w > 0.0
    ensures (p / w) * w == p
  {
  }

  lemma CastProduct(a: int, b: int)
    ensures (a * b) as real == (a as real) * (b as real)
  {
  }

  lemma RealCancel(a: real, b: real, w: real)
    requires w > 0.0
    ensures a * w <= b * w ==> a <= b
    ensures a * w < b * w ==> a < b
  {
    assert b * w - a * w == (b - a) * w;
  }

  lemma FloorBetween(x: real, q: int)
    requires q as real <= x < (q + 1) as real
    ensures x.Floor == q
  {
  }

  class WinnerTakesAllBet {
    var betId: string
    var totalPot: int
    var participants: seq<Participant>
    /** Set to 0 by the constructor and never changed by the script. */
    var correctGuesses: int

    constructor (betId0: string, totalPot0: int, participants0: seq<Participant>)
      ensures betId == betId0 && totalPot == totalPot0 && participants == participants0 && correctGuesses == 0
    {
      betId := betId0;
      totalPot := totalPot0;
      participants := participants0;
      correctGuesses := 0;
    }

    /**
     * `calculatePotentialWinnings(betAmount)`: the pot with the new stake, the
     * winners counting the new guess, and the pot shared among them. Changes
     * nothing.
     */
    method CalculatePotentialWinnings(betAmount: int) returns (e: Estimate)
      requires correctGuesses >= 0
      ensures e.totalPot == totalPot + betAmount
      ensures e.estimatedWinners == correctGuesses + 1 && e.estimatedWinners >= 1
      ensures e.potentialWin * (e.estimatedWinners as real) == e.totalPot as real
    {
      var updatedPot := totalPot + betAmount;
      var estimatedCorrectGuesses := correctGuesses + 1;
      var potentialWinPerPerson := updatedPot as real / estimatedCorrectGuesses as real;
      e := Estimate(updatedPot, estimatedCorrectGuesses, potentialWinPerPerson);
    }

    /** `updateParticipants(p)`: one more participant; the pot is left as it was. */
    method UpdateParticipants(p: Participant)
      modifies this`participants
      ensures participants == old(participants) + [p]
      ensures totalPot == old(totalPot)
    {
      participants := participants + [p];
    }
  }

  /** On a freshly built bet the preview promises the whole pot, new stake included. */
  method FreshEstimate(betId: string, totalPot: int, participants: seq<Participant>, betAmount: int) returns (shown: int)
    ensures shown == totalPot + betAmount
  {
    var bet := new WinnerTakesAllBet(betId, totalPot, participants);
    var e := bet.CalculatePotentialWinnings(betAmount);
    DisplayedWinIsShare(e.totalPot, e.estimatedWinners);
    shown := DisplayedWin(e);
  }
}
