/**
 * The giveaway document (server/models/Giveaway.js): the `isActive` test and
 * the winner draw `selectWinners`, which picks one distinct participant per
 * prize with a bounded number of retries. `Math.random` is the oracle `draws`:
 * the k-th draw of the method is `draws(k) % n` for n participants, which is
 * what `Math.floor(Math.random() * n)` yields. The clock is a parameter.
 */
module Giveaway {
  import opened Common

  datatype GiveawayStatus = Active | Completed | Cancelled

  datatype PrizeKind = GoCoins | Item

  /** A prize; `winnerIndex` is -1 until a winner is drawn. */
  datatype GiveawayPrize = GiveawayPrize(kind: PrizeKind, amount: int, winnerIndex: int)

  datatype Participant = Participant(user: string, joinedAt: int)

  datatype Winner = Winner(user: string, prizeIndex: nat, claimed: bool)

  /**
   * The do-while of `selectWinners` as a function: starting with the
   * `attempts`-th draw after the first `calls`, draw indices until one is not
   * in `selected` or `2 * n` draws have been made. The result is the last
   * index drawn and the number of draws made.
   */
  function Retry(draws: nat -> nat, calls: nat, n: nat, selected: set<nat>, attempts: nat): (r: (nat, nat))
    requires n > 0 && 1 <= attempts <= 2 * n
    ensures attempts <= r.1 <= 2 * n
    decreases 2 * n - attempts
  {
    var index := draws(calls + attempts - 1) % n;
    if index in selected && attempts < 2 * n then Retry(draws, calls, n, selected, attempts + 1)
    else (index, attempts)
  }

  /**
   * The index the retries end on is a participant's: the last draw made, and
   * one not drawn before unless the retries ran out.
   */
  lemma {:induction false} RetryFresh(draws: nat -> nat, calls: nat, n: nat, selected: set<nat>, attempts: nat)
    requires n > 0 && 1 <= attempts <= 2 * n
    ensures var r := Retry(draws, calls, n, selected, attempts);
      r.0 < n && r.0 == draws(calls + r.1 - 1) % n && (r.1 < 2 * n ==> r.0 !in selected)
    decreases 2 * n - attempts
  {
    var index := draws(calls + attempts - 1) % n;
    if index in selected && attempts < 2 * n {
      RetryFresh(draws, calls, n, selected, attempts + 1);
    }
  }

  /**
   * The retry loop of `selectWinners`: draw indices until one is not in
   * `selected` or `2 * n` draws have been made. A fresh index drawn on the last
   * permitted attempt still reports `attempts == 2 * n`, which the caller treats
   * as failure.
   */
  method DrawFresh(draws: nat -> nat, calls: nat, n: nat, selected: set<nat>) returns (index: nat, callsAfter: nat, attempts: nat)
    requires n > 0
    ensures (index, attempts) == Retry(draws, calls, n, selected, 1)
    ensures index < n && 1 <= attempts <= 2 * n && callsAfter == calls + attempts
    ensures attempts < 2 * n ==> index !in selected
  {
    var maxAttempts := n * 2;
    index := draws(calls) % n;
    callsAfter := calls + 1;
    attempts := 1;
    while index in selected && attempts < maxAttempts
      invariant 1 <= attempts <= maxAttempts && callsAfter == calls + attempts
      invariant index == draws(callsAfter - 1) % n
      invariant Retry(draws, calls, n, selected, attempts) == Retry(draws, calls, n, selected, 1)
      decreases maxAttempts - attempts
    {
      index := draws(callsAfter) % n;
      callsAfter := callsAfter + 1;
      attempts := attempts + 1;
    }
  }

  /** The winners drawn so far (by participant index), the same as a set, and the draws used. */
  datatype DrawState = DrawState(picks: seq<nat>, selected: set<nat>, calls: nat)

  /** The draw for n participants before any prize is drawn. */
  const Start := DrawState([], {}, 0)

  /** What one pick adds to the winners and prizes recorded so far. */
  predicate Recorded(entrants: seq<Participant>, original: seq<GiveawayPrize>, chosen: seq<nat>, found: seq<Winner>, drawn: seq<GiveawayPrize>)
  {
    |found| == |chosen| <= |drawn| == |original| &&
    (forall k | 0 <= k < |chosen| ::
      chosen[k] < |entrants| && found[k] == Winner(entrants[chosen[k]].user, k, false) &&
      drawn[k] == original[k].(winnerIndex := chosen[k])) &&
    forall k | |chosen| <= k < |drawn| :: drawn[k] == original[k]
  }

  lemma RecordPick(entrants: seq<Participant>, original: seq<GiveawayPrize>, chosen: seq<nat>, found: seq<Winner>, drawn: seq<GiveawayPrize>, index: nat)
    requires Recorded(entrants, original, chosen, found, drawn) && |chosen| < |drawn| && index < |entrants|
    ensures Recorded(entrants, original, chosen + [index], found + [Winner(entrants[index].user, |chosen|, false)],
      drawn[|chosen| := drawn[|chosen|].(winnerIndex := index)])
  {
  }

  /**
   * The `for` loop of `selectWinners` as a function: the participant indices
   * drawn for prizes |s.picks|, |s.picks| + 1, ... of `prizeCount` prizes. It
   * stops early only when every participant has won or `2 * n` draws in a row
   * gave earlier winners.
   */
  function Choose(draws: nat -> nat, n: nat, prizeCount: nat, s: DrawState): (r: DrawState)
    requires n > 0
    ensures |s.picks| <= |r.picks|
    ensures |s.picks| <= prizeCount ==> |r.picks| <= prizeCount
    decreases prizeCount - |s.picks|
  {
    if |s.picks| >= prizeCount || |s.selected| >= n then s
    else
      var d := Retry(draws, s.calls, n, s.selected, 1);
      if d.1 >= 2 * n then s
      else Choose(draws, n, prizeCount, DrawState(s.picks + [d.0], s.selected + {d.0}, s.calls + d.1))
  }

  /** One successful draw: the prize goes to `index`, and the rest of the draw continues from there. */
  lemma ChooseStep(draws: nat -> nat, n: nat, prizeCount: nat, s: DrawState, t: DrawState, index: nat, attempts: nat)
    requires n > 0 && |s.picks| < prizeCount && |s.selected| < n
    requires (index, attempts) == Retry(draws, s.calls, n, s.selected, 1) && attempts < 2 * n
    requires t == DrawState(s.picks + [index], s.selected + {index}, s.calls + attempts)
    ensures Choose(draws, n, prizeCount, s) == Choose(draws, n, prizeCount, t)
  {
    var d := Retry(draws, s.calls, n, s.selected, 1);
    assert d.0 == index && d.1 == attempts;
  }

  /** The draw ends where every prize is drawn, every participant has won, or the retries ran out. */
  lemma ChooseStops(draws: nat -> nat, n: nat, prizeCount: nat, s: DrawState)
    requires n > 0
    requires |s.picks| >= prizeCount || |s.selected| >= n || Retry(draws, s.calls, n, s.selected, 1).1 >= 2 * n
    ensures Choose(draws, n, prizeCount, s) == s
  {
  }

  /** The picks are distinct participant indices, no more than there are participants, and `selected` holds them. */
  predicate Fresh(n: nat, s: DrawState) {
    |s.selected| == |s.picks| <= n &&
    (forall k | 0 <= k < |s.picks| :: s.picks[k] < n && s.picks[k] in s.selected) &&
    (forall a, b | 0 <= a < b < |s.picks| :: s.picks[a] != s.picks[b])
  }

  /**
   * The draw gives each prize a different participant, and it stops before
   * the last prize only when every participant has won or the retries for the
   * next prize ran out.
   */
  lemma {:induction false} ChooseFresh(draws: nat -> nat, n: nat, prizeCount: nat, s: DrawState)
    requires n > 0 && Fresh(n, s)
    ensures var r := Choose(draws, n, prizeCount, s);
      Fresh(n, r) &&
      (|r.picks| < prizeCount ==> |r.picks| == n || Retry(draws, r.calls, n, r.selected, 1).1 == 2 * n)
    decreases prizeCount - |s.picks|
  {
    if |s.picks| < prizeCount && |s.selected| < n {
      var d := Retry(draws, s.calls, n, s.selected, 1);
      if d.1 < 2 * n {
        RetryFresh(draws, s.calls, n, s.selected, 1);
        var t := DrawState(s.picks + [d.0], s.selected + {d.0}, s.calls + d.1);
        ChooseStep(draws, n, prizeCount, s, t, d.0, d.1);
        assert Fresh(n, t) by {
          forall k | 0 <= k < |s.picks| ensures t.picks[k] != d.0 {
            assert s.picks[k] in s.selected;
          }
        }
        ChooseFresh(draws, n, prizeCount, t);
      } else {
        ChooseStops(draws, n, prizeCount, s);
      }
    } else {
      ChooseStops(draws, n, prizeCount, s);
    }
  }

  /** With at least one participant and one prize, the first draw always finds a winner. */
  lemma FirstPrizeWon(draws: nat -> nat, n: nat, prizeCount: nat)
    requires n > 0 && prizeCount > 0
    ensures |Choose(draws, n, prizeCount, Start).picks| >= 1
  {
    var d := Retry(draws, 0, n, {}, 1);
    assert d.1 == 1;
  }

  /**
   * The `for` loop of `selectWinners` over the prizes of a giveaway with the
   * given participants: the winners it pushes and the prizes with the winner
   * indices it records, following `Choose`.
   */
  method DrawWinners(draws: nat -> nat, entrants: seq<Participant>, original: seq<GiveawayPrize>)
    returns (found: seq<Winner>, drawn: seq<GiveawayPrize>)
    requires |entrants| > 0
    ensures var picks := Choose(draws, |entrants|, |original|, Start).picks;
      |found| == |picks| <= |original| == |drawn| &&
      forall k | 0 <= k < |picks| ::
        picks[k] < |entrants| && found[k] == Winner(entrants[picks[k]].user, k, false) &&
        drawn[k] == original[k].(winnerIndex := picks[k])
    ensures forall k | |found| <= k < |drawn| :: drawn[k] == original[k]
  {
    var n := |entrants|;
    drawn := original;
    found := [];
    var selectedUsers: set<nat> := {};
    ghost var chosen: seq<nat> := [];
    var calls := 0;
    var i := 0;
    while i < |drawn|
      invariant 0 <= i <= |drawn| == |original| && |chosen| == i
      invariant Recorded(entrants, original, chosen, found, drawn)
      invariant Choose(draws, n, |original|, DrawState(chosen, selectedUsers, calls)) == Choose(draws, n, |original|, Start)
    {
      if |selectedUsers| >= n {
        ChooseStops(draws, n, |original|, DrawState(chosen, selectedUsers, calls));
        break;
      }
      var randomIndex, callsAfter, attempts := DrawFresh(draws, calls, n, selectedUsers);
      if attempts >= n * 2 {
        ChooseStops(draws, n, |original|, DrawState(chosen, selectedUsers, calls));
        break;
      }
      RecordPick(entrants, original, chosen, found, drawn, randomIndex);
      ghost var before := DrawState(chosen, selectedUsers, calls);
      calls := callsAfter;
      selectedUsers := selectedUsers + {randomIndex};
      found := found + [Winner(entrants[randomIndex].user, i, false)];
      drawn := drawn[i := drawn[i].(winnerIndex := randomIndex)];
      chosen := chosen + [randomIndex];
      i := i + 1;
      ChooseStep(draws, n, |original|, before, DrawState(chosen, selectedUsers, calls), randomIndex, attempts);
    }
    if i == |drawn| {
      ChooseStops(draws, n, |original|, DrawState(chosen, selectedUsers, calls));
    }
  }

  class GiveawayDoc {
    var status: GiveawayStatus
    var maxParticipants: Option<int>
    var participants: seq<Participant>
    var prizes: seq<GiveawayPrize>
    var winners: seq<Winner>
    var endsAt: int

    constructor (maxParticipants0: Option<int>, prizes0: seq<GiveawayPrize>, endsAt0: int)
      ensures status == Active && maxParticipants == maxParticipants0 && participants == []
      ensures prizes == prizes0 && winners == [] && endsAt == endsAt0
    {
      status := Active;
      maxParticipants := maxParticipants0;
      participants := [];
      prizes := prizes0;
      winners := [];
      endsAt := endsAt0;
    }

    /** `isActive`: status active, room for one more (or no limit), and the clock before `endsAt`. */
    predicate IsActive(now: int)
      reads this
      ensures IsActive(now) ==> status == Active && now < endsAt
      ensures IsActive(now) <==> status == Active && (maxParticipants.None? || |participants| < maxParticipants.value) && now < endsAt
    {
      status == Active &&
      (maxParticipants.None? || |participants| < maxParticipants.value) &&
      now < endsAt
    }

    /**
     * `selectWinners`. With no participants nothing changes and no winner is
     * returned. Otherwise the winners are the participants `Choose` draws for
     * prizes 0, 1, ... in order, each one not drawn before; the draw stops at
     * the first prize for which no participant is left or the retries run out,
     * and with at least one prize a first winner is always found. The winners
     * replace `winners`, each prize drawn for records its winner's index, and
     * the giveaway is completed.
     */
    method SelectWinners(draws: nat -> nat) returns (result: seq<Winner>)
      modifies this`prizes, this`winners, this`status
      ensures old(participants) == [] ==> result == [] && prizes == old(prizes) && winners == old(winners) && status == old(status)
      ensures old(participants) != [] ==> winners == result && status == Completed
      ensures old(participants) != [] ==> forall now :: !IsActive(now)
      ensures old(participants) != [] ==>
        var picks := Choose(draws, |old(participants)|, |old(prizes)|, Start).picks;
        |result| == |picks| <= |prizes| && forall k | 0 <= k < |picks| :: prizes[k].winnerIndex == picks[k]
      ensures old(participants) != [] && old(prizes) != [] ==> |result| >= 1
      ensures |result| <= |prizes| == |old(prizes)| && |result| <= |participants|
      ensures forall k | 0 <= k < |result| ::
        result[k].prizeIndex == k && !result[k].claimed &&
        0 <= prizes[k].winnerIndex < |participants| &&
        result[k].user == participants[prizes[k].winnerIndex].user &&
        prizes[k] == old(prizes)[k].(winnerIndex := prizes[k].winnerIndex)
      ensures forall a, b | 0 <= a < b < |result| :: prizes[a].winnerIndex != prizes[b].winnerIndex
      ensures forall k | |result| <= k < |prizes| :: prizes[k] == old(prizes)[k]
    {
      if |participants| == 0 {
        return [];
      }
      var found, drawn := DrawWinners(draws, participants, prizes);
      ChooseFresh(draws, |participants|, |prizes|, Start);
      if |prizes| > 0 {
        FirstPrizeWon(draws, |participants|, |prizes|);
      }
      prizes := drawn;
      winners := found;
      status := Completed;
      return found;
    }
  }
}
