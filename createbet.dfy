/**
 * Bet creation, participation and settlement in the browser client
 * (public/js/createBet.js). Bets, coins and statistics live in the browser's
 * storage; the class `BetStore` holds the keys this script reads and writes.
 */
module CreateBet {
  import opened Common
  import opened JsStats

  type UserId = string
  type BetId = string

  /** What `getUserId` answers when the stored user object carries no id. */
  const Guest: UserId := "guest"

  datatype BetStatus = Active | Completed

  /** An option of a bet; winner-takes-all bets store odds 0. */
  datatype BetOption = BetOption(text: string, odds: real)

  /** A participant entry: who joined, which option, and the stake paid. */
  datatype Participant = Participant(userId: UserId, optionIndex: int, amount: int)

  /** A bet as stored in `gobet_bets` (display-only fields left out). */
  datatype Bet = Bet(
    id: BetId,
    title: string,
    description: string,
    amount: int,
    endDate: int,
    isWinnerTakesAll: bool,
    options: seq<BetOption>,
    creatorId: UserId,
    participants: seq<Participant>,
    status: BetStatus,
    winningOption: Option<int>)

  /* ---------------------------------------------------------------------- */
  /* Creation                                                               */
  /* ---------------------------------------------------------------------- */

  datatype CreateError = MissingField | TooFewOptions | EndDateNotInFuture | InvalidEndDate

  /**
   * The bet the creation form produces. `amount` is what `parseInt` gave
   * (None for NaN), `endDate` the parsed date in milliseconds (None for an
   * invalid date, which passes the checks and then makes `toISOString` throw).
   */
  function NewBet(id: BetId, creator: UserId, title: string, description: string,
                  amount: Option<int>, endDate: Option<int>, isWinnerTakesAll: bool,
                  entered: seq<BetOption>, now: int): (r: Result<Bet, CreateError>)
    ensures r.Ok? <==>
      title != "" && description != "" && amount.Some? && amount.value != 0 &&
      |entered| >= 2 && endDate.Some? && endDate.value > now
    ensures (title == "" || description == "" || amount.None? || amount == Some(0)) ==>
      r == Err(MissingField)
    ensures r.Ok? ==>
      r.value.id == id && r.value.creatorId == creator && r.value.amount == amount.value &&
      r.value.endDate == endDate.value && r.value.participants == [] &&
      r.value.status == Active && r.value.winningOption == None &&
      |r.value.options| == |entered| &&
      (forall k | 0 <= k < |entered| ::
        r.value.options[k].text == entered[k].text &&
        r.value.options[k].odds == (if isWinnerTakesAll then 0.0 else entered[k].odds))
  {
    if title == "" || description == "" || amount.None? || amount.value == 0 then Err(MissingField)
    else if |entered| < 2 then Err(TooFewOptions)
    else if endDate.Some? && endDate.value <= now then Err(EndDateNotInFuture)
    else if endDate.None? then Err(InvalidEndDate)
    else
      var options := seq(|entered|, k requires 0 <= k < |entered| =>
        BetOption(entered[k].text, if isWinnerTakesAll then 0.0 else entered[k].odds));
      Ok(Bet(id, title, description, amount.value, endDate.value, isWinnerTakesAll,
             options, creator, [], Active, None))
  }

  /* ---------------------------------------------------------------------- */
  /* The stored list of bets                                                */
  /* ---------------------------------------------------------------------- */

  /** `bets.findIndex(b => b.id === id)`. */
  function IndexOf(bets: seq<Bet>, id: BetId): (i: int)
    ensures -1 <= i < |bets|
    ensures i == -1 <==> forall k | 0 <= k < |bets| :: bets[k].id != id
    ensures i >= 0 ==> bets[i].id == id && forall k | 0 <= k < i :: bets[k].id != id
    decreases |bets|
  {
    if bets == [] then -1
    else if bets[0].id == id then 0
    else
      var j := IndexOf(bets[1..], id);
      assert forall k | 1 <= k < |bets| :: bets[k] == bets[1..][k - 1];
      if j == -1 then -1 else j + 1
  }

  /** `bets.find(b => b.id === id)`. */
  function Lookup(bets: seq<Bet>, id: BetId): (r: Option<Bet>)
    ensures r.None? <==> forall k | 0 <= k < |bets| :: bets[k].id != id
    ensures r.Some? ==> r.value.id == id && r.value in bets
  {
    var i := IndexOf(bets, id);
    if i == -1 then None else Some(bets[i])
  }

  /** The list `saveBet` writes back: the entry with the same id replaced, or `b` appended. */
  function Upsert(bets: seq<Bet>, b: Bet): (r: seq<Bet>)
    ensures |r| == |bets| || |r| == |bets| + 1
    ensures b in r
    ensures forall k | 0 <= k < |bets| && bets[k].id != b.id :: r[k] == bets[k]
    ensures |r| == |bets| + 1 <==> forall k | 0 <= k < |bets| :: bets[k].id != b.id
  {
    var i := IndexOf(bets, b.id);
    if i == -1 then bets + [b]
    else
      assert bets[i := b][i] == b;
      bets[i := b]
  }

  /** No two stored bets share an id. */
  predicate UniqueIds(bets: seq<Bet>) {
    forall i, j | 0 <= i < j < |bets| :: bets[i].id != bets[j].id
  }

  /** `saveBet` keeps ids unique. */
  lemma UpsertKeepsIdsUnique(bets: seq<Bet>, b: Bet)
    requires UniqueIds(bets)
    ensures UniqueIds(Upsert(bets, b))
  {
    var i := IndexOf(bets, b.id);
    var r := Upsert(bets, b);
    if i != -1 {
      forall p, q | 0 <= p < q < |r| ensures r[p].id != r[q].id {
        if p == i {
          assert r[q] == bets[q];
          assert bets[i].id == b.id;
        } else if q == i {
          assert r[p] == bets[p];
          assert bets[i].id == b.id;
        }
      }
    }
  }

  /** After `saveBet(b)`, `getBetById(b.id)` finds `b`, and every other id finds what it found before. */
  lemma {:induction false} LookupAfterUpsert(bets: seq<Bet>, b: Bet, id: BetId)
    requires UniqueIds(bets)
    ensures Lookup(Upsert(bets, b), b.id) == Some(b)
    ensures id != b.id ==> Lookup(Upsert(bets, b), id) == Lookup(bets, id)
  {
    var i := IndexOf(bets, b.id);
    var r := Upsert(bets, b);
    UpsertKeepsIdsUnique(bets, b);
    var j := IndexOf(r, b.id);
    var m := if i == -1 then |bets| else i;
    assert r[m] == b;
    assert j == m;
    if id != b.id {
      var a := IndexOf(bets, id);
      var c := IndexOf(r, id);
      if a == -1 {
        forall k | 0 <= k < |r| ensures r[k].id != id {
          if k < |bets| && bets[k].id != b.id {
            assert r[k] == bets[k];
          }
        }
      } else {
        assert bets[a].id != b.id;
        assert r[a] == bets[a];
        forall k | 0 <= k < a ensures r[k].id != id {
          if bets[k].id != b.id {
            assert r[k] == bets[k];
          }
        }
        assert c == a;
      }
    }
  }

  /* ---------------------------------------------------------------------- */
  /* Coins                                                                  */
  /* ---------------------------------------------------------------------- */

  /**
   * The balances this browser can change: the current user's
   * `gobet_user_coins`, and `gobet_user_coins_<id>` for every user found in
   * `gobet_registered_users` (a missing key reads as 0).
   */
  datatype Wallets = Wallets(current: UserId, coins: int, registered: set<UserId>, stored: map<UserId, int>) {

    /** The balance kept for `u`, or None when this browser keeps none. */
    function Balance(u: UserId): Option<int> {
      if u == current then Some(coins)
      else if u in registered then Some(if u in stored then stored[u] else 0)
      else None
    }

    /** `distributeWinnings(u, amount)`: credits `u` if this browser keeps a balance for `u`, drops the credit otherwise. */
    function Credit(u: UserId, amount: int): (w: Wallets)
      ensures w.current == current && w.registered == registered
      ensures forall v :: w.Balance(v) == (if v == u && Balance(u).Some? then Some(Balance(u).value + amount) else Balance(v))
    {
      if u == current then this.(coins := coins + amount)
      else if u in registered then this.(stored := stored[u := Balance(u).value + amount])
      else this
    }
  }

  /** A credit `completeBet` hands to `distributeWinnings`. */
  datatype Credit = Credit(userId: UserId, amount: int)

  /** The wallets after the credits in order. */
  function ApplyCredits(w: Wallets, cs: seq<Credit>): Wallets
    decreases |cs|
  {
    if cs == [] then w
    else ApplyCredits(w, cs[..|cs| - 1]).Credit(cs[|cs| - 1].userId, cs[|cs| - 1].amount)
  }

  lemma ApplyCreditsStep(w: Wallets, cs: seq<Credit>, i: int)
    requires 0 <= i < |cs|
    ensures ApplyCredits(w, cs[..i + 1]) == ApplyCredits(w, cs[..i]).Credit(cs[i].userId, cs[i].amount)
  {
    assert cs[..i + 1][..i] == cs[..i];
  }

  /** The sum of the credits addressed to `u`. */
  function CreditTo(cs: seq<Credit>, u: UserId): int
    decreases |cs|
  {
    if cs == [] then 0
    else CreditTo(cs[..|cs| - 1], u) + (if cs[|cs| - 1].userId == u then cs[|cs| - 1].amount else 0)
  }

  /** The sum of all credits. */
  function Total(cs: seq<Credit>): int
    decreases |cs|
  {
    if cs == [] then 0 else Total(cs[..|cs| - 1]) + cs[|cs| - 1].amount
  }

  /** Each balance the browser keeps moves by exactly the credits addressed to its owner. */
  lemma {:induction false} ApplyCreditsBalance(w: Wallets, cs: seq<Credit>, u: UserId)
    ensures ApplyCredits(w, cs).current == w.current
    ensures ApplyCredits(w, cs).registered == w.registered
    ensures ApplyCredits(w, cs).Balance(u) ==
      if w.Balance(u).Some? then Some(w.Balance(u).value + CreditTo(cs, u)) else None
    decreases |cs|
  {
    if cs != [] {
      ApplyCreditsBalance(w, cs[..|cs| - 1], u);
    }
  }

  lemma {:induction false} CreditToAbsent(cs: seq<Credit>, u: UserId)
    requires forall k | 0 <= k < |cs| :: cs[k].userId != u
    ensures CreditTo(cs, u) == 0
    decreases |cs|
  {
    if cs != [] {
      CreditToAbsent(cs[..|cs| - 1], u);
    }
  }

  lemma {:induction false} TotalUniform(cs: seq<Credit>, share: int)
    requires forall k | 0 <= k < |cs| :: cs[k].amount == share
    ensures Total(cs) == |cs| * share
    decreases |cs|
  {
    if cs != [] {
      TotalUniform(cs[..|cs| - 1], share);
      assert (|cs| - 1) * share + share == |cs| * share;
    }
  }

  /* ---------------------------------------------------------------------- */
  /* Statistics                                                             */
  /* ---------------------------------------------------------------------- */

  /** The `action` argument of `updateUserStats`. */
  datatype StatAction = Created | Joined | Win | Loss

  /** The counter an action increments. */
  function Counter(s: StatsRecord, a: StatAction): JsNum {
    match a
    case Created => s.betsCreated
    case Joined => s.betsJoined
    case Win => s.betsWon
    case Loss => s.betsLost
  }

  /** The `switch` of `updateUserStats`: `(counter || 0) + 1`, and the winnings for a win. */
  function Bump(s: StatsRecord, a: StatAction, amount: int): StatsRecord {
    match a
    case Created => s.(betsCreated := Num(OrZero(s.betsCreated) + 1))
    case Joined => s.(betsJoined := Num(OrZero(s.betsJoined) + 1))
    case Win => s.(betsWon := Num(OrZero(s.betsWon) + 1),
                   totalWinnings := Num(OrZero(s.totalWinnings) + amount))
    case Loss => s.(betsLost := Num(OrZero(s.betsLost) + 1))
  }

  /** The win percentage is recomputed when some bet has been decided, and kept otherwise. */
  function Recompute(s: StatsRecord): (r: StatsRecord)
    ensures r == s.(winPercentage := r.winPercentage)
    ensures OrZero(s.betsWon) + OrZero(s.betsLost) <= 0 ==> r == s
    ensures var won := OrZero(s.betsWon); var decided := won + OrZero(s.betsLost);
      decided > 0 ==> r.winPercentage == Num(RoundPercent(won, decided))
  {
    var decided := OrZero(s.betsWon) + OrZero(s.betsLost);
    if decided > 0 then s.(winPercentage := Num(RoundPercent(OrZero(s.betsWon), decided))) else s
  }

  /** `updateUserStats(action, amount)` on the current user's record. */
  function RecordAction(s: StatsRecord, a: StatAction, amount: int): (r: StatsRecord)
    ensures forall b :: OrZero(Counter(r, b)) == OrZero(Counter(s, b)) + (if b == a then 1 else 0)
    ensures Counter(r, a).Num?
    ensures OrZero(r.totalWinnings) == OrZero(s.totalWinnings) + (if a == Win then amount else 0)
    ensures r.friends == s.friends
    ensures OrZero(r.betsWon) + OrZero(r.betsLost) <= 0 ==> r.winPercentage == s.winPercentage
    ensures var won := OrZero(r.betsWon); var decided := won + OrZero(r.betsLost);
      decided > 0 ==> r.winPercentage == Num(RoundPercent(won, decided))
    ensures NonNegative(s) ==> NonNegative(r)
    ensures NonNegative(s) && OrZero(r.betsWon) + OrZero(r.betsLost) > 0 ==>
      r.winPercentage.Num? && 0 <= r.winPercentage.n <= 100
  {
    Recompute(Bump(s, a, amount))
  }

  /** The record of another user: only wins and losses are counted, the percentage is recomputed in every case. */
  function RecordForOther(s: StatsRecord, a: StatAction, amount: int): (r: StatsRecord)
    ensures a == Win || a == Loss ==> r == RecordAction(s, a, amount)
    ensures a == Created || a == Joined ==>
      forall b :: Counter(r, b) == Counter(s, b)
  {
    if a == Win || a == Loss then Recompute(Bump(s, a, amount)) else Recompute(s)
  }

  /** A call of `updateUserStatsByUserId`. */
  datatype StatEvent = StatEvent(userId: UserId, action: StatAction, amount: int)

  /**
   * The statistics this browser can change: `gobet_user_stats` for the current
   * user and `gobet_user_stats_<id>` for registered users (a missing key reads as `{}`).
   */
  datatype StatsBook = StatsBook(current: UserId, mine: StatsRecord, registered: set<UserId>,
                                 stored: map<UserId, StatsRecord>) {

    function StatsOf(u: UserId): Option<StatsRecord> {
      if u == current then Some(mine)
      else if u in registered then Some(if u in stored then stored[u] else EmptyStats)
      else None
    }

    /** `updateUserStatsByUserId(u, a, amount)`. */
    function Record(u: UserId, a: StatAction, amount: int): (b: StatsBook)
      ensures b.current == current && b.registered == registered
      ensures forall v :: v != u ==> b.StatsOf(v) == StatsOf(v)
      ensures u == current ==> b.StatsOf(u) == Some(RecordAction(mine, a, amount))
      ensures u != current ==>
        b.StatsOf(u) == if u in registered then Some(RecordForOther(StatsOf(u).value, a, amount)) else None
    {
      if u == current then this.(mine := RecordAction(mine, a, amount))
      else if u in registered then this.(stored := stored[u := RecordForOther(StatsOf(u).value, a, amount)])
      else this
    }
  }

  function ApplyEvents(b: StatsBook, es: seq<StatEvent>): StatsBook
    decreases |es|
  {
    if es == [] then b
    else
      var e := es[|es| - 1];
      ApplyEvents(b, es[..|es| - 1]).Record(e.userId, e.action, e.amount)
  }

  lemma ApplyEventsStep(b: StatsBook, es: seq<StatEvent>, i: int)
    requires 0 <= i < |es|
    ensures ApplyEvents(b, es[..i + 1]) == ApplyEvents(b, es[..i]).Record(es[i].userId, es[i].action, es[i].amount)
  {
    assert es[..i + 1][..i] == es[..i];
  }

  /** How many events of kind `a` are addressed to `u`. */
  function CountFor(es: seq<StatEvent>, u: UserId, a: StatAction): nat
    decreases |es|
  {
    if es == [] then 0
    else CountFor(es[..|es| - 1], u, a) + (if es[|es| - 1].userId == u && es[|es| - 1].action == a then 1 else 0)
  }

  /** Settlement events move each kept win and loss counter by exactly the events addressed to its owner. */
  lemma {:induction false} ApplyEventsCounts(b: StatsBook, es: seq<StatEvent>, u: UserId, a: StatAction)
    requires forall k | 0 <= k < |es| :: es[k].action == Win || es[k].action == Loss
    requires b.StatsOf(u).Some?
    ensures ApplyEvents(b, es).StatsOf(u).Some?
    ensures OrZero(Counter(ApplyEvents(b, es).StatsOf(u).value, a)) ==
      OrZero(Counter(b.StatsOf(u).value, a)) + CountFor(es, u, a)
    decreases |es|
  {
    if es != [] {
      var init := es[..|es| - 1];
      ApplyEventsCounts(b, init, u, a);
      var before := ApplyEvents(b, init);
      var e := es[|es| - 1];
      assert before.current == b.current && before.registered == b.registered by {
        EventsKeepOwners(b, init);
      }
    }
  }

  lemma {:induction false} EventsKeepOwners(b: StatsBook, es: seq<StatEvent>)
    ensures ApplyEvents(b, es).current == b.current
    ensures ApplyEvents(b, es).registered == b.registered
    decreases |es|
  {
    if es != [] {
      EventsKeepOwners(b, es[..|es| - 1]);
    }
  }

  /* ---------------------------------------------------------------------- */
  /* Settlement                                                             */
  /* ---------------------------------------------------------------------- */

  /** `participants.filter(p => p.optionIndex === w)`. */
  function Winners(ps: seq<Participant>, w: int): (r: seq<Participant>)
    ensures |r| <= |ps|
    ensures forall k | 0 <= k < |r| :: r[k].optionIndex == w
    decreases |ps|
  {
    if ps == [] then []
    else
      assert ps == [ps[0]] + ps[1..];
      (if ps[0].optionIndex == w then [ps[0]] else []) + Winners(ps[1..], w)
  }

  /** `participants.filter(p => p.optionIndex !== w)`. */
  function Losers(ps: seq<Participant>, w: int): (r: seq<Participant>)
    ensures |r| <= |ps|
    ensures forall k | 0 <= k < |r| :: r[k].optionIndex != w
    decreases |ps|
  {
    if ps == [] then []
    else
      assert ps == [ps[0]] + ps[1..];
      (if ps[0].optionIndex != w then [ps[0]] else []) + Losers(ps[1..], w)
  }

  /** The winners are exactly the entries on the winning option. */
  lemma {:induction false} WinnersExactly(ps: seq<Participant>, w: int)
    ensures forall p :: p in Winners(ps, w) <==> p in ps && p.optionIndex == w
    decreases |ps|
  {
    if ps != [] {
      WinnersExactly(ps[1..], w);
      assert ps == [ps[0]] + ps[1..];
    }
  }

  /** Every participant is a winner or a loser, exactly once. */
  lemma {:induction false} WinnersLosersPartition(ps: seq<Participant>, w: int)
    ensures multiset(Winners(ps, w)) + multiset(Losers(ps, w)) == multiset(ps)
    ensures |Winners(ps, w)| + |Losers(ps, w)| == |ps|
    decreases |ps|
  {
    if ps != [] {
      var h, t := ps[0], ps[1..];
      WinnersLosersPartition(t, w);
      assert ps == [h] + t;
      if h.optionIndex == w {
        assert Winners(ps, w) == [h] + Winners(t, w);
        assert Losers(ps, w) == Losers(t, w);
      } else {
        assert Winners(ps, w) == Winners(t, w);
        assert Losers(ps, w) == [h] + Losers(t, w);
      }
    }
  }

  /** `participants.length * bet.amount`: the pot counts every entry at the bet's amount. */
  function Pot(b: Bet): int {
    |b.participants| * b.amount
  }

  /** The sum of the stakes actually recorded on the entries. */
  function Stakes(ps: seq<Participant>): int
    decreases |ps|
  {
    if ps == [] then 0 else Stakes(ps[..|ps| - 1]) + ps[|ps| - 1].amount
  }

  /** The sum of the stakes recorded on `u`'s entries. */
  function StakeOf(ps: seq<Participant>, u: UserId): int
    decreases |ps|
  {
    if ps == [] then 0
    else StakeOf(ps[..|ps| - 1], u) + (if ps[|ps| - 1].userId == u then ps[|ps| - 1].amount else 0)
  }

  /** The pot equals the sum of stakes while every entry holds the bet's amount, as joining records it. */
  lemma {:induction false} PotIsSumOfStakes(b: Bet)
    requires forall k | 0 <= k < |b.participants| :: b.participants[k].amount == b.amount
    ensures Pot(b) == Stakes(b.participants)
  {
    StakesUniform(b.participants, b.amount);
  }

  lemma {:induction false} StakesUniform(ps: seq<Participant>, amount: int)
    requires forall k | 0 <= k < |ps| :: ps[k].amount == amount
    ensures Stakes(ps) == |ps| * amount
    decreases |ps|
  {
    if ps != [] {
      StakesUniform(ps[..|ps| - 1], amount);
      assert (|ps| - 1) * amount + amount == |ps| * amount;
    }
  }

  /**
   * Whether the settlement runs to its end: with fixed odds and at least one
   * winner, `bet.options[w].odds` must exist.
   */
  predicate Settles(b: Bet, w: int) {
    |Winners(b.participants, w)| == 0 || b.isWinnerTakesAll || 0 <= w < |b.options|
  }

  /** The amount a winning entry `p` receives. */
  function WinAmount(b: Bet, w: int, p: Participant): int
    requires |Winners(b.participants, w)| > 0 && Settles(b, w)
  {
    if b.isWinnerTakesAll then Pot(b) / |Winners(b.participants, w)|
    else OddsWinnings(p.amount, b.options[w].odds)
  }

  /** `Math.floor(amount * odds)`: the largest whole number of coins not above stake times odds. */
  function OddsWinnings(amount: int, odds: real): (r: int)
    ensures r as real <= amount as real * odds < r as real + 1.0
  {
    (amount as real * odds).Floor
  }

  /** The credit returning each entry's own stake. */
  function Refunds(ps: seq<Participant>): (cs: seq<Credit>)
    ensures |cs| == |ps|
    ensures forall k | 0 <= k < |ps| :: cs[k] == Credit(ps[k].userId, ps[k].amount)
  {
    seq(|ps|, k requires 0 <= k < |ps| => Credit(ps[k].userId, ps[k].amount))
  }

  /** The winners' credits, in the order of the entries. */
  function WinPayouts(b: Bet, w: int): (cs: seq<Credit>)
    requires |Winners(b.participants, w)| > 0 && Settles(b, w)
    ensures var ws := Winners(b.participants, w);
      |cs| == |ws| && forall k | 0 <= k < |ws| :: cs[k] == Credit(ws[k].userId, WinAmount(b, w, ws[k]))
  {
    var ws := Winners(b.participants, w);
    seq(|ws|, k requires 0 <= k < |ws| => Credit(ws[k].userId, WinAmount(b, w, ws[k])))
  }

  /** The winners' statistics updates. */
  function WinEvents(b: Bet, w: int): (es: seq<StatEvent>)
    requires |Winners(b.participants, w)| > 0 && Settles(b, w)
    ensures var ws := Winners(b.participants, w);
      |es| == |ws| && forall k | 0 <= k < |ws| :: es[k] == StatEvent(ws[k].userId, Win, WinAmount(b, w, ws[k]))
  {
    var ws := Winners(b.participants, w);
    seq(|ws|, k requires 0 <= k < |ws| => StatEvent(ws[k].userId, Win, WinAmount(b, w, ws[k])))
  }

  /** The losers' statistics updates. */
  function LossEvents(ps: seq<Participant>, w: int): (es: seq<StatEvent>)
    ensures var ls := Losers(ps, w);
      |es| == |ls| && forall k | 0 <= k < |ls| :: es[k] == StatEvent(ls[k].userId, Loss, 0)
  {
    var ls := Losers(ps, w);
    seq(|ls|, k requires 0 <= k < |ls| => StatEvent(ls[k].userId, Loss, 0))
  }

  /** The credits `completeBet` makes, in order: the winners' payouts, or every stake back when nobody won. */
  function Payouts(b: Bet, w: int): (cs: seq<Credit>)
    requires Settles(b, w)
    ensures |Winners(b.participants, w)| == 0 ==>
      |cs| == |b.participants| && forall k | 0 <= k < |cs| :: cs[k].userId == b.participants[k].userId
    ensures |Winners(b.participants, w)| > 0 ==>
      |cs| == |Winners(b.participants, w)| && forall k | 0 <= k < |cs| :: cs[k].userId == Winners(b.participants, w)[k].userId
  {
    if |Winners(b.participants, w)| == 0 then Refunds(b.participants) else WinPayouts(b, w)
  }

  /** The statistics updates `completeBet` makes, in order: wins, then losses; none for a refund. */
  function StatEvents(b: Bet, w: int): (es: seq<StatEvent>)
    requires Settles(b, w)
    ensures |Winners(b.participants, w)| == 0 <==> es == []
    ensures |Winners(b.participants, w)| > 0 ==>
      |es| == |b.participants| && forall k | 0 <= k < |es| :: es[k].action == (if k < |Winners(b.participants, w)| then Win else Loss)
  {
    WinnersLosersPartition(b.participants, w);
    if |Winners(b.participants, w)| == 0 then [] else WinEvents(b, w) + LossEvents(b.participants, w)
  }

  lemma {:induction false} ApplyEventsAppend(bk: StatsBook, xs: seq<StatEvent>, ys: seq<StatEvent>)
    ensures ApplyEvents(bk, xs + ys) == ApplyEvents(ApplyEvents(bk, xs), ys)
    decreases |ys|
  {
    if ys != [] {
      ApplyEventsAppend(bk, xs, ys[..|ys| - 1]);
      assert (xs + ys)[..|xs + ys| - 1] == xs + ys[..|ys| - 1];
    } else {
      assert xs + ys == xs;
    }
  }

  /** Winner takes all: each winner receives the floor of pot / winners, and the credits never exceed the pot. */
  lemma WinnerTakesAllPayouts(b: Bet, w: int)
    requires b.isWinnerTakesAll && |Winners(b.participants, w)| > 0
    ensures var ws := Winners(b.participants, w); var cs := Payouts(b, w);
      |cs| == |ws| &&
      (forall k | 0 <= k < |cs| ::
        cs[k].userId == ws[k].userId &&
        |ws| * cs[k].amount <= Pot(b) < |ws| * (cs[k].amount + 1))
    ensures var n := |Winners(b.participants, w)|;
      Total(Payouts(b, w)) <= Pot(b) < Total(Payouts(b, w)) + n
  {
    var ws := Winners(b.participants, w);
    var cs := Payouts(b, w);
    var n := |ws|;
    DivBounds(Pot(b), n);
    assert n * (Pot(b) / n + 1) == n * (Pot(b) / n) + n;
    TotalUniform(cs, Pot(b) / n);
  }

  /** Fixed odds: each winner receives the floor of stake times the winning option's odds. */
  lemma FixedOddsPayouts(b: Bet, w: int)
    requires !b.isWinnerTakesAll && |Winners(b.participants, w)| > 0 && 0 <= w < |b.options|
    ensures var ws := Winners(b.participants, w); var cs := Payouts(b, w);
      |cs| == |ws| &&
      forall k | 0 <= k < |cs| ::
        cs[k].userId == ws[k].userId && cs[k].amount == OddsWinnings(ws[k].amount, b.options[w].odds)
  {
    var ws := Winners(b.participants, w);
    var cs := WinPayouts(b, w);
    var odds := b.options[w].odds;
    forall k | 0 <= k < |cs|
      ensures cs[k].userId == ws[k].userId && cs[k].amount == OddsWinnings(ws[k].amount, odds)
    {
    }
  }

  /** When someone won, a user with no winning entry receives no coins and only loss events. */
  lemma LosersNotCredited(b: Bet, w: int, u: UserId)
    requires Settles(b, w) && |Winners(b.participants, w)| > 0
    requires forall k | 0 <= k < |b.participants| && b.participants[k].userId == u ::
      b.participants[k].optionIndex != w
    ensures CreditTo(Payouts(b, w), u) == 0
    ensures var es := StatEvents(b, w);
      forall k | 0 <= k < |es| && es[k].userId == u :: es[k].action == Loss
  {
    var ws := Winners(b.participants, w);
    var cs := WinPayouts(b, w);
    forall k | 0 <= k < |cs| ensures cs[k].userId != u {
      WinnerNotU(b.participants, ws, w, u, k);
    }
    CreditToAbsent(cs, u);
    LoserEventsOnly(b, w, u);
  }

  lemma LoserEventsOnly(b: Bet, w: int, u: UserId)
    requires Settles(b, w) && |Winners(b.participants, w)| > 0
    requires forall k | 0 <= k < |b.participants| && b.participants[k].userId == u ::
      b.participants[k].optionIndex != w
    ensures var es := WinEvents(b, w) + LossEvents(b.participants, w);
      forall k | 0 <= k < |es| && es[k].userId == u :: es[k].action == Loss
  {
    var ws := Winners(b.participants, w);
    var wins := WinEvents(b, w);
    var losses := LossEvents(b.participants, w);
    forall k | 0 <= k < |wins| ensures wins[k].userId != u {
      WinnerNotU(b.participants, ws, w, u, k);
    }
  }

  lemma WinnerNotU(ps: seq<Participant>, ws: seq<Participant>, w: int, u: UserId, k: int)
    requires ws == Winners(ps, w) && 0 <= k < |ws|
    requires forall j | 0 <= j < |ps| && ps[j].userId == u :: ps[j].optionIndex != w
    ensures ws[k].userId != u
  {
    WinnersExactly(ps, w);
    assert ws[k] in ws;
    var j :| 0 <= j < |ps| && ps[j] == ws[k];
  }

  /** With no winner, each entry gets its own stake back: per user and in total. */
  lemma RefundsReturnStakes(b: Bet, w: int, u: UserId)
    requires |Winners(b.participants, w)| == 0
    ensures Total(Payouts(b, w)) == Stakes(b.participants)
    ensures CreditTo(Payouts(b, w), u) == StakeOf(b.participants, u)
    ensures StatEvents(b, w) == []
  {
    RefundSums(b.participants, u);
  }

  lemma {:induction false} RefundSums(ps: seq<Participant>, u: UserId)
    ensures Total(Refunds(ps)) == Stakes(ps)
    ensures CreditTo(Refunds(ps), u) == StakeOf(ps, u)
    decreases |ps|
  {
    if ps != [] {
      var init := ps[..|ps| - 1];
      RefundSums(init, u);
      assert Refunds(ps)[..|ps| - 1] == Refunds(init);
    }
  }

  /** Applying the same credits twice moves each kept balance by twice their sum. */
  lemma CreditsTwice(wl: Wallets, cs: seq<Credit>, u: UserId)
    requires wl.Balance(u).Some?
    ensures ApplyCredits(ApplyCredits(wl, cs), cs).Balance(u) == Some(wl.Balance(u).value + 2 * CreditTo(cs, u))
  {
    var once := ApplyCredits(wl, cs);
    ApplyCreditsBalance(wl, cs, u);
    assert once.Balance(u) == Some(wl.Balance(u).value + CreditTo(cs, u));
    ApplyCreditsBalance(once, cs, u);
  }

  /**
   * Nothing marks a bet as paid: the completed bet `completeBet` saves still
   * settles, with the same payouts and statistics, so completing it again
   * credits every kept balance a second time.
   */
  lemma RepeatedSettlementPaysTwice(wl: Wallets, b: Bet, w: int, u: UserId)
    requires Settles(b, w) && wl.Balance(u).Some?
    ensures var done := b.(status := Completed, winningOption := Some(w));
      Settles(done, w) && Payouts(done, w) == Payouts(b, w) && StatEvents(done, w) == StatEvents(b, w) &&
      ApplyCredits(ApplyCredits(wl, Payouts(b, w)), Payouts(done, w)).Balance(u) ==
        Some(wl.Balance(u).value + 2 * CreditTo(Payouts(b, w), u))
  {
    var done := b.(status := Completed, winningOption := Some(w));
    assert done.participants == b.participants && done.options == b.options;
    assert Pot(done) == Pot(b);
    var cs := Payouts(b, w);
    if |Winners(b.participants, w)| > 0 {
      assert WinPayouts(done, w) == WinPayouts(b, w);
      assert WinEvents(done, w) == WinEvents(b, w);
    }
    assert Payouts(done, w) == cs;
    var twice := ApplyCredits(ApplyCredits(wl, cs), cs);
    CreditsTwice(wl, cs, u);
    assert twice.Balance(u) == Some(wl.Balance(u).value + 2 * CreditTo(cs, u));
  }

  /* ---------------------------------------------------------------------- */
  /* Joining and the potential-win estimate                                 */
  /* ---------------------------------------------------------------------- */

  datatype JoinError = NotLoggedIn | NoOptionSelected | BetNotFound | AlreadyJoined | InsufficientCoins | NoSuchOption

  /** `bet.participants.some(p => p.userId === u)`. */
  predicate HasJoined(ps: seq<Participant>, u: UserId) {
    exists k | 0 <= k < |ps| :: ps[k].userId == u
  }

  /** Every user holds at most one entry. */
  predicate OneEntryPerUser(ps: seq<Participant>) {
    forall i, j | 0 <= i < j < |ps| :: ps[i].userId != ps[j].userId
  }

  /** The bet with `u`'s entry appended, at the bet's amount. */
  function AddParticipant(b: Bet, u: UserId, optionIndex: int): (r: Bet)
    ensures r.participants == b.participants + [Participant(u, optionIndex, b.amount)]
    ensures r == b.(participants := r.participants)
  {
    b.(participants := b.participants + [Participant(u, optionIndex, b.amount)])
  }

  /** Joining keeps one entry per user and every stake at the bet's amount, and the pot grows by that amount. */
  lemma JoinKeepsEntriesUniform(b: Bet, u: UserId, optionIndex: int)
    requires OneEntryPerUser(b.participants) && !HasJoined(b.participants, u)
    requires forall k | 0 <= k < |b.participants| :: b.participants[k].amount == b.amount
    ensures var r := AddParticipant(b, u, optionIndex);
      OneEntryPerUser(r.participants) && HasJoined(r.participants, u) &&
      (forall k | 0 <= k < |r.participants| :: r.participants[k].amount == r.amount) &&
      Pot(r) == Pot(b) + b.amount
  {
    var r := AddParticipant(b, u, optionIndex);
    assert r.participants[|b.participants|].userId == u;
    assert |b.participants| * b.amount + b.amount == (|b.participants| + 1) * b.amount;
  }

  /** The winner-takes-all estimate on a bet card: pot over max(1, entries on the chosen option), floored. */
  function PotentialWin(b: Bet, optionIndex: int): (r: int)
    ensures EstimatedWinners(b, optionIndex) * r <= Pot(b) < EstimatedWinners(b, optionIndex) * r + EstimatedWinners(b, optionIndex)
  {
    DivBounds(Pot(b), EstimatedWinners(b, optionIndex));
    Pot(b) / EstimatedWinners(b, optionIndex)
  }

  /** `Math.max(1, entries on the chosen option)`. */
  function EstimatedWinners(b: Bet, optionIndex: int): (est: int)
    ensures est >= 1 && est >= |Winners(b.participants, optionIndex)|
    ensures |Winners(b.participants, optionIndex)| > 0 ==> est == |Winners(b.participants, optionIndex)|
  {
    var same := |Winners(b.participants, optionIndex)|;
    if same > 1 then same else 1
  }

  /** If the bet were settled on the chosen option now, every winner would receive exactly the estimate. */
  lemma PotentialWinIsShare(b: Bet, optionIndex: int)
    requires b.isWinnerTakesAll && |Winners(b.participants, optionIndex)| > 0
    ensures forall c | c in Payouts(b, optionIndex) :: c.amount == PotentialWin(b, optionIndex)
  {
  }

  /* ---------------------------------------------------------------------- */
  /* The browser storage the script works on                                */
  /* ---------------------------------------------------------------------- */

  datatype SettleError = NotFound | NoWinningOption

  class BetStore {
    /** `gobet_bets` */
    var bets: seq<Bet>
    /** `gobet_logged_in === 'true'` */
    var loggedIn: bool
    /** `getUserId()` */
    var currentUser: UserId
    /** `gobet_user_coins` */
    var coins: int
    /** ids found in `gobet_registered_users` */
    var registered: set<UserId>
    /** `gobet_user_coins_<id>` */
    var storedCoins: map<UserId, int>
    /** `gobet_user_stats` */
    var stats: StatsRecord
    /** `gobet_user_stats_<id>` */
    var storedStats: map<UserId, StatsRecord>

    constructor (bets: seq<Bet>, loggedIn: bool, currentUser: UserId, coins: int,
                 registered: set<UserId>, storedCoins: map<UserId, int>,
                 stats: StatsRecord, storedStats: map<UserId, StatsRecord>)
      ensures this.bets == bets && this.loggedIn == loggedIn && this.currentUser == currentUser
      ensures this.coins == coins && this.registered == registered && this.storedCoins == storedCoins
      ensures this.stats == stats && this.storedStats == storedStats
    {
      this.bets := bets;
      this.loggedIn := loggedIn;
      this.currentUser := currentUser;
      this.coins := coins;
      this.registered := registered;
      this.storedCoins := storedCoins;
      this.stats := stats;
      this.storedStats := storedStats;
    }

    function Wallet(): Wallets
      reads this`currentUser, this`coins, this`registered, this`storedCoins
    {
      Wallets(currentUser, coins, registered, storedCoins)
    }

    function Book(): StatsBook
      reads this`currentUser, this`stats, this`registered, this`storedStats
    {
      StatsBook(currentUser, stats, registered, storedStats)
    }

    /** The `findIndex` of `saveBet`, as a search loop. */
    method FindBetIndex(id: BetId) returns (i: int)
      ensures -1 <= i < |bets|
      ensures i == -1 ==> forall k | 0 <= k < |bets| :: bets[k].id != id
      ensures i >= 0 ==> bets[i].id == id && forall k | 0 <= k < i :: bets[k].id != id
    {
      i := 0;
      while i < |bets|
        invariant 0 <= i <= |bets|
        invariant forall k | 0 <= k < i :: bets[k].id != id
      {
        if bets[i].id == id {
          return;
        }
        i := i + 1;
      }
      i := -1;
    }

    /** `getBetById`. */
    method GetBetById(id: BetId) returns (r: Option<Bet>)
      ensures r == Lookup(bets, id)
    {
      var i := FindBetIndex(id);
      assert i == IndexOf(bets, id);
      r := if i == -1 then None else Some(bets[i]);
    }

    /** `saveBet`: replace the entry with the same id, or append. */
    method SaveBet(b: Bet)
      modifies this`bets
      ensures bets == Upsert(old(bets), b)
    {
      var i := FindBetIndex(b.id);
      assert i == IndexOf(bets, b.id);
      if i != -1 {
        bets := bets[i := b];
      } else {
        bets := bets + [b];
      }
    }

    /** `updateUserCoins(amount)`. */
    method UpdateUserCoins(amount: int)
      modifies this`coins
      ensures coins == old(coins) + amount
    {
      coins := coins + amount;
    }

    /** `updateUserStats(action, amount)`. */
    method UpdateUserStats(a: StatAction, amount: int)
      modifies this`stats
      ensures stats == RecordAction(old(stats), a, amount)
    {
      stats := RecordAction(stats, a, amount);
    }

    /** `updateUserStatsByUserId(u, action, amount)`. */
    method UpdateUserStatsByUserId(u: UserId, a: StatAction, amount: int)
      modifies this`stats, this`storedStats
      ensures Book() == old(Book()).Record(u, a, amount)
    {
      if u == currentUser {
        UpdateUserStats(a, amount);
        return;
      }
      if u in registered {
        var s := if u in storedStats then storedStats[u] else EmptyStats;
        storedStats := storedStats[u := RecordForOther(s, a, amount)];
      }
    }

    /** `distributeWinnings(u, amount)`. */
    method DistributeWinnings(u: UserId, amount: int)
      modifies this`coins, this`storedCoins
      ensures Wallet() == old(Wallet()).Credit(u, amount)
    {
      if u == currentUser {
        UpdateUserCoins(amount);
        return;
      }
      if u in registered {
        var current := if u in storedCoins then storedCoins[u] else 0;
        storedCoins := storedCoins[u := current + amount];
      }
    }

    /** The submit handler of the creation form. */
    method CreateBet(id: BetId, title: string, description: string, amount: Option<int>,
                     endDate: Option<int>, isWinnerTakesAll: bool, entered: seq<BetOption>, now: int)
      returns (r: Result<Bet, CreateError>)
      modifies this`bets, this`stats
      ensures r == NewBet(id, currentUser, title, description, amount, endDate, isWinnerTakesAll, entered, now)
      ensures r.Ok? ==> bets == Upsert(old(bets), r.value) && stats == RecordAction(old(stats), Created, 0)
      ensures r.Err? ==> bets == old(bets) && stats == old(stats)
    {
      r := NewBet(id, currentUser, title, description, amount, endDate, isWinnerTakesAll, entered, now);
      if r.Ok? {
        SaveBet(r.value);
        UpdateUserStats(Created, 0);
      }
    }

    /** The click handler of a bet card's join button; `selected` is the chosen option's index, if any. */
    method Join(betId: BetId, selected: Option<int>) returns (r: Result<Bet, JoinError>)
      modifies this`bets, this`coins, this`stats
      ensures !loggedIn ==> r == Err(NotLoggedIn)
      ensures loggedIn && selected.None? ==> r == Err(NoOptionSelected)
      ensures loggedIn && selected.Some? && Lookup(old(bets), betId).None? ==> r == Err(BetNotFound)
      ensures loggedIn && selected.Some? && Lookup(old(bets), betId).Some? ==>
        var b := Lookup(old(bets), betId).value;
        (HasJoined(b.participants, currentUser) ==> r == Err(AlreadyJoined)) &&
        (!HasJoined(b.participants, currentUser) && old(coins) < b.amount ==> r == Err(InsufficientCoins)) &&
        ((!HasJoined(b.participants, currentUser) && old(coins) >= b.amount &&
          !(0 <= selected.value < |b.options|)) ==> r == Err(NoSuchOption)) &&
        (r.Ok? ==>
          !HasJoined(b.participants, currentUser) && old(coins) >= b.amount &&
          r.value == AddParticipant(b, currentUser, selected.value) &&
          bets == Upsert(old(bets), r.value) &&
          coins == old(coins) - b.amount &&
          stats == RecordAction(old(stats), Joined, 0))
      ensures r.Err? ==> bets == old(bets) && coins == old(coins) && stats == old(stats)
      ensures r.Ok? <==>
        (loggedIn && selected.Some? && Lookup(old(bets), betId).Some? &&
         !HasJoined(Lookup(old(bets), betId).value.participants, currentUser) &&
         old(coins) >= Lookup(old(bets), betId).value.amount &&
         0 <= selected.value < |Lookup(old(bets), betId).value.options|)
    {
      if !loggedIn {
        return Err(NotLoggedIn);
      }
      if selected.None? {
        return Err(NoOptionSelected);
      }
      var found := GetBetById(betId);
      if found.None? {
        return Err(BetNotFound);
      }
      var b := found.value;
      var k := 0;
      while k < |b.participants|
        invariant 0 <= k <= |b.participants|
        invariant forall j | 0 <= j < k :: b.participants[j].userId != currentUser
      {
        if b.participants[k].userId == currentUser {
          return Err(AlreadyJoined);
        }
        k := k + 1;
      }
      if coins < b.amount {
        return Err(InsufficientCoins);
      }
      var optionIndex := selected.value;
      if !(0 <= optionIndex < |b.options|) {
        return Err(NoSuchOption);
      }
      var joined := AddParticipant(b, currentUser, optionIndex);
      SaveBet(joined);
      UpdateUserCoins(-b.amount);
      UpdateUserStats(Joined, 0);
      r := Ok(joined);
    }

    /** The winners' loop of `completeBet`: credit each winner and count the win. */
    method PayWinners(bet: Bet, w: int)
      requires |Winners(bet.participants, w)| > 0 && Settles(bet, w)
      modifies this`coins, this`storedCoins, this`stats, this`storedStats
      ensures Wallet() == ApplyCredits(old(Wallet()), WinPayouts(bet, w))
      ensures Book() == ApplyEvents(old(Book()), WinEvents(bet, w))
    {
      var winners := Winners(bet.participants, w);
      ghost var cs := WinPayouts(bet, w);
      ghost var es := WinEvents(bet, w);
      var i := 0;
      while i < |winners|
        invariant 0 <= i <= |winners|
        invariant Wallet() == ApplyCredits(old(Wallet()), cs[..i])
        invariant Book() == ApplyEvents(old(Book()), es[..i])
      {
        var amount := WinAmount(bet, w, winners[i]);
        DistributeWinnings(winners[i].userId, amount);
        UpdateUserStatsByUserId(winners[i].userId, Win, amount);
        ApplyCreditsStep(old(Wallet()), cs, i);
        ApplyEventsStep(old(Book()), es, i);
        i := i + 1;
      }
      assert cs[..i] == cs;
      assert es[..i] == es;
    }

    /** The losers' loop of `completeBet`: count a loss for each. */
    method RecordLosers(ps: seq<Participant>, w: int)
      modifies this`stats, this`storedStats
      ensures Book() == ApplyEvents(old(Book()), LossEvents(ps, w))
    {
      var losers := Losers(ps, w);
      ghost var es := LossEvents(ps, w);
      var j := 0;
      while j < |losers|
        invariant 0 <= j <= |losers|
        invariant Book() == ApplyEvents(old(Book()), es[..j])
      {
        UpdateUserStatsByUserId(losers[j].userId, Loss, 0);
        ApplyEventsStep(old(Book()), es, j);
        j := j + 1;
      }
      assert es[..j] == es;
    }

    /** The refund loop of `completeBet`: every entry gets its stake back. */
    method RefundAll(ps: seq<Participant>)
      modifies this`coins, this`storedCoins
      ensures Wallet() == ApplyCredits(old(Wallet()), Refunds(ps))
    {
      ghost var cs := Refunds(ps);
      var i := 0;
      while i < |ps|
        invariant 0 <= i <= |ps|
        invariant Wallet() == ApplyCredits(old(Wallet()), cs[..i])
      {
        DistributeWinnings(ps[i].userId, ps[i].amount);
        ApplyCreditsStep(old(Wallet()), cs, i);
        i := i + 1;
      }
      assert cs[..i] == cs;
    }

    /** The payout part of `completeBet` once the bet is found: winners and losers, or refunds. */
    method Settle(bet: Bet, w: int)
      requires Settles(bet, w)
      modifies this`coins, this`storedCoins, this`stats, this`storedStats
      ensures Wallet() == ApplyCredits(old(Wallet()), Payouts(bet, w))
      ensures Book() == ApplyEvents(old(Book()), StatEvents(bet, w))
    {
      var winners := Winners(bet.participants, w);
      if |winners| > 0 {
        PayWinners(bet, w);
        RecordLosers(bet.participants, w);
        ApplyEventsAppend(old(Book()), WinEvents(bet, w), LossEvents(bet.participants, w));
      } else {
        RefundAll(bet.participants);
      }
    }

    /** `completeBet(betId, w)`: marks the bet completed and pays out, with no check of its status. */
    method CompleteBet(betId: BetId, w: int) returns (r: Result<Bet, SettleError>)
      modifies this`bets, this`coins, this`storedCoins, this`stats, this`storedStats
      ensures r.Ok? <==> Lookup(old(bets), betId).Some? && Settles(Lookup(old(bets), betId).value, w)
      ensures Lookup(old(bets), betId).None? ==> r == Err(NotFound)
      ensures Lookup(old(bets), betId).Some? && !Settles(Lookup(old(bets), betId).value, w) ==>
        r == Err(NoWinningOption)
      ensures r.Err? ==> bets == old(bets) && Wallet() == old(Wallet()) && Book() == old(Book())
      ensures r.Ok? ==>
        var b := Lookup(old(bets), betId).value;
        Settles(b, w) &&
        r.value == b.(status := Completed, winningOption := Some(w)) &&
        bets == Upsert(old(bets), r.value) &&
        Wallet() == ApplyCredits(old(Wallet()), Payouts(b, w)) &&
        Book() == ApplyEvents(old(Book()), StatEvents(b, w))
    {
      var found := GetBetById(betId);
      if found.None? {
        return Err(NotFound);
      }
      var bet := found.value;
      var winners := Winners(bet.participants, w);
      if |winners| > 0 && !bet.isWinnerTakesAll && !(0 <= w < |bet.options|) {
        return Err(NoWinningOption);
      }
      Settle(bet, w);
      r := Ok(bet.(status := Completed, winningOption := Some(w)));
      SaveBet(r.value);
    }
  }
}
