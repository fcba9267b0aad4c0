/**
 * The legacy bet controller (controllers/betController.js): placing a match
 * bet against the user's balance, reading a bet, and the administrator's
 * update that credits the winnings of a bet marked as won.
 */
module BetController {
  import opened Common
  import opened LegacyDb

  /** The body of a place-bet request; a missing field is 0 or the empty string. */
  datatype PlaceRequest = PlaceRequest(matchId: int, team1: string, team2: string, prediction: string, odds: real, stake: real)

  /** Every field is present (none is 0 or empty). */
  predicate Complete(q: PlaceRequest) {
    q.matchId != 0 && q.team1 != "" && q.team2 != "" && q.prediction != "" && q.odds != 0.0 && q.stake != 0.0
  }

  /** The Bet schema's limits: a stake of at least 10, odds of at least 1.01, a known prediction. */
  predicate BetSchemaAccepts(q: PlaceRequest) {
    q.stake >= 10.0 && q.odds >= 1.01 && ParsePrediction(q.prediction).Some?
  }

  /** `placeBet`: the bet to create, or the status of the refusal, in the order the handler checks. */
  function PlaceOutcome(users: seq<User>, userId: Id, q: PlaceRequest, newBetId: Id): (r: Result<Bet, int>)
    ensures !Complete(q) ==> r == Err(400)
    ensures Complete(q) && FindUser(users, userId) == -1 ==> r == Err(404)
    ensures Complete(q) && FindUser(users, userId) >= 0 && users[FindUser(users, userId)].balance < q.stake ==> r == Err(400)
    ensures r.Ok? <==> (Complete(q) && FindUser(users, userId) >= 0 && users[FindUser(users, userId)].balance >= q.stake &&
      BetSchemaAccepts(q))
    ensures r.Ok? ==> (r.value.id == newBetId && r.value.user == userId && r.value.stake == q.stake &&
      r.value.potentialWinnings == q.stake * q.odds && r.value.status == Pending && r.value.result == None)
  {
    if !Complete(q) then Err(400)
    else
      var i := FindUser(users, userId);
      if i == -1 then Err(404)
      else if users[i].balance < q.stake then Err(400)
      else if !BetSchemaAccepts(q) then Err(500)
      else Ok(Bet(newBetId, userId, q.matchId, q.team1, q.team2, ParsePrediction(q.prediction).value,
        q.odds, q.stake, q.stake * q.odds, Pending, None))
  }

  /** The stakes of the bets of user `u`. */
  function StakedBy(bets: seq<Bet>, u: Id): (total: real)
    decreases |bets|
  {
    if bets == [] then 0.0
    else StakedBy(bets[..|bets| - 1], u) + (if bets[|bets| - 1].user == u then bets[|bets| - 1].stake else 0.0)
  }

  /** Staking rises by exactly the stake of a new bet of `u`, and not at all for another user's bet. */
  lemma StakedByAppend(bets: seq<Bet>, b: Bet, u: Id)
    ensures StakedBy(bets + [b], u) == StakedBy(bets, u) + (if b.user == u then b.stake else 0.0)
  {
    assert (bets + [b])[..|bets|] == bets;
  }

  /** Stakes of at least 10 leave the total staked non-negative. */
  lemma {:induction false} StakedByNonNegative(bets: seq<Bet>, u: Id)
    requires forall k | 0 <= k < |bets| :: bets[k].stake >= 10.0
    ensures StakedBy(bets, u) >= 0.0
    decreases |bets|
  {
    if bets != [] {
      StakedByNonNegative(bets[..|bets| - 1], u);
    }
  }

  /** The user at index `i` after placing `bet`: debited by the stake, with the bet recorded. */
  function Placed(users: seq<User>, i: nat, bet: Bet): (us: seq<User>)
    requires i < |users|
    ensures |us| == |users| && us[i].balance == users[i].balance - bet.stake && us[i].bets == users[i].bets + [bet.id]
    ensures forall k | 0 <= k < |users| && k != i :: us[k] == users[k]
  {
    users[i := users[i].(balance := users[i].balance - bet.stake, bets := users[i].bets + [bet.id])]
  }

  /**
   * A placed bet leaves the bettor's balance non-negative, and moves the stake
   * from the balance to the bets: balance plus total staked is unchanged. With
   * every stored stake at least 10, as the schema demands, the bettor held at
   * least the stake beforehand, and afterwards has at least the stake at play.
   */
  lemma PlaceConservesFunds(users: seq<User>, bets: seq<Bet>, userId: Id, q: PlaceRequest, newBetId: Id)
    requires PlaceOutcome(users, userId, q, newBetId).Ok?
    ensures var bet := PlaceOutcome(users, userId, q, newBetId).value;
      var i := FindUser(users, userId);
      var us := Placed(users, i, bet);
      us[i].balance >= 0.0 &&
      us[i].balance + StakedBy(bets + [bet], userId) == users[i].balance + StakedBy(bets, userId)
    ensures (forall k | 0 <= k < |bets| :: bets[k].stake >= 10.0) ==>
      var bet := PlaceOutcome(users, userId, q, newBetId).value;
      var i := FindUser(users, userId);
      users[i].balance + StakedBy(bets, userId) >= bet.stake && StakedBy(bets + [bet], userId) >= bet.stake
  {
    var bet := PlaceOutcome(users, userId, q, newBetId).value;
    StakedByAppend(bets, bet, userId);
    if forall k | 0 <= k < |bets| :: bets[k].stake >= 10.0 {
      StakedByNonNegative(bets, userId);
    }
  }

  /** `placeBet` on the store: create the bet, debit the stake, record the bet on the user. */
  method PlaceBet(store: Store, userId: Id, q: PlaceRequest, newBetId: Id) returns (status: int)
    modifies store
    ensures var r := PlaceOutcome(old(store.users), userId, q, newBetId);
      r.Err? ==> status == r.error && store.users == old(store.users) && store.bets == old(store.bets)
    ensures var r := PlaceOutcome(old(store.users), userId, q, newBetId);
      r.Ok? ==> (status == 201 && store.bets == old(store.bets) + [r.value] &&
        store.users == Placed(old(store.users), FindUser(old(store.users), userId), r.value))
  {
    if !Complete(q) {
      return 400;
    }
    var i := FindUser(store.users, userId);
    if i == -1 {
      return 404;
    }
    var user := store.users[i];
    if user.balance < q.stake {
      return 400;
    }
    if !BetSchemaAccepts(q) {
      return 500;
    }
    var potentialWinnings := q.stake * q.odds;
    var bet := Bet(newBetId, userId, q.matchId, q.team1, q.team2, ParsePrediction(q.prediction).value,
      q.odds, q.stake, potentialWinnings, Pending, None);
    store.bets := store.bets + [bet];
    user := user.(balance := user.balance - q.stake);
    user := user.(bets := user.bets + [bet.id]);
    store.users := store.users[i := user];
    return 201;
  }

  /** `getBetById`: 404 for an unknown bet, then 403 unless the requester owns it or is an administrator. */
  function ReadBet(bets: seq<Bet>, betId: Id, requester: Id, role: Role): (r: Result<Bet, int>)
    ensures FindBet(bets, betId) == -1 ==> r == Err(404)
    ensures r.Ok? <==> FindBet(bets, betId) >= 0 && (bets[FindBet(bets, betId)].user == requester || role == Admin)
    ensures r.Ok? ==> r.value == bets[FindBet(bets, betId)]
    ensures r.Err? && FindBet(bets, betId) >= 0 ==> r.error == 403
  {
    var i := FindBet(bets, betId);
    if i == -1 then Err(404)
    else if bets[i].user != requester && role != Admin then Err(403)
    else Ok(bets[i])
  }

  /** The status code and both collections after an update. */
  datatype Effect = Effect(code: int, users: seq<User>, bets: seq<Bet>)

  /** `status || bet.status`: the new status, or `None` when it fails validation. */
  function NewStatus(given: string, current: BetStatus): Option<BetStatus> {
    if given != "" then ParseStatus(given) else Some(current)
  }

  /** `result || bet.result`: the new result, or `None` when it fails validation. */
  function NewResult(given: string, current: Option<Prediction>): Option<Option<Prediction>> {
    if given == "" then Some(current)
    else if ParsePrediction(given).None? then None
    else Some(ParsePrediction(given))
  }

  /**
   * An empty field leaves the status and the result as they were; a given
   * one replaces them whatever they were, and fails validation exactly when
   * it is not one of the schema's values.
   */
  lemma NewFields(given: string, s1: BetStatus, s2: BetStatus, r1: Option<Prediction>, r2: Option<Prediction>)
    ensures given == "" ==> NewStatus(given, s1) == Some(s1) && NewResult(given, r1) == Some(r1)
    ensures given != "" ==> NewStatus(given, s1) == NewStatus(given, s2) && NewResult(given, r1) == NewResult(given, r2)
    ensures NewStatus(given, s1).None? <==> given !in {"", "pending", "won", "lost", "cancelled"}
    ensures NewResult(given, r1).None? <==> given !in {"", "1", "X", "2"}
    ensures given != "" && NewResult(given, r1).Some? ==> NewResult(given, r1).value.Some?
  {
    if given != "" && ParsePrediction(given).None? {
      assert given != "1" && given != "X" && given != "2";
    }
  }

  /** The credit of `amount` to the user at index `j`. */
  function Credit(users: seq<User>, j: nat, amount: real): (us: seq<User>)
    requires j < |users|
    ensures |us| == |users| && us[j].balance == users[j].balance + amount
    ensures forall k | 0 <= k < |users| && k != j :: us[k] == users[k]
    ensures forall k | 0 <= k < |users| :: us[k].id == users[k].id
  {
    users[j := users[j].(balance := users[j].balance + amount)]
  }

  /**
   * `updateBet` by a requester with `role`: 404 for an unknown bet, then 403 for
   * a non-administrator; the status and result are replaced only when given,
   * and a status of "won" credits the potential winnings to the bet's owner
   * whatever the bet's previous status was.
   */
  function UpdateBetEffect(users: seq<User>, bets: seq<Bet>, betId: Id, role: Role, status: string, result: string): (e: Effect)
    ensures FindBet(bets, betId) == -1 ==> e == Effect(404, users, bets)
    ensures FindBet(bets, betId) >= 0 && role != Admin ==> e == Effect(403, users, bets)
    ensures |e.bets| == |bets| && forall k | 0 <= k < |bets| :: e.bets[k].id == bets[k].id
    ensures |e.users| == |users| && forall k | 0 <= k < |users| :: e.users[k].id == users[k].id
    ensures status != "won" ==> e.users == users
    ensures e.code == 200 ==> var i := FindBet(bets, betId);
      i >= 0 && role == Admin && NewStatus(status, bets[i].status).Some? && NewResult(result, bets[i].result).Some? &&
      e.bets == bets[i := bets[i].(status := NewStatus(status, bets[i].status).value, result := NewResult(result, bets[i].result).value)]
    ensures e.code == 200 && status == "won" ==>
      var b := bets[FindBet(bets, betId)];
      var j := FindUser(users, b.user);
      j >= 0 && e.users == Credit(users, j, b.potentialWinnings)
  {
    var i := FindBet(bets, betId);
    if i == -1 then Effect(404, users, bets)
    else if role != Admin then Effect(403, users, bets)
    else
      var st := NewStatus(status, bets[i].status);
      var res := NewResult(result, bets[i].result);
      if st.None? || res.None? then Effect(500, users, bets)
      else
        var b := bets[i].(status := st.value, result := res.value);
        var bets' := bets[i := b];
        if status == "won" then
          var j := FindUser(users, b.user);
          if j == -1 then Effect(500, users, bets')
          else Effect(200, Credit(users, j, b.potentialWinnings), bets')
        else Effect(200, users, bets')
  }

  lemma FindUserSameIds(users: seq<User>, users': seq<User>, id: Id)
    requires |users'| == |users| && forall k | 0 <= k < |users| :: users'[k].id == users[k].id
    ensures FindUser(users', id) == FindUser(users, id)
  {
    var i := FindUser(users, id);
    var i' := FindUser(users', id);
    if i == -1 {
      assert i' == -1;
    } else {
      assert users'[i].id == id;
      assert forall k | 0 <= k < i :: users'[k].id != id;
    }
  }

  lemma FindBetSameIds(bets: seq<Bet>, bets': seq<Bet>, id: Id)
    requires |bets'| == |bets| && forall k | 0 <= k < |bets| :: bets'[k].id == bets[k].id
    ensures FindBet(bets', id) == FindBet(bets, id)
  {
    var i := FindBet(bets, id);
    if i >= 0 {
      assert bets'[i].id == id;
      assert forall k | 0 <= k < i :: bets'[k].id != id;
    }
  }

  /** Marking a bet as won succeeds when it exists, the result is valid and its owner exists. */
  lemma WonSucceeds(users: seq<User>, bets: seq<Bet>, betId: Id, result: string)
    requires FindBet(bets, betId) >= 0
    requires NewResult(result, bets[FindBet(bets, betId)].result).Some?
    requires FindUser(users, bets[FindBet(bets, betId)].user) >= 0
    ensures UpdateBetEffect(users, bets, betId, Admin, "won", result).code == 200
  {
    assert ParseStatus("won") == Some(Won);
  }

  /** Marking the same bet as won twice credits its owner twice. */
  lemma RepeatedWinCreditsTwice(users: seq<User>, bets: seq<Bet>, betId: Id, result: string)
    requires UpdateBetEffect(users, bets, betId, Admin, "won", result).code == 200
    ensures var e1 := UpdateBetEffect(users, bets, betId, Admin, "won", result);
      var e2 := UpdateBetEffect(e1.users, e1.bets, betId, Admin, "won", result);
      var b := bets[FindBet(bets, betId)];
      var j := FindUser(users, b.user);
      e2.code == 200 && e2.users[j].balance == users[j].balance + 2.0 * b.potentialWinnings
  {
    var e1 := UpdateBetEffect(users, bets, betId, Admin, "won", result);
    var i := FindBet(bets, betId);
    var b := bets[i];
    var j := FindUser(users, b.user);
    FindBetSameIds(bets, e1.bets, betId);
    FindUserSameIds(users, e1.users, b.user);
    var b1 := e1.bets[i];
    assert b1.user == b.user && b1.potentialWinnings == b.potentialWinnings;
    assert NewResult(result, b1.result).Some?;
    WonSucceeds(e1.users, e1.bets, betId, result);
    var e2 := UpdateBetEffect(e1.users, e1.bets, betId, Admin, "won", result);
    assert e2.users == Credit(e1.users, j, b.potentialWinnings);
  }

  /** `updateBet` on the store, as the requester with `role`. */
  method UpdateBet(store: Store, betId: Id, role: Role, status: string, result: string) returns (code: int)
    modifies store
    ensures var e := UpdateBetEffect(old(store.users), old(store.bets), betId, role, status, result);
      code == e.code && store.users == e.users && store.bets == e.bets
  {
    var i := FindBet(store.bets, betId);
    if i == -1 {
      return 404;
    }
    if role != Admin {
      return 403;
    }
    var bet := store.bets[i];
    var st := NewStatus(status, bet.status);
    var res := NewResult(result, bet.result);
    if st.None? || res.None? {
      return 500;
    }
    bet := bet.(status := st.value, result := res.value);
    store.bets := store.bets[i := bet];
    if status == "won" {
      var j := FindUser(store.users, bet.user);
      if j == -1 {
        return 500;
      }
      var user := store.users[j];
      user := user.(balance := user.balance + bet.potentialWinnings);
      store.users := store.users[j := user];
    }
    return 200;
  }
}
