/**
 * The collections the legacy Express controllers work on (models/User.js and
 * models/Bet.js): users with a `balance`, and match bets with a stake, odds
 * and a status. A `findById` or `findOne` is the first matching document.
 */
module LegacyDb {
  import opened Common

  type Id = string

  /** `role`: 'user' or 'admin'. */
  datatype Role = Member | Admin

  datatype User = User(id: Id, username: string, email: string, password: string, balance: real, role: Role, bets: seq<Id>)

  /** A match prediction: '1', 'X' or '2'. */
  datatype Prediction = Home | Draw | Away

  datatype BetStatus = Pending | Won | Lost | Cancelled

  datatype Bet = Bet(
    id: Id, user: Id, matchId: int, team1: string, team2: string,
    prediction: Prediction, odds: real, stake: real, potentialWinnings: real,
    status: BetStatus, result: Option<Prediction>)

  /** The enum of `prediction` and `result`; anything else fails validation. */
  function ParsePrediction(s: string): (p: Option<Prediction>)
    ensures p == Some(Home) <==> s == "1"
    ensures p == Some(Draw) <==> s == "X"
    ensures p == Some(Away) <==> s == "2"
  {
    if s == "1" then Some(Home) else if s == "X" then Some(Draw) else if s == "2" then Some(Away) else None
  }

  /** The enum of `status`; anything else fails validation. */
  function ParseStatus(s: string): (st: Option<BetStatus>)
    ensures st == Some(Won) <==> s == "won"
    ensures st.None? <==> s != "pending" && s != "won" && s != "lost" && s != "cancelled"
  {
    if s == "pending" then Some(Pending)
    else if s == "won" then Some(Won)
    else if s == "lost" then Some(Lost)
    else if s == "cancelled" then Some(Cancelled)
    else None
  }

  /** `User.findById(id)`: the first user with that id, or -1. */
  function FindUser(users: seq<User>, id: Id): (i: int)
    ensures -1 <= i < |users|
    ensures i == -1 <==> forall k | 0 <= k < |users| :: users[k].id != id
    ensures i >= 0 ==> users[i].id == id && forall k | 0 <= k < i :: users[k].id != id
    decreases |users|
  {
    if users == [] then -1
    else if users[0].id == id then 0
    else
      var j := FindUser(users[1..], id);
      if j == -1 then -1 else j + 1
  }

  /** `User.findOne({ email })`: the first user with that email, or -1. */
  function FindByEmail(users: seq<User>, email: string): (i: int)
    ensures -1 <= i < |users|
    ensures i == -1 <==> forall k | 0 <= k < |users| :: users[k].email != email
    ensures i >= 0 ==> users[i].email == email && forall k | 0 <= k < i :: users[k].email != email
    decreases |users|
  {
    if users == [] then -1
    else if users[0].email == email then 0
    else
      var j := FindByEmail(users[1..], email);
      if j == -1 then -1 else j + 1
  }

  /** `Bet.findById(id)`: the first bet with that id, or -1. */
  function FindBet(bets: seq<Bet>, id: Id): (i: int)
    ensures -1 <= i < |bets|
    ensures i == -1 <==> forall k | 0 <= k < |bets| :: bets[k].id != id
    ensures i >= 0 ==> bets[i].id == id && forall k | 0 <= k < i :: bets[k].id != id
    decreases |bets|
  {
    if bets == [] then -1
    else if bets[0].id == id then 0
    else
      var j := FindBet(bets[1..], id);
      if j == -1 then -1 else j + 1
  }

  /** The two collections. */
  class Store {
    var users: seq<User>
    var bets: seq<Bet>

    constructor (users0: seq<User>, bets0: seq<Bet>)
      ensures users == users0 && bets == bets0
    {
      users := users0;
      bets := bets0;
    }
  }
}
