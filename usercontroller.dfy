/**
 * The legacy user controller (controllers/userController.js): registration with
 * a duplicate check and a starting balance of 100, the login field check, and
 * deposits and withdrawals on `balance`. Failures carry their HTTP status.
 */
module UserController {
  import opened Common
  import opened LegacyDb

  const StartingBalance: real := 100.0

  /** Some user already has this email or this username (the `$or` query). */
  predicate Taken(users: seq<User>, username: string, email: string) {
    exists k | 0 <= k < |users| :: users[k].email == email || users[k].username == username
  }

  /**
   * The schema's checks on `User.create`: the trimmed username has 3 to 20
   * characters, the email matches the pattern (`emailMatches`), the password has
   * at least 6 characters, and the unique index on the stored username holds.
   */
  predicate SchemaAccepts(users: seq<User>, username: string, email: string, password: string, emailMatches: bool) {
    3 <= |Trim(username)| <= 20 && email != "" && emailMatches && |password| >= 6 &&
    forall k | 0 <= k < |users| :: users[k].username != Trim(username)
  }

  /** `registerUser`: the new user document, or the status of the refusal. */
  function RegisterOutcome(users: seq<User>, username: string, email: string, password: string, emailMatches: bool, newId: Id): (r: Result<User, int>)
    ensures r.Ok? <==> !Taken(users, username, email) && SchemaAccepts(users, username, email, password, emailMatches)
    ensures Taken(users, username, email) ==> r == Err(400)
    ensures r.Err? ==> r.error == 400 || r.error == 500
    ensures r.Ok? ==> r.value == User(newId, Trim(username), email, password, StartingBalance, Member, [])
  {
    if Taken(users, username, email) then Err(400)
    else if !SchemaAccepts(users, username, email, password, emailMatches) then Err(500)
    else Ok(User(newId, Trim(username), email, password, StartingBalance, Member, []))
  }

  /** Emails and usernames are each held by at most one user. */
  predicate UniqueAccounts(users: seq<User>) {
    forall i, j | 0 <= i < j < |users| :: users[i].email != users[j].email && users[i].username != users[j].username
  }

  lemma RegisterKeepsAccountsUnique(users: seq<User>, username: string, email: string, password: string, emailMatches: bool, newId: Id)
    requires UniqueAccounts(users)
    requires RegisterOutcome(users, username, email, password, emailMatches, newId).Ok?
    ensures UniqueAccounts(users + [RegisterOutcome(users, username, email, password, emailMatches, newId).value])
  {
    var u := RegisterOutcome(users, username, email, password, emailMatches, newId).value;
    var us := users + [u];
    forall i, j | 0 <= i < j < |us| ensures us[i].email != us[j].email && us[i].username != us[j].username {
      if j == |users| {
        assert us[i] == users[i];
        assert !(users[i].email == email || users[i].username == username);
      }
    }
  }

  /** `loginUser`: the index of the account, or 400 for a missing field and 401 for bad credentials. */
  function LoginOutcome(users: seq<User>, email: string, password: string): (r: Result<nat, int>)
    ensures email == "" || password == "" ==> r == Err(400)
    ensures r.Ok? ==> r.value < |users| && users[r.value].email == email && users[r.value].password == password
    ensures r.Ok? <==> (email != "" && password != "" && FindByEmail(users, email) >= 0 &&
      users[FindByEmail(users, email)].password == password)
    ensures r.Err? && email != "" && password != "" ==> r.error == 401
  {
    if email == "" || password == "" then Err(400)
    else
      var i := FindByEmail(users, email);
      if i == -1 then Err(401)
      else if users[i].password != password then Err(401)
      else Ok(i)
  }

  /** A freshly registered user can log in with the email and password given. */
  lemma RegisterThenLogin(users: seq<User>, username: string, email: string, password: string, emailMatches: bool, newId: Id)
    requires RegisterOutcome(users, username, email, password, emailMatches, newId).Ok?
    ensures LoginOutcome(users + [RegisterOutcome(users, username, email, password, emailMatches, newId).value], email, password) == Ok(|users|)
  {
    var u := RegisterOutcome(users, username, email, password, emailMatches, newId).value;
    var us := users + [u];
    forall k | 0 <= k < |users| ensures us[k].email != email {
      assert us[k] == users[k];
      assert !(users[k].email == email || users[k].username == username);
    }
    assert us[|users|].email == email;
  }

  /** The request check of `updateBalance` as written: any non-zero amount passes. */
  predicate BalanceRequestAsWritten(amount: Option<real>, kind: string): (ok: bool)
    ensures ok ==> kind == "deposit" || kind == "withdraw"
    ensures amount.Some? && amount.value < 0.0 && (kind == "deposit" || kind == "withdraw") ==> ok
  {
    amount.Some? && amount.value != 0.0 && (kind == "deposit" || kind == "withdraw")
  }

  /** The balance change of `updateBalance` as written, once the request check passed. */
  function ApplyAsWritten(balance: real, amount: real, kind: string): (r: Result<real, int>)
    ensures kind == "deposit" ==> r == Ok(balance + amount)
    ensures kind == "withdraw" ==> r == (if balance < amount then Err(400) else Ok(balance - amount))
  {
    if kind == "deposit" then Ok(balance + amount)
    else if kind == "withdraw" then (if balance < amount then Err(400) else Ok(balance - amount))
    else Ok(balance)
  }

  /** As written, a negative deposit passes the check and drives an empty balance below zero. */
  lemma NegativeDepositOverdraws()
    ensures BalanceRequestAsWritten(Some(-500.0), "deposit")
    ensures ApplyAsWritten(0.0, -500.0, "deposit") == Ok(-500.0)
  {
  }

  /** The request check with the amount required to be positive. */
  predicate BalanceRequest(amount: Option<real>, kind: string): (ok: bool)
    ensures ok <==> BalanceRequestAsWritten(amount, kind) && amount.value > 0.0
  {
    amount.Some? && amount.value > 0.0 && (kind == "deposit" || kind == "withdraw")
  }

  /**
   * `updateBalance` on the balance of the requesting user (`None` when there is
   * no such user): the new balance, or 400 for a bad request or too small a
   * balance, and 404 for a missing user.
   */
  function UpdateBalanceOutcome(balance: Option<real>, amount: Option<real>, kind: string): (r: Result<real, int>)
    ensures !BalanceRequest(amount, kind) ==> r == Err(400)
    ensures BalanceRequest(amount, kind) && balance.None? ==> r == Err(404)
    ensures r.Ok? ==> balance.Some? && BalanceRequest(amount, kind)
    ensures r.Ok? && kind == "deposit" ==> r.value == balance.value + amount.value
    ensures r.Ok? && kind == "withdraw" ==> r.value == balance.value - amount.value && balance.value >= amount.value
    ensures BalanceRequest(amount, kind) && balance.Some? && kind == "withdraw" && balance.value < amount.value ==> r == Err(400)
  {
    if !BalanceRequest(amount, kind) then Err(400)
    else if balance.None? then Err(404)
    else if kind == "deposit" then Ok(balance.value + amount.value)
    else if balance.value < amount.value then Err(400)
    else Ok(balance.value - amount.value)
  }

  /** A non-negative balance stays non-negative under every accepted request. */
  lemma BalanceStaysNonNegative(balance: real, amount: Option<real>, kind: string)
    requires balance >= 0.0
    requires UpdateBalanceOutcome(Some(balance), amount, kind).Ok?
    ensures UpdateBalanceOutcome(Some(balance), amount, kind).value >= 0.0
  {
  }

  /** From a non-negative balance, a withdrawal of what was just deposited restores the balance. */
  lemma DepositThenWithdraw(balance: real, amount: real)
    requires balance >= 0.0 && amount > 0.0
    ensures UpdateBalanceOutcome(Some(balance), Some(amount), "deposit") == Ok(balance + amount)
    ensures UpdateBalanceOutcome(Some(balance + amount), Some(amount), "withdraw") == Ok(balance)
  {
    assert "withdraw"[0] != "deposit"[0];
  }

  /** `registerUser` on the store; `newId` is the id the database assigns. */
  method RegisterUser(store: Store, username: string, email: string, password: string, emailMatches: bool, newId: Id) returns (status: int)
    modifies store
    ensures var r := RegisterOutcome(old(store.users), username, email, password, emailMatches, newId);
      (r.Ok? ==> status == 201 && store.users == old(store.users) + [r.value]) &&
      (r.Err? ==> status == r.error && store.users == old(store.users))
    ensures store.bets == old(store.bets)
  {
    if Taken(store.users, username, email) {
      return 400;
    }
    if !SchemaAccepts(store.users, username, email, password, emailMatches) {
      return 500;
    }
    var user := User(newId, Trim(username), email, password, StartingBalance, Member, []);
    store.users := store.users + [user];
    return 201;
  }

  /** `updateBalance` on the store for the requesting user `userId`. */
  method UpdateBalance(store: Store, userId: Id, amount: Option<real>, kind: string) returns (status: int)
    modifies store
    ensures var i := FindUser(old(store.users), userId);
      var r := UpdateBalanceOutcome(if i >= 0 then Some(old(store.users)[i].balance) else None, amount, kind);
      (r.Ok? ==> status == 200 && store.users == old(store.users)[i := old(store.users)[i].(balance := r.value)]) &&
      (r.Err? ==> status == r.error && store.users == old(store.users))
    ensures store.bets == old(store.bets)
  {
    if !BalanceRequest(amount, kind) {
      return 400;
    }
    var i := FindUser(store.users, userId);
    if i == -1 {
      return 404;
    }
    var user := store.users[i];
    if kind == "deposit" {
      user := user.(balance := user.balance + amount.value);
    } else {
      if user.balance < amount.value {
        return 400;
      }
      user := user.(balance := user.balance - amount.value);
    }
    store.users := store.users[i := user];
    return 200;
  }
}
