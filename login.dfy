/**
 * The login page script (public/js/login.js): the password-strength scorer,
 * the registration and login forms over the `gobet_registered_users` list,
 * the default statistics record and the win/loss counter update.
 */
module Login {
  import opened Common
  import opened JsStats
  import Cookies

  /* ---------------------------------------------------------------------- */
  /* Password strength                                                      */
  /* ---------------------------------------------------------------------- */

  predicate IsUpper(c: char) { 'A' <= c <= 'Z' }
  predicate IsLower(c: char) { 'a' <= c <= 'z' }
  predicate IsDigit(c: char) { '0' <= c <= '9' }
  /** `/[^A-Za-z0-9]/` */
  predicate IsSpecial(c: char) { !IsUpper(c) && !IsLower(c) && !IsDigit(c) }

  predicate HasUpper(s: string) { exists i | 0 <= i < |s| :: IsUpper(s[i]) }
  predicate HasLower(s: string) { exists i | 0 <= i < |s| :: IsLower(s[i]) }
  predicate HasDigit(s: string) { exists i | 0 <= i < |s| :: IsDigit(s[i]) }
  predicate HasSpecial(s: string) { exists i | 0 <= i < |s| :: IsSpecial(s[i]) }

  /** `new Set(password).size` */
  function DistinctChars(s: string): nat {
    |set i | 0 <= i < |s| :: s[i]|
  }

  /** The length part of the score. */
  function LengthPoints(n: nat): int {
    if n >= 8 then 25 else if n >= 6 then 10 else 0
  }

  /** Length earns 0, 10 or 25 points, stepping up at 6 and at 8 characters; a longer password never earns fewer. */
  lemma LengthPointsSteps(n: nat, m: nat)
    ensures LengthPoints(n) == 25 <==> n >= 8
    ensures LengthPoints(n) == 10 <==> 6 <= n < 8
    ensures LengthPoints(n) == 0 <==> n < 6
    ensures n <= m ==> LengthPoints(n) <= LengthPoints(m)
  {
  }

  function Min(a: int, b: int): int {
    if a <= b then a else b
  }

  /** The score of a non-empty password: length, four character classes and variety. */
  function Score(s: string): (score: int)
    ensures 0 <= score <= 100
    ensures score >= LengthPoints(|s|)
    ensures score <= LengthPoints(|s|) + (if HasUpper(s) then 15 else 0) + (if HasLower(s) then 10 else 0) +
      (if HasDigit(s) then 15 else 0) + (if HasSpecial(s) then 20 else 0) + 15
  {
    LengthPoints(|s|) +
    (if HasUpper(s) then 15 else 0) +
    (if HasLower(s) then 10 else 0) +
    (if HasDigit(s) then 15 else 0) +
    (if HasSpecial(s) then 20 else 0) +
    Min(15, DistinctChars(s) * 2)
  }

  /** The five bands of the label, weakest first. */
  function Band(score: int): (b: nat)
    ensures b <= 4
    ensures b == 4 <==> score >= 80
    ensures b == 3 <==> 60 <= score < 80
    ensures b == 2 <==> 40 <= score < 60
    ensures b == 1 <==> 20 <= score < 40
    ensures b == 0 <==> score < 20
  {
    if score >= 80 then 4 else if score >= 60 then 3 else if score >= 40 then 2 else if score >= 20 then 1 else 0
  }

  const BandLabels: seq<string> := ["Mycket svagt", "Svagt", "Medium", "Starkt", "Mycket starkt"]

  /** A higher score never gets a weaker label. */
  lemma BandMonotone(a: int, b: int)
    requires a <= b
    ensures Band(a) <= Band(b)
  {
  }

  datatype Strength = Strength(percent: int, labelText: string)

  /** `calculatePasswordStrength(password)`; the colour is not modelled. */
  function PasswordStrength(s: string): (r: Strength)
    ensures s == "" ==> r == Strength(0, "Inget lösenord")
    ensures s != "" ==> r.percent == Min(100, Score(s)) && r.labelText == BandLabels[Band(Score(s))]
    ensures 0 <= r.percent <= 100
  {
    if s == "" then Strength(0, "Inget lösenord")
    else
      var score := Score(s);
      Strength(Min(100, score), BandLabels[Band(score)])
  }

  /** The cap at 100 never bites: the largest possible score is exactly 100. */
  lemma PercentIsScore(s: string)
    requires s != ""
    ensures PasswordStrength(s).percent == Score(s)
  {
  }

  /** Eight or more distinct characters from all four classes give full marks. */
  lemma FullMarks(s: string)
    requires |s| >= 8 && HasUpper(s) && HasLower(s) && HasDigit(s) && HasSpecial(s)
    requires DistinctChars(s) >= 8
    ensures PasswordStrength(s) == Strength(100, "Mycket starkt")
  {
  }

  /** A short all-lowercase password scores below 40, so registration asks for confirmation. */
  lemma ShortLowercaseIsWeak(s: string)
    requires 0 < |s| < 6 && forall i | 0 <= i < |s| :: IsLower(s[i])
    ensures PasswordStrength(s).percent < 40
    ensures PasswordStrength(s).labelText in {"Mycket svagt", "Svagt"}
  {
    assert !HasUpper(s) && !HasDigit(s) && !HasSpecial(s);
  }

  /* ---------------------------------------------------------------------- */
  /* Accounts                                                               */
  /* ---------------------------------------------------------------------- */

  /** The `userData` object; an empty string stands for a missing or empty property. */
  datatype UserData = UserData(
    firstName: string, lastName: string, username: string, email: string, phone: string,
    avatar: string, displayName: string, joinDate: string, bio: string)

  /** One entry of `gobet_registered_users`. */
  datatype Account = Account(email: string, password: string, userData: UserData)

  /** The registration form as typed; names and e-mail are trimmed, passwords are not. */
  datatype RegisterForm = RegisterForm(
    firstName: string, lastName: string, username: string, email: string, phone: string,
    password: string, confirmPassword: string, termsAgreement: bool)

  datatype RegisterError =
    MissingFields | PasswordMismatch | TermsNotAccepted | InvalidEmail | EmailTaken | UsernameTaken | WeakPasswordDeclined

  predicate EmailTakenIn(users: seq<Account>, email: string) {
    exists i | 0 <= i < |users| :: users[i].email == email
  }

  predicate UsernameTakenIn(users: seq<Account>, username: string) {
    exists i | 0 <= i < |users| :: users[i].userData.username == username
  }

  /**
   * The checks of the registration handler, in order. `emailMatches` is the
   * result of the e-mail pattern test on the trimmed address and
   * `acceptWeak` the user's answer to the weak-password question.
   */
  function RegisterCheck(f: RegisterForm, users: seq<Account>, emailMatches: bool, acceptWeak: bool): (r: Option<RegisterError>)
    ensures r.None? <==>
      Trim(f.firstName) != "" && Trim(f.lastName) != "" && Trim(f.username) != "" && Trim(f.email) != "" &&
      f.password != "" && f.confirmPassword != "" && f.password == f.confirmPassword &&
      f.termsAgreement && emailMatches &&
      !EmailTakenIn(users, Trim(f.email)) && !UsernameTakenIn(users, Trim(f.username)) &&
      (PasswordStrength(f.password).percent >= 40 || acceptWeak)
    ensures r == Some(EmailTaken) ==> EmailTakenIn(users, Trim(f.email))
    ensures r == Some(UsernameTaken) ==> UsernameTakenIn(users, Trim(f.username)) && !EmailTakenIn(users, Trim(f.email))
    ensures r == Some(PasswordMismatch) ==> f.password != f.confirmPassword
  {
    if Trim(f.firstName) == "" || Trim(f.lastName) == "" || Trim(f.username) == "" || Trim(f.email) == "" ||
       f.password == "" || f.confirmPassword == "" then Some(MissingFields)
    else if f.password != f.confirmPassword then Some(PasswordMismatch)
    else if !f.termsAgreement then Some(TermsNotAccepted)
    else if !emailMatches then Some(InvalidEmail)
    else if EmailTakenIn(users, Trim(f.email)) then Some(EmailTaken)
    else if UsernameTakenIn(users, Trim(f.username)) then Some(UsernameTaken)
    else if PasswordStrength(f.password).percent < 40 && !acceptWeak then Some(WeakPasswordDeclined)
    else None
  }

  /** The record a successful registration appends. */
  function NewAccount(f: RegisterForm, joinDate: string): (a: Account)
    ensures a.email == Trim(f.email) && a.userData.email == Trim(f.email)
    ensures a.password == f.password && a.userData.username == Trim(f.username)
    ensures a.userData.displayName == Trim(f.firstName) + " " + Trim(f.lastName)
  {
    var first := Trim(f.firstName);
    var last := Trim(f.lastName);
    var email := Trim(f.email);
    Account(email, f.password, UserData(first, last, Trim(f.username), email, Trim(f.phone),
      "img/avatar.svg", first + " " + last, joinDate, "Hej! Jag är en ny GoBet-användare."))
  }

  /** No two accounts share an e-mail address or a username. */
  predicate UniqueAccounts(users: seq<Account>) {
    forall i, j | 0 <= i < j < |users| ::
      users[i].email != users[j].email && users[i].userData.username != users[j].userData.username
  }

  /** A registration that passes the checks keeps e-mails and usernames unique. */
  lemma RegisterKeepsAccountsUnique(f: RegisterForm, users: seq<Account>, emailMatches: bool, acceptWeak: bool, joinDate: string)
    requires UniqueAccounts(users)
    requires RegisterCheck(f, users, emailMatches, acceptWeak).None?
    ensures UniqueAccounts(users + [NewAccount(f, joinDate)])
  {
    var a := NewAccount(f, joinDate);
    var us := users + [a];
    forall i, j | 0 <= i < j < |us|
      ensures us[i].email != us[j].email && us[i].userData.username != us[j].userData.username
    {
      if j == |users| {
        assert us[i] == users[i];
      }
    }
  }

  /** `registeredUsers.find(u => u.email === key || u.userData.username === key)` as an index. */
  function FindAccount(users: seq<Account>, key: string): (r: Option<nat>)
    ensures r.Some? ==> (r.value < |users| &&
      (users[r.value].email == key || users[r.value].userData.username == key) &&
      forall j | 0 <= j < r.value :: users[j].email != key && users[j].userData.username != key)
    ensures r.None? ==> forall j | 0 <= j < |users| :: users[j].email != key && users[j].userData.username != key
    decreases |users|
  {
    if users == [] then None
    else if users[0].email == key || users[0].userData.username == key then Some(0)
    else
      match FindAccount(users[1..], key)
      case None => None
      case Some(k) => Some(k + 1)
  }

  /** The answer of the registration handler: the first failed check, or the new account. */
  function RegisterOutcome(f: RegisterForm, users: seq<Account>, emailMatches: bool, acceptWeak: bool, joinDate: string)
    : (r: Result<Account, RegisterError>)
    ensures r.Ok? <==> RegisterCheck(f, users, emailMatches, acceptWeak).None?
    ensures r.Ok? ==> r.value == NewAccount(f, joinDate)
    ensures r.Err? ==> Some(r.error) == RegisterCheck(f, users, emailMatches, acceptWeak)
  {
    match RegisterCheck(f, users, emailMatches, acceptWeak)
    case Some(e) => Err(e)
    case None => Ok(NewAccount(f, joinDate))
  }

  /** An account appended after accounts that do not match the key is found at the end. */
  lemma {:induction false} FindAppended(users: seq<Account>, a: Account, key: string)
    requires a.email == key
    requires forall j | 0 <= j < |users| :: users[j].email != key && users[j].userData.username != key
    ensures FindAccount(users + [a], key) == Some(|users|)
    decreases |users|
  {
    var us := users + [a];
    if users == [] {
      assert us[0] == a;
    } else {
      assert us[0] == users[0];
      assert us[1..] == users[1..] + [a];
      FindAppended(users[1..], a, key);
    }
  }

  /**
   * After a registration, logging in with the same e-mail finds the new
   * account, unless an older account uses that e-mail as its username.
   */
  lemma RegisterThenFind(f: RegisterForm, users: seq<Account>, emailMatches: bool, acceptWeak: bool, joinDate: string)
    requires RegisterCheck(f, users, emailMatches, acceptWeak).None?
    requires forall j | 0 <= j < |users| :: users[j].userData.username != Trim(f.email)
    ensures FindAccount(users + [NewAccount(f, joinDate)], Trim(f.email)) == Some(|users|)
  {
    assert !EmailTakenIn(users, Trim(f.email));
    FindAppended(users, NewAccount(f, joinDate), Trim(f.email));
  }

  /**
   * The answer of the login form: look the trimmed input up as e-mail or
   * username, then compare passwords; the user record is normalised.
   */
  function LoginOutcome(users: seq<Account>, emailInput: string, password: string): (r: Result<UserData, LoginError>)
    ensures var key := Trim(emailInput); var found := FindAccount(users, key);
      (key == "" || password == "" ==> r == Err(LoginMissingFields)) &&
      (key != "" && password != "" && found.None? ==> r == Err(NoSuchUser)) &&
      (key != "" && password != "" && found.Some? && users[found.value].password != password ==>
        r == Err(WrongPassword)) &&
      (r.Ok? <==> key != "" && password != "" && found.Some? && users[found.value].password == password) &&
      (r.Ok? ==> r.value == Normalize(users[found.value].userData))
  {
    var key := Trim(emailInput);
    if key == "" || password == "" then Err(LoginMissingFields)
    else
      match FindAccount(users, key)
      case None => Err(NoSuchUser)
      case Some(i) =>
        if users[i].password != password then Err(WrongPassword)
        else Ok(Normalize(users[i].userData))
  }

  /** What logging in does to older records: fill in a display name and replace an external avatar. */
  function Normalize(u: UserData): (r: UserData)
    ensures r.displayName != "" || (u.displayName == "" && u.username == "" && (u.firstName == "" || u.lastName == ""))
    ensures u.displayName != "" ==> r.displayName == u.displayName
    ensures u.displayName == "" && u.firstName != "" && u.lastName != "" ==>
      r.displayName == u.firstName + " " + u.lastName
    ensures u.displayName == "" && (u.firstName == "" || u.lastName == "") ==> r.displayName == u.username
    ensures r.(displayName := u.displayName, avatar := u.avatar) == u
    ensures Contains(u.avatar, "ui-avatars.com") ==> r.avatar == "img/avatar.svg"
    ensures !Contains(u.avatar, "ui-avatars.com") ==> r.avatar == u.avatar
  {
    var name :=
      if u.displayName != "" then u.displayName
      else if u.firstName != "" && u.lastName != "" then u.firstName + " " + u.lastName
      else u.username;
    var avatar := if u.avatar != "" && Contains(u.avatar, "ui-avatars.com") then "img/avatar.svg" else u.avatar;
    u.(displayName := name, avatar := avatar)
  }

  /** Logging in a second time changes nothing more. */
  lemma NormalizeIdempotent(u: UserData)
    ensures Normalize(Normalize(u)) == Normalize(u)
  {
    ContainsSameLength("img/avatar.svg", "ui-avatars.com");
    assert "img/avatar.svg"[0] != "ui-avatars.com"[0];
  }

  datatype LoginError = LoginMissingFields | NoSuchUser | WrongPassword

  /* ---------------------------------------------------------------------- */
  /* Statistics                                                             */
  /* ---------------------------------------------------------------------- */

  /** The record `initializeUserStats` writes (its `favoriteGames` list is not modelled). */
  const InitialStats := StatsRecord(Num(0), Num(0), Num(0), Num(0), Num(0), Num(0), Num(0))

  /** `initializeUserStats()`: defaults only when nothing is stored. */
  function InitializeStats(stored: Option<StatsRecord>): (r: Option<StatsRecord>)
    ensures r.Some?
    ensures stored.Some? ==> r == stored
    ensures stored.None? ==> r == Some(InitialStats)
  {
    if stored.None? then Some(InitialStats) else stored
  }

  /** Initialising twice is the same as initialising once. */
  lemma InitializeIdempotent(stored: Option<StatsRecord>)
    ensures InitializeStats(InitializeStats(stored)) == InitializeStats(stored)
  {
  }

  /** `JSON.parse(localStorage.getItem('gobet_user_stats') || '{}')` */
  function Parsed(stored: Option<StatsRecord>): StatsRecord {
    stored.GetOr(EmptyStats)
  }

  /** The recomputation of `winPercentage` after a counter changed. */
  function WithPercentage(s: StatsRecord): (r: StatsRecord)
    ensures r.(winPercentage := s.winPercentage) == s
    ensures var total := Add(s.betsWon, s.betsLost);
      (total.Num? && total.n > 0 ==> r.winPercentage == Num(RoundPercent(OrZero(s.betsWon), total.n))) &&
      (!(total.Num? && total.n > 0) ==> r.winPercentage == s.winPercentage)
  {
    var total := Add(s.betsWon, s.betsLost);
    if total.Num? && total.n > 0 then s.(winPercentage := Num(RoundPercent(OrZero(s.betsWon), total.n))) else s
  }

  /** `w` is what JSON keeps of `v`: null for NaN, `v` itself otherwise. */
  predicate KeptAs(v: JsNum, w: JsNum) {
    if v.NaN? then w == Null else w == v
  }

  /**
   * Writing the record back as JSON: every NaN field becomes null and every
   * other field is kept, so the written record holds no NaN and writing it
   * again changes nothing.
   */
  function StoredRecord(s: StatsRecord): (r: StatsRecord)
    ensures KeptAs(s.betsCreated, r.betsCreated) && KeptAs(s.betsJoined, r.betsJoined)
    ensures KeptAs(s.betsWon, r.betsWon) && KeptAs(s.betsLost, r.betsLost)
    ensures KeptAs(s.totalWinnings, r.totalWinnings) && KeptAs(s.winPercentage, r.winPercentage)
    ensures KeptAs(s.friends, r.friends)
    ensures !r.betsCreated.NaN? && !r.betsJoined.NaN? && !r.betsWon.NaN? && !r.betsLost.NaN?
    ensures !r.totalWinnings.NaN? && !r.winPercentage.NaN? && !r.friends.NaN?
  {
    StatsRecord(Stored(s.betsCreated), Stored(s.betsJoined), Stored(s.betsWon), Stored(s.betsLost),
      Stored(s.totalWinnings), Stored(s.winPercentage), Stored(s.friends))
  }

  /** A record read back from storage and written again is unchanged. */
  lemma StoredRecordIdempotent(s: StatsRecord)
    ensures StoredRecord(StoredRecord(s)) == StoredRecord(s)
  {
  }

  /**
   * `updateUserStats(result, amount)` exactly as the script does it:
   * `stats.betsWon += 1` on a record without `betsWon` computes NaN.
   */
  function UpdateStatsAsWritten(stored: Option<StatsRecord>, result: string, amount: int): (r: StatsRecord)
    ensures result == "win" ==> r.betsWon == Stored(Add(Parsed(stored).betsWon, Num(1)))
    ensures result == "loss" ==> r.betsLost == Stored(Add(Parsed(stored).betsLost, Num(1)))
  {
    var s := Parsed(stored);
    var s1 :=
      if result == "win" then s.(betsWon := Add(s.betsWon, Num(1)), totalWinnings := Add(s.totalWinnings, Num(amount)))
      else if result == "loss" then s.(betsLost := Add(s.betsLost, Num(1)))
      else s;
    StoredRecord(WithPercentage(s1))
  }

  /** With no stored record the first win is lost: `betsWon` is written as null. */
  lemma FirstWinIsLost(amount: int)
    ensures UpdateStatsAsWritten(None, "win", amount).betsWon == Null
    ensures OrZero(UpdateStatsAsWritten(None, "win", amount).betsWon) == 0
  {
  }

  /**
   * The evident intent, as the bet page's own counter update does it:
   * a missing counter counts as 0.
   */
  function UpdateStats(stored: Option<StatsRecord>, result: string, amount: int): (r: StatsRecord)
    ensures var s := Parsed(stored);
      (result == "win" ==> r.betsWon == Num(OrZero(s.betsWon) + 1) && r.totalWinnings == Num(OrZero(s.totalWinnings) + amount)) &&
      (result == "loss" ==> r.betsLost == Num(OrZero(s.betsLost) + 1)) &&
      (result != "win" ==> r.betsWon == Stored(s.betsWon)) &&
      (result != "loss" ==> r.betsLost == Stored(s.betsLost))
    ensures (result == "win" || result == "loss") && NonNegative(Parsed(stored)) ==>
      r.winPercentage.Num? && 0 <= r.winPercentage.n <= 100
  {
    var s := Parsed(stored);
    var s1 :=
      if result == "win" then s.(betsWon := Num(OrZero(s.betsWon) + 1), totalWinnings := Num(OrZero(s.totalWinnings) + amount))
      else if result == "loss" then s.(betsLost := Num(OrZero(s.betsLost) + 1))
      else s;
    var total := OrZero(s1.betsWon) + OrZero(s1.betsLost);
    var s2 := if total > 0 then s1.(winPercentage := Num(RoundPercent(OrZero(s1.betsWon), total))) else s1;
    StoredRecord(s2)
  }

  /** Every win and every loss is counted, whatever the stored record held. */
  lemma {:induction false} UpdatesCount(stored: Option<StatsRecord>, results: seq<string>)
    requires forall k | 0 <= k < |results| :: results[k] in {"win", "loss"}
    ensures var r := ApplyResults(stored, results);
      OrZero(r.betsWon) == OrZero(Parsed(stored).betsWon) + Occurrences(results, "win") &&
      OrZero(r.betsLost) == OrZero(Parsed(stored).betsLost) + Occurrences(results, "loss")
    decreases |results|
  {
    if |results| > 0 {
      var last := results[|results| - 1];
      var init := results[..|results| - 1];
      UpdatesCount(stored, init);
      assert init + [last] == results;
      OccurrencesAppend(init, last, "win");
      OccurrencesAppend(init, last, "loss");
    }
  }

  /** The record after the results are reported in order (amounts of 0). */
  function ApplyResults(stored: Option<StatsRecord>, results: seq<string>): StatsRecord
    decreases |results|
  {
    if results == [] then Parsed(stored)
    else UpdateStats(Some(ApplyResults(stored, results[..|results| - 1])), results[|results| - 1], 0)
  }

  function Occurrences(xs: seq<string>, x: string): nat
    decreases |xs|
  {
    if xs == [] then 0 else Occurrences(xs[..|xs| - 1], x) + (if xs[|xs| - 1] == x then 1 else 0)
  }

  lemma OccurrencesAppend(xs: seq<string>, y: string, x: string)
    ensures Occurrences(xs + [y], x) == Occurrences(xs, x) + (if y == x then 1 else 0)
  {
    assert (xs + [y])[..|xs|] == xs;
  }

  /* ---------------------------------------------------------------------- */
  /* Storage                                                                */
  /* ---------------------------------------------------------------------- */

  /** The storage keys and the cookie the login page writes. */
  class LoginStorage {
    /** `gobet_registered_users` */
    var registeredUsers: seq<Account>
    /** `gobet_logged_in` */
    var loggedIn: bool
    /** `gobet_user` */
    var currentUser: Option<UserData>
    /** `gobet_user_coins` */
    var coins: Option<int>
    /** `gobet_user_stats` */
    var stats: Option<StatsRecord>
    /** `gobet_cookie_preferences` */
    var cookiePreferences: Option<Cookies.Preferences>
    /** The browser's cookie jar. */
    var jar: seq<Cookies.Cookie>

    constructor (users: seq<Account>, stats: Option<StatsRecord>, jar: seq<Cookies.Cookie>)
      ensures registeredUsers == users && this.stats == stats && this.jar == jar
      ensures !loggedIn && currentUser == None && coins == None && cookiePreferences == None
    {
      registeredUsers := users;
      loggedIn := false;
      currentUser := None;
      coins := None;
      this.stats := stats;
      cookiePreferences := None;
      this.jar := jar;
    }

    /** `acceptNecessaryCookies()` of the login page: necessary-only preferences and consent cookie. */
    method AcceptNecessaryCookies()
      modifies this`cookiePreferences, this`jar
      ensures cookiePreferences == Some(Cookies.NecessaryOnly)
      ensures jar == Cookies.SetCookie(old(jar), Cookies.ConsentCookie, "necessary")
    {
      cookiePreferences := Some(Cookies.NecessaryOnly);
      jar := Cookies.SetCookie(jar, Cookies.ConsentCookie, "necessary");
    }

    /** `initializeUserStats()` */
    method InitializeUserStats()
      modifies this`stats
      ensures stats == InitializeStats(old(stats))
    {
      if stats.None? {
        stats := Some(InitialStats);
      }
    }

    /** `updateUserStats(result, amount)`, with a missing counter read as 0 (see UpdateStatsAsWritten). */
    method UpdateUserStats(result: string, amount: int)
      modifies this`stats
      ensures stats == Some(UpdateStats(old(stats), result, amount))
    {
      stats := Some(UpdateStats(stats, result, amount));
    }

    /** The registration form handler; a rejected form writes nothing. */
    method Register(f: RegisterForm, emailMatches: bool, acceptWeak: bool, joinDate: string)
      returns (r: Result<Account, RegisterError>)
      modifies this
      ensures r == RegisterOutcome(f, old(registeredUsers), emailMatches, acceptWeak, joinDate)
      ensures r.Err? ==> (registeredUsers == old(registeredUsers) && loggedIn == old(loggedIn) &&
        currentUser == old(currentUser) && coins == old(coins) && stats == old(stats) &&
        cookiePreferences == old(cookiePreferences) && jar == old(jar))
      ensures r.Ok? ==> (registeredUsers == old(registeredUsers) + [r.value] &&
        loggedIn && currentUser == Some(r.value.userData) && coins == Some(5000) &&
        stats == InitializeStats(old(stats)) && cookiePreferences == Some(Cookies.NecessaryOnly) &&
        jar == Cookies.SetCookie(old(jar), Cookies.ConsentCookie, "necessary"))
    {
      r := RegisterOutcome(f, registeredUsers, emailMatches, acceptWeak, joinDate);
      if r.Ok? {
        StoreNewAccount(r.value);
      }
    }

    /** The writes of a successful registration: the account, the session, 5000 coins, stats and consent. */
    method StoreNewAccount(account: Account)
      modifies this
      ensures registeredUsers == old(registeredUsers) + [account]
      ensures loggedIn && currentUser == Some(account.userData) && coins == Some(5000)
      ensures stats == InitializeStats(old(stats)) && cookiePreferences == Some(Cookies.NecessaryOnly)
      ensures jar == Cookies.SetCookie(old(jar), Cookies.ConsentCookie, "necessary")
    {
      registeredUsers := registeredUsers + [account];
      loggedIn := true;
      currentUser := Some(account.userData);
      coins := Some(5000);
      InitializeUserStats();
      AcceptNecessaryCookies();
    }

    /** The login form handler: on success the session is opened and necessary-only consent is saved. */
    method LogIn(emailInput: string, password: string) returns (r: Result<UserData, LoginError>)
      modifies this`loggedIn, this`currentUser, this`cookiePreferences, this`jar
      ensures r == LoginOutcome(registeredUsers, emailInput, password)
      ensures r.Err? ==> (loggedIn == old(loggedIn) && currentUser == old(currentUser) &&
        cookiePreferences == old(cookiePreferences) && jar == old(jar))
      ensures r.Ok? ==> (loggedIn && currentUser == Some(r.value) &&
        cookiePreferences == Some(Cookies.NecessaryOnly) &&
        jar == Cookies.SetCookie(old(jar), Cookies.ConsentCookie, "necessary"))
    {
      r := LoginOutcome(registeredUsers, emailInput, password);
      if r.Ok? {
        loggedIn := true;
        currentUser := Some(r.value);
        AcceptNecessaryCookies();
      }
    }
  }

  /**
   * The jar after the login page's own consent write is the jar the cookie
   * manager's necessary-only choice gives, and reading it back yields the
   * necessary-only preferences.
   */
  lemma LoginConsentMatchesManager(jar: seq<Cookies.Cookie>)
    ensures Cookies.SetCookie(jar, Cookies.ConsentCookie, "necessary") ==
      Cookies.SetCookie(jar, Cookies.ConsentCookie, Cookies.ConsentString(Cookies.NecessaryOnly))
    ensures Cookies.DecodeConsent("necessary") == Cookies.NecessaryOnly
  {
    Cookies.NecessaryOnlyString();
    Cookies.ConsentRoundTrip(Cookies.NecessaryOnly);
  }
}
