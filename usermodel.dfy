/**
 * The server's user document (server/models/User.js): the schema's defaults
 * and length limits, and the two GoCoin methods that change `goCoins` in place.
 */
module UserModel {
  import opened Common

  /** New users start with 1000 GoCoins. */
  const DefaultGoCoins: int := 1000
  const DefaultAvatar: string := "default-avatar.png"

  datatype Role = Member | Admin

  /** Why the schema refuses a new document. */
  datatype ValidationError = UsernameLength | InvalidEmail | PasswordTooShort

  /**
   * The schema's checks, in field order: the trimmed username has 3 to 20
   * characters, the email matches the pattern (`emailMatches`), the password
   * has at least 6 characters.
   */
  function Validate(username: string, password: string, emailMatches: bool): (r: Option<ValidationError>)
    ensures r.None? <==> 3 <= |Trim(username)| <= 20 && emailMatches && |password| >= 6
    ensures !(3 <= |Trim(username)| <= 20) ==> r == Some(UsernameLength)
    ensures 3 <= |Trim(username)| <= 20 && emailMatches && |password| < 6 ==> r == Some(PasswordTooShort)
  {
    if !(3 <= |Trim(username)| <= 20) then Some(UsernameLength)
    else if !emailMatches then Some(InvalidEmail)
    else if |password| < 6 then Some(PasswordTooShort)
    else None
  }

  /** `subtractGoCoins` as a function: `None` where the method throws. */
  function Subtract(goCoins: int, amount: int): (r: Option<int>)
    ensures r.None? <==> goCoins < amount
    ensures r.Some? ==> r.value == goCoins - amount && r.value >= 0
  {
    if goCoins < amount then None else Some(goCoins - amount)
  }

  /** From a non-negative balance, whatever was just added can be taken back, restoring the balance. */
  lemma AddThenSubtract(goCoins: int, amount: int)
    requires goCoins >= 0
    ensures Subtract(goCoins + amount, amount) == Some(goCoins)
  {
  }

  /** The balance after a run of `subtractGoCoins` calls, the refused ones changing nothing. */
  function SubtractAll(goCoins: int, amounts: seq<int>): (r: int)
    ensures (forall k | 0 <= k < |amounts| :: amounts[k] >= 0) ==> r <= goCoins
    decreases |amounts|
  {
    if amounts == [] then goCoins
    else
      match Subtract(goCoins, amounts[0])
      case None => SubtractAll(goCoins, amounts[1..])
      case Some(c) => SubtractAll(c, amounts[1..])
  }

  /** A run of subtractions never takes a non-negative balance below zero. */
  lemma {:induction false} SubtractAllNonNegative(goCoins: int, amounts: seq<int>)
    requires goCoins >= 0
    ensures SubtractAll(goCoins, amounts) >= 0
    decreases |amounts|
  {
    if amounts != [] {
      match Subtract(goCoins, amounts[0])
      case None => SubtractAllNonNegative(goCoins, amounts[1..]);
      case Some(c) => SubtractAllNonNegative(c, amounts[1..]);
    }
  }

  /** The fields of a user document this model follows. */
  class UserDocument {
    var username: string
    var email: string
    var avatar: string
    var goCoins: int
    var role: Role
    var friends: seq<string>

    /** A document that passed `Validate`, with the schema's defaults. */
    constructor (username0: string, email0: string)
      ensures username == Trim(username0) && email == email0
      ensures avatar == DefaultAvatar && goCoins == DefaultGoCoins && role == Member && friends == []
    {
      username := Trim(username0);
      email := email0;
      avatar := DefaultAvatar;
      goCoins := DefaultGoCoins;
      role := Member;
      friends := [];
    }

    /** `addGoCoins`: no guard on the amount. */
    method AddGoCoins(amount: int)
      modifies this`goCoins
      ensures goCoins == old(goCoins) + amount
    {
      goCoins := goCoins + amount;
    }

    /** `subtractGoCoins`: `failed` where the method throws, and then nothing changes. */
    method SubtractGoCoins(amount: int) returns (failed: bool)
      modifies this`goCoins
      ensures failed <==> Subtract(old(goCoins), amount).None?
      ensures failed ==> goCoins == old(goCoins)
      ensures !failed ==> goCoins == Subtract(old(goCoins), amount).value
    {
      if goCoins < amount {
        return true;
      }
      goCoins := goCoins - amount;
      return false;
    }
  }
}
