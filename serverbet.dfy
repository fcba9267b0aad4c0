/**
 * The server's bet document (server/models/Bet.js): the schema's limits and
 * defaults, and its three query methods `calculateTotalPrize`,
 * `isParticipant` and `isOpen`. The clock is a parameter.
 */
module ServerBet {
  import opened Common

  datatype BetStatus = Open | Locked | Completed | Cancelled

  datatype Participant = Participant(user: string, joinedAt: int, prediction: Option<string>)

  datatype BetOption = BetOption(name: string, odds: real)

  datatype ItemStack = ItemStack(itemId: string, quantity: int)

  datatype Prize = Prize(goCoins: int, items: seq<ItemStack>)

  datatype BetDoc = BetDoc(
    title: string, description: string, status: BetStatus,
    maxParticipants: Option<int>, participants: seq<Participant>,
    expiresAt: int, prize: Prize, options: seq<BetOption>)

  const MaxTitle: nat := 100
  const MaxDescription: nat := 1000

  datatype ValidationError = TitleMissing | TitleTooLong | DescriptionMissing | DescriptionTooLong

  /** The schema's checks on title (trimmed, required, at most 100) and description (required, at most 1000). */
  function Validate(title: string, description: string): (r: Option<ValidationError>)
    ensures r.None? <==> 0 < |Trim(title)| <= MaxTitle && 0 < |description| <= MaxDescription
    ensures |Trim(title)| > MaxTitle ==> r == Some(TitleTooLong)
  {
    if Trim(title) == "" then Some(TitleMissing)
    else if |Trim(title)| > MaxTitle then Some(TitleTooLong)
    else if description == "" then Some(DescriptionMissing)
    else if |description| > MaxDescription then Some(DescriptionTooLong)
    else None
  }

  /** An option as stored: odds default to 1.0 when none are given. */
  function MakeOption(name: string, odds: Option<real>): BetOption {
    BetOption(name, if odds.Some? then odds.value else 1.0)
  }

  /**
   * Given odds are kept and missing ones become 1.0; saving a stored option
   * again, with its odds given, changes nothing.
   */
  lemma OptionDefaults(name: string, odds: Option<real>)
    ensures MakeOption(name, odds).name == name
    ensures odds.Some? ==> MakeOption(name, odds).odds == odds.value
    ensures odds.None? ==> MakeOption(name, odds).odds == 1.0
    ensures var o := MakeOption(name, odds); MakeOption(o.name, Some(o.odds)) == o
  {
  }

  /** `calculateTotalPrize`: the GoCoin prize; items are not valued. */
  function CalculateTotalPrize(b: BetDoc): int {
    b.prize.goCoins
  }

  /** The total prize is the GoCoin amount, so two bets with the same GoCoin prize total the same. */
  lemma TotalPrizeIsCoins(b: BetDoc, c: BetDoc)
    ensures CalculateTotalPrize(b) == b.prize.goCoins
    ensures b.prize.goCoins == c.prize.goCoins ==> CalculateTotalPrize(b) == CalculateTotalPrize(c)
  {
  }

  /** Adding or removing prize items never changes the total prize. */
  lemma TotalPrizeIgnoresItems(b: BetDoc, items: seq<ItemStack>)
    ensures CalculateTotalPrize(b.(prize := b.prize.(items := items))) == CalculateTotalPrize(b)
  {
  }

  /** `participants.some(p => p.user === userId)` */
  function AnyParticipant(ps: seq<Participant>, userId: string): (found: bool)
    ensures found <==> exists k | 0 <= k < |ps| :: ps[k].user == userId
    decreases |ps|
  {
    if ps == [] then false
    else ps[0].user == userId || AnyParticipant(ps[1..], userId)
  }

  function IsParticipant(b: BetDoc, userId: string): (found: bool)
    ensures found <==> exists k | 0 <= k < |b.participants| :: b.participants[k].user == userId
  {
    AnyParticipant(b.participants, userId)
  }

  /** `isOpen`: status open, room for one more, and the clock before `expiresAt`. */
  function IsOpen(b: BetDoc, now: int): (open: bool)
    ensures open ==> b.status == Open && now < b.expiresAt
    ensures open <==> b.status == Open && (b.maxParticipants.None? || |b.participants| < b.maxParticipants.value) && now < b.expiresAt
  {
    b.status == Open &&
    (b.maxParticipants.None? || |b.participants| < b.maxParticipants.value) &&
    now < b.expiresAt
  }

  /** The bet with one more participant. */
  function WithParticipant(b: BetDoc, p: Participant): (b': BetDoc)
    ensures b'.participants == b.participants + [p]
    ensures b'.(participants := b.participants) == b
  {
    b.(participants := b.participants + [p])
  }

  /** A user added to the participants is a participant, and everyone who was stays one. */
  lemma JoinMakesParticipant(b: BetDoc, p: Participant, userId: string)
    ensures IsParticipant(WithParticipant(b, p), p.user)
    ensures IsParticipant(b, userId) ==> IsParticipant(WithParticipant(b, p), userId)
  {
    var ps := WithParticipant(b, p).participants;
    assert ps[|ps| - 1].user == p.user;
    if IsParticipant(b, userId) {
      var k :| 0 <= k < |b.participants| && b.participants[k].user == userId;
      assert ps[k] == b.participants[k];
    }
  }

  /** Filling the last place closes the bet. */
  lemma LastPlaceCloses(b: BetDoc, p: Participant, now: int)
    requires b.maxParticipants == Some(|b.participants| + 1)
    ensures !IsOpen(WithParticipant(b, p), now)
  {
  }

  /** Once open, a bet stays open until the clock reaches `expiresAt`, when it closes. */
  lemma OpenUntilExpiry(b: BetDoc, now: int, later: int)
    requires IsOpen(b, now) && now <= later
    ensures IsOpen(b, later) <==> later < b.expiresAt
  {
  }
}
