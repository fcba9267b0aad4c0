/**
 * The profile page's arithmetic and storage updates (public/js/profile.js): the
 * user level, the displayed win rate, the default statistics written on first
 * visit, and the profile save that merges edited fields into `gobet_user`.
 */
module Profile {
  import opened Common
  import opened JsStats

  /** The record `updateProfileStats` writes when nothing is stored: four counters only. */
  const ProfileDefaults := StatsRecord(Num(0), Undefined, Num(0), Undefined, Undefined, Num(0), Num(0))

  /** `updateUserLevel`: 1 + floor(betsCreated / 10) + floor(betsWon / 5), missing counters read as 0. */
  function Level(s: StatsRecord): (level: int)
    ensures OrZero(s.betsCreated) >= 0 && OrZero(s.betsWon) >= 0 ==> level >= 1
  {
    1 + OrZero(s.betsCreated) / 10 + OrZero(s.betsWon) / 5
  }

  /** The level never falls as either counter grows, and ten more bets created raise it by one. */
  lemma LevelMonotone(s: StatsRecord, t: StatsRecord)
    requires OrZero(s.betsCreated) <= OrZero(t.betsCreated) && OrZero(s.betsWon) <= OrZero(t.betsWon)
    ensures Level(s) <= Level(t)
    ensures OrZero(t.betsCreated) == OrZero(s.betsCreated) + 10 && OrZero(t.betsWon) == OrZero(s.betsWon) ==>
      Level(t) == Level(s) + 1
  {
    DivMonotone(OrZero(s.betsCreated), OrZero(t.betsCreated), 10);
    DivMonotone(OrZero(s.betsWon), OrZero(t.betsWon), 5);
    var c := OrZero(s.betsCreated);
    DivBounds(c, 10);
    DivUnique(c + 10, 10, c / 10 + 1);
  }

  /**
   * The win rate as the profile shows it: round(100 * betsWon / betsCreated) when
   * betsCreated > 0, else 0; `None` where the division yields NaN (no betsWon).
   */
  function WinRateAsWritten(s: StatsRecord): (rate: Option<int>)
    ensures !(s.betsCreated.Num? && s.betsCreated.n > 0) ==> rate == Some(0)
    ensures s.betsCreated.Num? && s.betsCreated.n > 0 && s.betsWon.Num? ==>
      rate == Some(RoundPercent(s.betsWon.n, s.betsCreated.n))
  {
    if s.betsCreated.Num? && s.betsCreated.n > 0 then
      (if s.betsWon.Num? then Some(RoundPercent(s.betsWon.n, s.betsCreated.n))
       else if s.betsWon.Null? then Some(0)
       else None)
    else Some(0)
  }

  /** Bets won count bets joined, not only bets created, so the rate as written can pass 100%. */
  lemma WinRateExceedsHundred()
    ensures WinRateAsWritten(ProfileDefaults.(betsCreated := Num(1), betsWon := Num(3))) == Some(300)
  {
    assert RoundPercent(3, 1) == 300;
  }

  /** The win rate over decided bets, as the statistics record's own `winPercentage` is computed. */
  function WinRate(s: StatsRecord): (rate: int)
    ensures OrZero(s.betsWon) >= 0 && OrZero(s.betsLost) >= 0 ==> 0 <= rate <= 100
    ensures OrZero(s.betsWon) + OrZero(s.betsLost) == 0 ==> rate == 0
  {
    var decided := OrZero(s.betsWon) + OrZero(s.betsLost);
    if decided > 0 then RoundPercent(OrZero(s.betsWon), decided) else 0
  }

  /** A user who won every decided bet shows 100%, one who lost every one shows 0%. */
  lemma WinRateExtremes(s: StatsRecord)
    requires OrZero(s.betsWon) > 0 || OrZero(s.betsLost) > 0
    requires OrZero(s.betsWon) >= 0 && OrZero(s.betsLost) >= 0
    ensures OrZero(s.betsLost) == 0 ==> WinRate(s) == 100
    ensures OrZero(s.betsWon) == 0 ==> WinRate(s) == 0
  {
    var w := OrZero(s.betsWon);
    var d := w + OrZero(s.betsLost);
    if OrZero(s.betsLost) == 0 {
      assert 200 * w + d == 201 * d;
      DivUnique(201 * d, 2 * d, 100);
    }
    if w == 0 {
      DivUnique(d, 2 * d, 0);
    }
  }

  /** What the stats panel shows. */
  datatype StatsView = StatsView(betsCreated: JsNum, betsWon: JsNum, winRate: int, friends: JsNum, level: int)

  function View(s: StatsRecord): (v: StatsView)
    ensures v.level == Level(s) && v.winRate == WinRate(s)
    ensures v.betsCreated == s.betsCreated && v.betsWon == s.betsWon && v.friends == s.friends
  {
    StatsView(s.betsCreated, s.betsWon, WinRate(s), s.friends, Level(s))
  }

  /** The keys of the stored profile object: the five the save writes, and any other. */
  datatype Key = Username | Email | Bio | Avatar | Banner | Other(name: string)

  /** The profile as a JSON object of string fields (`gobet_user`). */
  type Profile = map<Key, string>

  /** `avatarPreview ? avatarPreview.src : userData.avatar`: keep the old value, or its absence, without a preview. */
  function SetOrKeep(m: Profile, key: Key, preview: Option<string>): (r: Profile)
    ensures preview.Some? ==> key in r && r[key] == preview.value
    ensures preview.None? ==> r == m
    ensures forall k | k != key :: (k in r <==> k in m) && (k in m ==> r[k] == m[k])
  {
    if preview.Some? then m[key := preview.value] else m
  }

  /** `{...userData, username, email, bio, avatar, banner}` */
  function Merge(base: Profile, u: string, e: string, b: string, avatarPreview: Option<string>, bannerPreview: Option<string>): (r: Profile)
    ensures Username in r && r[Username] == u && Email in r && r[Email] == e && Bio in r && r[Bio] == b
    ensures forall k: Key | k.Other? :: (k in r <==> k in base) && (k in base ==> r[k] == base[k])
    ensures Avatar in r <==> avatarPreview.Some? || Avatar in base
    ensures Avatar in r ==> r[Avatar] == if avatarPreview.Some? then avatarPreview.value else base[Avatar]
    ensures Banner in r <==> bannerPreview.Some? || Banner in base
    ensures Banner in r ==> r[Banner] == if bannerPreview.Some? then bannerPreview.value else base[Banner]
  {
    SetOrKeep(SetOrKeep(base[Username := u][Email := e][Bio := b], Avatar, avatarPreview), Banner, bannerPreview)
  }

  /**
   * `saveUserProfile`: the merged profile, or `None` when the trimmed username
   * or email is empty (then nothing is written).
   */
  function SaveProfile(stored: Option<Profile>, username: string, email: string, bio: string,
                       avatarPreview: Option<string>, bannerPreview: Option<string>): (r: Option<Profile>)
    ensures r.None? <==> Trim(username) == "" || Trim(email) == ""
    ensures r.Some? ==> r.value == Merge(stored.GetOr(map[]), Trim(username), Trim(email), Trim(bio), avatarPreview, bannerPreview)
  {
    var u := Trim(username);
    var e := Trim(email);
    var b := Trim(bio);
    if u == "" || e == "" then None
    else Some(Merge(stored.GetOr(map[]), u, e, b, avatarPreview, bannerPreview))
  }

  /** Merging the same edits a second time changes nothing. */
  lemma MergeIdempotent(base: Profile, u: string, e: string, b: string, avatarPreview: Option<string>, bannerPreview: Option<string>)
    ensures var once := Merge(base, u, e, b, avatarPreview, bannerPreview);
      Merge(once, u, e, b, avatarPreview, bannerPreview) == once
  {
    var once := Merge(base, u, e, b, avatarPreview, bannerPreview);
    var twice := Merge(once, u, e, b, avatarPreview, bannerPreview);
    forall k ensures (k in twice <==> k in once) && (k in once ==> twice[k] == once[k]) {
      match k
      case Username =>
      case Email =>
      case Bio =>
      case Avatar =>
      case Banner =>
      case Other(_) =>
    }
    assert twice.Keys == once.Keys;
  }

  /** Saving the same form twice stores what saving it once stores. */
  lemma SaveIdempotent(stored: Option<Profile>, username: string, email: string, bio: string,
                       avatarPreview: Option<string>, bannerPreview: Option<string>)
    requires SaveProfile(stored, username, email, bio, avatarPreview, bannerPreview).Some?
    ensures var once := SaveProfile(stored, username, email, bio, avatarPreview, bannerPreview);
      SaveProfile(once, username, email, bio, avatarPreview, bannerPreview) == once
  {
    TrimIdempotent(username);
    TrimIdempotent(email);
    TrimIdempotent(bio);
    MergeIdempotent(stored.GetOr(map[]), Trim(username), Trim(email), Trim(bio), avatarPreview, bannerPreview);
  }

  /** The two storage keys the profile page writes. */
  class ProfileStorage {
    /** `gobet_user_stats` */
    var stats: Option<StatsRecord>
    /** `gobet_user` */
    var user: Option<Profile>

    constructor (stats0: Option<StatsRecord>, user0: Option<Profile>)
      ensures stats == stats0 && user == user0
    {
      stats := stats0;
      user := user0;
    }

    /** `updateProfileStats`: write the defaults if nothing is stored, then show the panel. */
    method UpdateProfileStats() returns (shown: StatsView)
      modifies this`stats
      ensures old(stats).Some? ==> stats == old(stats)
      ensures old(stats).None? ==> stats == Some(ProfileDefaults)
      ensures shown == View(stats.value)
    {
      if stats.None? {
        stats := Some(ProfileDefaults);
      }
      shown := View(stats.value);
    }

    /** `saveUserProfile` */
    method SaveUserProfile(username: string, email: string, bio: string, avatarPreview: Option<string>, bannerPreview: Option<string>)
      returns (saved: bool)
      modifies this`user
      ensures var r := SaveProfile(old(user), username, email, bio, avatarPreview, bannerPreview);
        saved == r.Some? && user == (if r.Some? then r else old(user))
    {
      var r := SaveProfile(user, username, email, bio, avatarPreview, bannerPreview);
      if r.None? {
        return false;
      }
      user := r;
      return true;
    }
  }
}
