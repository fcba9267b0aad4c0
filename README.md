# GoBet: a verified model of the betting, wallet and social core

GoBet is a social betting site. Users create bets with two or more options,
join them with a GoCoin stake, and the creator declares the winning option.
The bet then pays its winners either winner-takes-all (the pot shared equally,
rounded down) or at fixed odds (stake times odds, rounded down). If nobody
won, every stake is refunded. Around this sit:

- weekly free-bet quotas per subscription plan;
- a prize wheel with paid spins;
- a friend-request graph on the server;
- two password-strength meters and the registration and login checks;
- cookie consent;
- the profile page's level and win rate;
- the Mongoose models' query methods;
- the legacy REST controllers for balances and bets.

This project models that core in Dafny. Each source file becomes one module:

| module | source file |
|---|---|
| `CreateBet` | public/js/createBet.js |
| `Plans` | public/js/plans.js |
| `Wheel` | public/js/wheel.js |
| `Login` | public/js/login.js |
| `RegisterModal` | public/js/register-modal.js |
| `Cookies` | public/js/cookies.js |
| `Profile` | public/js/profile.js |
| `Betting` | public/js/betting.js |
| `Navigation` | public/js/navigation.js |
| `Friends` | server/controllers/friendController.js |
| `UserModel` | server/models/User.js |
| `ServerBet` | server/models/Bet.js |
| `Giveaway` | server/models/Giveaway.js |
| `UserController` | controllers/userController.js |
| `BetController` | controllers/betController.js |

Three shared modules support them:

- `Common` holds `Option`/`Result`, the string helpers `Trim`, `Split` and `Join`, and division facts.
- `JsStats` holds the statistics record stored under `gobet_user_stats`. Its counters are JavaScript values: `Undefined`, `Null`, `NaN` or a number. This lets the model follow what `+= 1` and `|| 0` do to a missing counter.
- `LegacyDb` holds the in-memory user and bet collections of the legacy controllers.

Code that changes state in place is modelled as a class:

- a script's `localStorage` keys: `BetStore`, `PlanStorage`, `WheelStorage`, `LoginStorage`, `ProfileStorage`;
- the cookie jar: `CookieManager`;
- a Mongoose document: `UserDocument`, `GiveawayDoc`;
- the user collection behind the friend controller: `FriendController`;
- a client object: `WinnerTakesAllBet`.

The methods of these classes carry `modifies` clauses and state their whole new state, in terms of pure specification functions where the source computes something (the giveaway draw, for one, follows `Giveaway.Choose`). The properties the source promises are lemmas about those functions.

Time and randomness are parameters:

- `now` stands for `Date.now()` or `new Date()`.
- `r` is the wheel's draw. Because every weight is an integer, `floor(Math.random() * total)` can be modelled as an integer `r`.
- `draws` is the giveaway's sequence of random numbers.

The email pattern check is a boolean parameter `emailMatches`.

## Model

| member | source | states |
|---|---|---|
| Common.Trim | public/js/profile.js:195-197 | the result neither starts nor ends with whitespace, and it is empty exactly when the input is all whitespace |
| Common.TrimSlice | public/js/profile.js:195-197 | the result is the slice of the input between the dropped leading and trailing whitespace, and only whitespace is dropped |
| Common.TrimIdempotent | public/js/profile.js:195-197 | trimming twice gives what trimming once gives |
| Common.Split | public/js/cookies.js:204 | `split(sep)`: there is at least one piece and no piece contains the separator |
| Common.SplitJoin | public/js/cookies.js:147-150 | splitting a join of separator-free pieces gives the pieces back |
| Common.JoinSplit | public/js/cookies.js:204 | joining the pieces of a split with the separator gives the input back |
| Common.Join | public/js/cookies.js:150 | `join(sep)`: the pieces with the separator between them; `SplitJoin` and `JoinSplit` make it the inverse of `Split` |
| JsStats.Add | public/js/login.js:451-455 | `x += n` on a JavaScript value: undefined or NaN gives NaN, null counts as 0, a number adds |
| JsStats.Stored | public/js/login.js:465 | what `JSON.stringify` keeps: NaN is written as null and every other value is kept |
| JsStats.RoundPercent | public/js/createBet.js:521-524 | `Math.round(100 * w / t)` in integers: it lies within half a unit of the exact percentage, and in 0-100 when 0 <= w <= t |
| JsStats.PercentBounds | public/js/createBet.js:521-524 | the integer formula `(200w + t) / 2t` is the rounding of 100w/t, and lies in 0-100 when 0 <= w <= t |
| CreateBet.NewBet | public/js/createBet.js:46-92 | creation fails on a missing field, fewer than two options, or an end date that is not in the future; otherwise the bet is open with no participants and the given options |
| CreateBet.IndexOf | public/js/createBet.js:386 | `findIndex`: -1 exactly when no bet has the id, else the first index with it |
| CreateBet.Lookup | public/js/createBet.js:400-403 | `getBetById`: `None` exactly when no bet has the id, else a stored bet with that id |
| CreateBet.Upsert | public/js/createBet.js:381-398 | `saveBet`: replace the bet with the same id or append; other entries unchanged; the list grows exactly when the id was new |
| CreateBet.UpsertKeepsIdsUnique | public/js/createBet.js:381-398 | saving keeps bet ids unique |
| CreateBet.LookupAfterUpsert | public/js/createBet.js:381-403 | after a save, reading the id gives the saved bet and every other id reads as before |
| CreateBet.Wallets.Credit | public/js/createBet.js:570-588 | `distributeWinnings`: the user's stored balance rises by the amount; everyone else's is unchanged; an unregistered user is skipped |
| CreateBet.ApplyCreditsBalance | public/js/createBet.js:570-588 | after a run of credits, each user's balance is the old one plus the sum credited to that user |
| CreateBet.Recompute | public/js/createBet.js:521-524 | only `winPercentage` can change, only when won + lost > 0, and then to `Math.round(100 * won / (won + lost))` |
| CreateBet.RecordAction | public/js/createBet.js:499-528 | exactly one counter rises by 1; winnings grow by the amount on a win; when won + lost > 0 afterwards `winPercentage` is the rounded percentage of the new counters, in 0-100 |
| CreateBet.RecordForOther | public/js/createBet.js:546-566 | for another user, wins and losses are recorded as for oneself |
| CreateBet.StatsBook.Record | public/js/createBet.js:530-568 | `updateUserStatsByUserId`: only the named user's record changes, as `RecordAction` says |
| CreateBet.ApplyEventsCounts | public/js/createBet.js:530-568 | after a run of stat events, each counter of a user has grown by the number of that user's events of that kind |
| CreateBet.EventsKeepOwners | public/js/createBet.js:530-568 | stat events never change the current user or the set of registered users |
| CreateBet.Winners | public/js/createBet.js:301 | the filtered participants all chose the winning option |
| CreateBet.WinnersExactly | public/js/createBet.js:301 | a participant is a winner if and only if they chose the winning option |
| CreateBet.Losers | public/js/createBet.js:334 | the filtered participants all chose another option |
| CreateBet.WinnersLosersPartition | public/js/createBet.js:301-337 | winners and losers together are the participants, as a multiset |
| CreateBet.PotIsSumOfStakes | public/js/createBet.js:302-303 | the pot `participants.length * amount` equals the sum of stakes while every stake is the bet amount |
| CreateBet.OddsWinnings | public/js/createBet.js:323 | `Math.floor(amount * odds)`: the greatest integer not above the exact product |
| CreateBet.Refunds | public/js/createBet.js:340-342 | one credit per participant, of that participant's own stake |
| CreateBet.WinPayouts | public/js/createBet.js:305-331 | one credit per winner: the equal share of the pot, or the stake at the option's odds |
| CreateBet.WinEvents | public/js/createBet.js:310-329 | one win event per winner, carrying the credited amount |
| CreateBet.LossEvents | public/js/createBet.js:334-337 | one loss event per loser, with no amount |
| CreateBet.Payouts | public/js/createBet.js:301-343 | with no winners one credit per entry to its user; otherwise one credit per winner, in order |
| CreateBet.StatEvents | public/js/createBet.js:301-343 | no events exactly when nobody won; otherwise one event per entry, wins first and then losses |
| CreateBet.WinnerTakesAllPayouts | public/js/createBet.js:306-317 | every winner gets `floor(pot / winners)` and the total paid never exceeds the pot |
| CreateBet.FixedOddsPayouts | public/js/createBet.js:318-330 | every winner gets `floor(stake * odds)` of the winning option |
| CreateBet.LosersNotCredited | public/js/createBet.js:333-337 | when someone won, a user who did not win is credited nothing and gets only loss events |
| CreateBet.RefundsReturnStakes | public/js/createBet.js:338-343 | with no winners, each user gets back exactly their stakes, the refunds total the sum of stakes, and no stat changes |
| CreateBet.CreditsTwice | public/js/createBet.js:570-588 | applying the same credits twice credits each user twice |
| CreateBet.RepeatedSettlementPaysTwice | public/js/createBet.js:287-353 | the bet as completed still settles with the same payouts and events, so completing it again credits every user their payout a second time: the status is never checked |
| CreateBet.AddParticipant | public/js/createBet.js:164-171 | joining appends exactly one entry with the bet amount as stake and changes nothing else |
| CreateBet.JoinKeepsEntriesUniform | public/js/createBet.js:147-177 | joining keeps one entry per user and every stake equal to the bet amount |
| CreateBet.PotentialWin | public/js/createBet.js:420-439 | the preview is the pot divided by the estimated winners, rounded down |
| CreateBet.EstimatedWinners | public/js/createBet.js:431-435 | the current winners on that option, or 1 when there are none |
| CreateBet.PotentialWinIsShare | public/js/createBet.js:423-436 | in winner-takes-all mode with a winner, the preview equals what each winner is paid |
| CreateBet.BetStore.constructor | public/js/createBet.js:471-497 | the store holds the given bets, session, coins and stats |
| CreateBet.BetStore.FindBetIndex | public/js/createBet.js:386 | the loop finds the first index with the id, or -1 when there is none |
| CreateBet.BetStore.GetBetById | public/js/createBet.js:400-403 | the result is `Lookup` of the stored bets |
| CreateBet.BetStore.SaveBet | public/js/createBet.js:381-398 | the stored bets become `Upsert` of the old ones |
| CreateBet.BetStore.UpdateUserCoins | public/js/createBet.js:489-493 | the coin balance changes by exactly the amount |
| CreateBet.BetStore.UpdateUserStats | public/js/createBet.js:499-528 | the stats become `RecordAction` of the old ones |
| CreateBet.BetStore.UpdateUserStatsByUserId | public/js/createBet.js:530-568 | the stats book becomes `Record` of the old one |
| CreateBet.BetStore.DistributeWinnings | public/js/createBet.js:570-588 | the wallets become `Credit` of the old ones |
| CreateBet.BetStore.CreateBet | public/js/createBet.js:24-98 | the bet is saved and a creation is counted exactly when `NewBet` succeeds; otherwise nothing changes |
| CreateBet.BetStore.Join | public/js/createBet.js:119-187 | login, option, bet, double-join and balance are checked in the source's order; on success one entry is added, coins drop by the bet amount and a join is counted; on error nothing changes |
| CreateBet.BetStore.PayWinners | public/js/createBet.js:305-331 | the loop credits `WinPayouts` and records `WinEvents` |
| CreateBet.BetStore.RecordLosers | public/js/createBet.js:334-337 | the loop records `LossEvents` |
| CreateBet.BetStore.RefundAll | public/js/createBet.js:338-343 | the loop credits `Refunds` |
| CreateBet.BetStore.Settle | public/js/createBet.js:301-343 | wallets and stats become the settlement's payouts and events applied to the old ones |
| CreateBet.BetStore.CompleteBet | public/js/createBet.js:287-353 | succeeds exactly when the bet exists and settles (no fixed-odds winners with a winning index that names no option); a refusal changes nothing; otherwise the bet is saved completed with the winning option and its participants unchanged, and wallets and stats take its payouts and events whatever its previous status |
| Plans.PlanOf | public/js/plans.js:19 | the stored plan, or "free" when none is stored |
| Plans.DisplayNames | public/js/plans.js:285-291 | free, premium and premium-plus are shown as Gratis, Premium and Premium+, no two alike; any other name is shown unchanged; no stored plan shows Gratis |
| Plans.PlanButton | public/js/plans.js:74-92 | the button is disabled exactly on the current plan; the downgrade and upgrade labels follow the plan pair |
| Plans.FreeBetsLeft | public/js/plans.js:240-245 | `max(0, 1 - used)`: 0 exactly when one bet is used, at most 1 |
| Plans.FreeBetsRemaining | public/js/plans.js:223-246 | nothing for non-free plans; after more than a week the counter resets to 0 and the reset time to now |
| Plans.SpendFreeBet | public/js/plans.js:251-280 | premium-plus always succeeds with no change; premium succeeds while used < 5 and counts one; free succeeds while used < 1 and sets used to 1; a refusal changes nothing |
| Plans.UpgradeTo | public/js/plans.js:110-118 | the plan is stored; switching to free resets the weekly counter and the reset time |
| Plans.FreeBetOncePerWeek | public/js/plans.js:271-279 | on the free plan a second bet in the same week is refused and none remain |
| Plans.PremiumLifetimeLimit | public/js/plans.js:258-268 | of n premium attempts exactly `min(n, 5 - used)` succeed; the premium counter is never reset, so the five bets are a lifetime limit |
| Plans.PremiumPlusUnlimited | public/js/plans.js:255 | every premium-plus attempt succeeds |
| Plans.DowngradeGivesFreshWeek | public/js/plans.js:115-118 | right after switching to free, one free bet remains and it can be used |
| Plans.PlanStorage.constructor | public/js/plans.js:223-246 | storage holds the given quota keys |
| Plans.PlanStorage.CalculateFreeBetsRemaining | public/js/plans.js:223-246 | result and new storage are `FreeBetsRemaining` of the old storage |
| Plans.PlanStorage.UseFreeBet | public/js/plans.js:251-280 | result and new storage are `SpendFreeBet` of the old storage |
| Plans.PlanStorage.UpgradeToPlan | public/js/plans.js:110-118 | the new storage is `UpgradeTo` of the old one |
| Wheel.SpinsByPlan | public/js/wheel.js:41-51 | 1, 3 and 5 starting spins for free, premium and premium-plus, increasing with the plan; any other plan, or none, starts with 1 |
| Wheel.CostByPlan | public/js/wheel.js:165-171 | an extra spin costs 500, 350 and 200 for free, premium and premium-plus, falling with the plan; any other plan, or none, pays 500 |
| Wheel.AfterSpin | public/js/wheel.js:233-236 | a positive count drops by one; any other value is kept |
| Wheel.SpinsNeverNegative | public/js/wheel.js:233-236 | after any number of spins the count is the old one minus the spins, floored at 0, so never negative |
| Wheel.ConfiguredWeights | public/js/wheel.js:95-102 | the configured probabilities are non-negative and sum to 100 |
| Wheel.PrefixMonotone | public/js/wheel.js:263-269 | cumulative weights never decrease |
| Wheel.Selected | public/js/wheel.js:255-273 | the chosen index is within the prize list |
| Wheel.SelectedFrom | public/js/wheel.js:255-273 | the first prize whose cumulative weight exceeds the draw, or prize 0 when none does |
| Wheel.SelectedInterval | public/js/wheel.js:260-269 | for a draw in [0, total), prize i is chosen exactly when the draw lies in i's cumulative interval |
| Wheel.SelectWinner | public/js/wheel.js:255-273 | the loop returns the prize `Selected` names, or nothing for an empty list |
| Wheel.LeadingDigits | public/js/wheel.js:327 | the longest prefix made of digits |
| Wheel.FirstDigitRun | public/js/wheel.js:327 | `match(/\d+/)`: a non-empty string of digits, or none exactly when the name has no digit |
| Wheel.FirstDigitRunAt | public/js/wheel.js:327 | a found run starts at the first digit of the name and is the whole run of digits there |
| Wheel.Decimal | public/js/wheel.js:327 | the decimal digits of a number |
| Wheel.ParseDecimal | public/js/wheel.js:327 | `parseInt` of a number's decimal digits gives the number back |
| Wheel.DigitRunOfLabel | public/js/wheel.js:327 | in "digits + text not starting with a digit" the first digit run is the digits |
| Wheel.EffectOf | public/js/wheel.js:325-331 | a name without "GoCoins" credits nothing; one with "GoCoins" but no digits is an error |
| Wheel.CoinLabel | public/js/wheel.js:325-331 | "d GoCoins" credits the number d spells |
| Wheel.CoinPrizeCredits | public/js/wheel.js:325-331 | "n GoCoins" credits exactly n |
| Wheel.FirstCoinPrize | public/js/wheel.js:95 | the first configured prize credits 250 |
| Wheel.SecondCoinPrize | public/js/wheel.js:96 | the second configured prize credits 500 |
| Wheel.ThirdCoinPrize | public/js/wheel.js:97 | the third configured prize credits 1000 |
| Wheel.WheelStorage.constructor | public/js/wheel.js:34-67 | storage holds the given plan, coins and spins |
| Wheel.WheelStorage.UpdateRemainingSpins | public/js/wheel.js:34-67 | a missing count starts at the plan's initial spins; the button is disabled exactly when spins <= 0 |
| Wheel.WheelStorage.BuyAdditionalSpin | public/js/wheel.js:159-191 | with coins >= cost, coins drop by the cost and spins rise by one; otherwise nothing changes |
| Wheel.WheelStorage.ProcessPrize | public/js/wheel.js:318-344 | a GoCoins prize credits its number; other prizes leave coins unchanged |
| Wheel.WheelStorage.Spin | public/js/wheel.js:196-250 | the selected prize is returned, the count is decremented as `AfterSpin` says, and the prize is processed |
| Cookies.KeyOf | public/js/cookies.js:147-150 | preference keys contain neither ',' nor ';' |
| Cookies.Enabled | public/js/cookies.js:147-150 | a category is listed exactly when its preference is true, in key order without repeats, necessary first |
| Cookies.Keys | public/js/cookies.js:147-150 | the keys of the categories, in order |
| Cookies.ConsentString | public/js/cookies.js:147-150 | the consent string holds no ';' and is empty exactly when no category is enabled |
| Cookies.KeyListed | public/js/cookies.js:147-150 | a key is listed exactly when its category is enabled |
| Cookies.KeysRoundTrip | public/js/cookies.js:147-152 | splitting the joined keys at ',' gives the keys back |
| Cookies.ConsentRoundTrip | public/js/cookies.js:147-152 | the consent string starts with "necessary" and decodes back to the preferences |
| Cookies.JoinNoSemicolon | public/js/cookies.js:147-152 | the consent string contains no ';', so it fits in one cookie |
| Cookies.AllCookiesString | public/js/cookies.js:177-187 | accepting all gives "necessary,performance,functional" |
| Cookies.NecessaryOnlyString | public/js/cookies.js:160-172 | accepting necessary gives "necessary" |
| Cookies.StripSpaces | public/js/cookies.js:207 | removes the leading spaces and nothing else |
| Cookies.Lookup | public/js/cookies.js:202-211 | the text after `name=` in a segment that starts with it once spaces are stripped; none exactly when no segment does |
| Cookies.LookupFirst | public/js/cookies.js:205-209 | the segment read is the first one that starts with `name=` |
| Cookies.ScanSegments | public/js/cookies.js:204-211 | the loop over the segments returns `Lookup` of them |
| Cookies.SetCookie | public/js/cookies.js:192-197 | after setting, the cookie reads back its value and every other cookie is unchanged |
| Cookies.SetCookieWellFormed | public/js/cookies.js:192-197 | setting a cookie keeps the jar's names unique and well formed |
| Cookies.EntryMatch | public/js/cookies.js:208 | an entry starts with `name=` exactly when it is that cookie, and then the rest is its value |
| Cookies.Header | public/js/cookies.js:204 | `document.cookie` is empty exactly when the jar is |
| Cookies.HeaderLookup | public/js/cookies.js:202-211 | parsing `document.cookie` finds exactly the jar's value for the name |
| Cookies.SavedConsentReadBack | public/js/cookies.js:143-152 | a saved consent string reads back unchanged |
| Cookies.ConsentSurvivesReload | public/js/cookies.js:143-152 | after saving consent, reloading the page finds it and does not show the banner |
| Cookies.ConsentCookieName | public/js/cookies.js:152 | the consent cookie's name is a valid cookie name |
| Cookies.CookieManager.constructor | public/js/cookies.js:6-15 | the banner is shown exactly when no consent cookie is present |
| Cookies.CookieManager.GetCookie | public/js/cookies.js:202-211 | the loop over segments returns `Lookup` of the cookie header |
| Cookies.CookieManager.SetCookieValue | public/js/cookies.js:192-197 | the jar becomes `SetCookie` of the old one |
| Cookies.CookieManager.SaveCookiePreferences | public/js/cookies.js:143-155 | the preferences are stored and the consent cookie holds their consent string |
| Cookies.CookieManager.AcceptNecessaryCookies | public/js/cookies.js:160-172 | necessary-only consent is saved and the banner is hidden |
| Cookies.CookieManager.AcceptAllCookies | public/js/cookies.js:177-187 | full consent is saved |
| Login.LengthPointsSteps | public/js/login.js:79-83 | 25 points exactly from 8 characters, 10 exactly for 6 or 7, 0 exactly below 6, never fewer for a longer password |
| Login.Score | public/js/login.js:76-93 | the score lies in 0-100, is at least the length points and at most the length points plus 15/10/15/20 for the character classes present plus 15 for variety |
| Login.Band | public/js/login.js:98-113 | label 4 exactly from 80, 3 exactly in 60-79, 2 in 40-59, 1 in 20-39, 0 below 20 |
| Login.BandMonotone | public/js/login.js:98-113 | a higher score never gets a weaker label |
| Login.PasswordStrength | public/js/login.js:71-116 | an empty password gives 0 and "Inget lösenord"; otherwise percent `min(100, score)` in 0-100 |
| Login.PercentIsScore | public/js/login.js:115 | the percent is the score capped at 100 |
| Login.FullMarks | public/js/login.js:76-115 | a long password with every class of character and enough distinct characters scores 100 |
| Login.ShortLowercaseIsWeak | public/js/login.js:313-318 | a short all-lowercase password is weak |
| Login.RegisterCheck | public/js/login.js:278-318 | registration passes exactly when every field is filled, the passwords match, the terms are accepted, the email is valid and not taken, the username is not taken, and the password is not weak or the user accepts it; a taken email is reported before a taken username |
| Login.NewAccount | public/js/login.js:326-343 | the new record has the trimmed email and username, the password, and the display name `first + ' ' + last` |
| Login.RegisterKeepsAccountsUnique | public/js/login.js:300-343 | a successful registration keeps emails and usernames unique |
| Login.FindAccount | public/js/login.js:206 | the first account whose email or username matches the input |
| Login.RegisterOutcome | public/js/login.js:278-343 | on success exactly one account is appended; on refusal nothing is written |
| Login.FindAppended | public/js/login.js:206 | lookup in a list with one account appended finds the old match, or else the new account |
| Login.RegisterThenFind | public/js/login.js:339-343 | right after registering, logging in with the new email finds the new account |
| Login.Normalize | public/js/login.js:227-239 | a missing display name becomes "first last" when both names are set, else the username; an external avatar is replaced by the local one; every other field is kept |
| Login.NormalizeIdempotent | public/js/login.js:227-239 | normalizing a normalized user changes nothing |
| Login.InitializeStats | public/js/login.js:425-442 | defaults are written only when no stats are stored |
| Login.InitializeIdempotent | public/js/login.js:427 | initialising twice stores what initialising once stores |
| Login.WithPercentage | public/js/login.js:459-462 | the percentage is recomputed only when won + lost > 0 |
| Login.StoredRecord | public/js/login.js:465 | written to storage and parsed back, every NaN counter becomes null and every other counter is kept; no counter is NaN afterwards |
| Login.StoredRecordIdempotent | public/js/login.js:465 | storing a stored record again changes nothing |
| Login.UpdateStatsAsWritten | public/js/login.js:447-466 | `+= 1` as written: a missing counter becomes NaN and is stored as null |
| Login.FirstWinIsLost | public/js/login.js:449-455 | with no stored stats, a first win leaves `betsWon` null, not 1 |
| Login.UpdateStats | public/js/login.js:447-466 | the corrected update: the counter for the result rises by 1 from `x || 0` |
| Login.UpdatesCount | public/js/login.js:447-466 | after a run of corrected updates, wins and losses equal the numbers of each result |
| Login.LoginStorage.constructor | public/js/login.js:425-442 | storage holds the given accounts, session and stats |
| Login.LoginStorage.AcceptNecessaryCookies | public/js/login.js:471-484 | the consent key is set to necessary-only |
| Login.LoginStorage.InitializeUserStats | public/js/login.js:425-442 | the stats become `InitializeStats` of the old ones |
| Login.LoginStorage.UpdateUserStats | public/js/login.js:447-466 | the stats become the corrected `UpdateStats` of the old ones |
| Login.LoginStorage.Register | public/js/login.js:262-386 | the accounts become `RegisterOutcome` of the old ones; a refusal changes nothing |
| Login.LoginStorage.StoreNewAccount | public/js/login.js:339-359 | the account is appended, the session is logged in with 5000 coins, stats are initialised and necessary-only consent is saved |
| Login.LoginOutcome | public/js/login.js:192-239 | empty input gives missing fields; no account with that email or username gives no such user; a wrong password is refused; otherwise the normalised user |
| Login.LoginStorage.LogIn | public/js/login.js:192-255 | the answer is `LoginOutcome`; on success the session is opened and necessary-only consent saved, otherwise nothing changes |
| Login.LoginConsentMatchesManager | public/js/login.js:484 | the login page's `necessary` cookie is the one the cookie manager writes for necessary-only consent, and it decodes to necessary-only preferences |
| RegisterModal.Criteria | public/js/register-modal.js:140-143 | the four tests: length 8 or more, uppercase, digit, special character |
| RegisterModal.MeterStrength | public/js/register-modal.js:137-145 | the strength is one of 0, 25, 50, 75, 100 |
| RegisterModal.MeterCountsCriteria | public/js/register-modal.js:137-145 | the strength is 25 times the number of tests passed |
| RegisterModal.Status | public/js/register-modal.js:147-159 | up to 25 "Svagt", up to 50 "Medel", up to 75 "Bra", above "Starkt" |
| RegisterModal.MeterTextShowsStatus | public/js/register-modal.js:161 | the caption "Lösenordsstyrka: " followed by "Inget lösenord" for an empty password, else by the strength status; two non-empty passwords show the same text exactly when their statuses agree |
| RegisterModal.MeterExtremes | public/js/register-modal.js:140-159 | passing all four tests shows "Starkt"; passing at most one shows "Svagt" |
| RegisterModal.SubmitCheck | public/js/register-modal.js:177-185 | submit passes exactly when all five fields are filled and the terms are accepted; missing fields are reported first |
| RegisterModal.ModalState.constructor | public/js/register-modal.js:8-9 | no modal has been built |
| RegisterModal.ModalState.CreateRegisterModal | public/js/register-modal.js:11-12 | the modal is built at most once, guarded by the creation flag |
| RegisterModal.ModalState.OpenRegisterModal | public/js/register-modal.js:222-229 | opening builds the modal if needed and shows it |
| RegisterModal.ModalState.CloseRegisterModal | public/js/register-modal.js:232-237 | closing hides the modal |
| Friends.StatusCodes | server/controllers/friendController.js:12-25 | every refusal maps to 400, 404 or 500: 404 exactly for a missing user, 500 exactly for a server error, 400 exactly for the five request errors |
| Friends.FindRequest | server/controllers/friendController.js:86-88 | the index of the first request from the sender, or -1 when there is none |
| Friends.RemoveAt | server/controllers/friendController.js:99 | `splice(i, 1)`: the list without position i |
| Friends.Without | server/controllers/friendController.js:199-205 | `filter`: the list without any occurrence of the user |
| Friends.Send | server/controllers/friendController.js:6-67 | refused for a missing target, oneself, a friend or a pending request; otherwise one request from the sender is appended to the target and the sender is unchanged |
| Friends.AcceptAsWritten | server/controllers/friendController.js:72-125 | as written: the request is removed and each user is pushed onto the other's friends without a check; every other user is unchanged |
| Friends.AddOnce | server/controllers/friendController.js:102-103 | the corrected push: the friend is added only if absent |
| Friends.Accept | server/controllers/friendController.js:72-125 | corrected (adds a friend only when absent): succeeds exactly when both users exist and the request is there; then the request is removed, each user is in the other's friends, both lists are exactly the old ones with the other added once, and every other user is unchanged |
| Friends.Reject | server/controllers/friendController.js:130-172 | the request is removed and both friends lists are untouched |
| Friends.Remove | server/controllers/friendController.js:177-221 | succeeds exactly when both users exist and are friends; then each list is exactly the old one without the other, and every other user is unchanged |
| Friends.SendKeepsValid | server/controllers/friendController.js:48-53 | sending keeps friendship symmetric and duplicate-free, with one request per sender |
| Friends.SecondSendRefused | server/controllers/friendController.js:36-45 | a second request from the same sender is refused |
| Friends.AcceptKeepsValid | server/controllers/friendController.js:99-103 | accepting keeps the graph valid |
| Friends.AcceptKeepsSymmetric | server/controllers/friendController.js:99-103 | accepting keeps friendship symmetric |
| Friends.AcceptKeepsUnique | server/controllers/friendController.js:99-103 | accepting keeps friends lists free of duplicates |
| Friends.RejectKeepsValid | server/controllers/friendController.js:157-158 | rejecting keeps the graph valid |
| Friends.RemoveKeepsValid | server/controllers/friendController.js:199-205 | removing keeps the graph valid, in particular symmetric |
| Friends.CrossedRequestsDuplicateFriends | server/controllers/friendController.js:102-103 | as written, accepting crossed requests from both sides lists each user twice |
| Friends.FriendController.constructor | server/controllers/friendController.js:6-67 | the controller holds the given users |
| Friends.FriendController.SendFriendRequest | server/controllers/friendController.js:6-67 | the response and users are `Send` of the old users |
| Friends.FriendController.AcceptFriendRequest | server/controllers/friendController.js:72-125 | corrected: the response and users are `Accept` of the old users |
| Friends.FriendController.RejectFriendRequest | server/controllers/friendController.js:130-172 | the response and users are `Reject` of the old users |
| Friends.FriendController.RemoveFriend | server/controllers/friendController.js:177-221 | the response and users are `Remove` of the old users |
| LegacyDb.ParsePrediction | models/Bet.js:43 | the prediction enum: exactly "1", "X" and "2" are accepted |
| LegacyDb.ParseStatus | models/Bet.js:52 | the status enum: exactly pending, won, lost and cancelled are accepted |
| LegacyDb.FindUser | controllers/betController.js:19 | `findById`: -1 exactly when no user has the id, else the first index with it |
| LegacyDb.FindByEmail | controllers/userController.js:68 | `findOne({email})`: -1 exactly when no user has the email, else the first index with it |
| LegacyDb.FindBet | controllers/betController.js:97 | `findById` on bets: -1 exactly when no bet has the id, else the first index with it |
| LegacyDb.Store.constructor | controllers/betController.js:19 | the store holds the given users and bets |
| UserController.RegisterOutcome | controllers/userController.js:7-50 | refused when the email or the username is taken; otherwise one user is appended with balance 100 |
| UserController.RegisterKeepsAccountsUnique | controllers/userController.js:12-27 | registration keeps emails and usernames unique |
| UserController.LoginOutcome | controllers/userController.js:55-108 | a missing field gives 400; an unknown email or a wrong password gives 401; otherwise the user |
| UserController.RegisterThenLogin | controllers/userController.js:22-27 | right after registering, logging in with the same email and password succeeds |
| UserController.ApplyAsWritten | controllers/userController.js:167-177 | as written: a deposit adds any amount, negative included |
| UserController.BalanceRequestAsWritten | controllers/userController.js:151 | as written: a request passes only with deposit or withdraw, and a negative amount passes |
| UserController.NegativeDepositOverdraws | controllers/userController.js:151-168 | as written, a deposit of -500 on a zero balance leaves -500 |
| UserController.BalanceRequest | controllers/userController.js:151 | corrected: the as-written check with the amount also required to be positive |
| UserController.UpdateBalanceOutcome | controllers/userController.js:147-192 | the corrected handler: an amount that is not positive or an unknown type is refused; a deposit adds the amount; a withdrawal above the balance is refused with no change; otherwise it subtracts the amount |
| UserController.BalanceStaysNonNegative | controllers/userController.js:169-176 | the corrected handler keeps a non-negative balance non-negative |
| UserController.DepositThenWithdraw | controllers/userController.js:167-176 | depositing and then withdrawing the same amount restores the balance |
| UserController.RegisterUser | controllers/userController.js:7-50 | the users become `RegisterOutcome` of the old ones |
| UserController.UpdateBalance | controllers/userController.js:147-192 | the response and the user's balance follow `UpdateBalanceOutcome`; other users are unchanged |
| BetController.PlaceOutcome | controllers/betController.js:7-69 | a missing field is refused, then an unknown user, then a balance below the stake; otherwise potential winnings are stake times odds |
| BetController.StakedByAppend | controllers/betController.js:53-55 | a new bet adds its stake to the user's total staked |
| BetController.StakedByNonNegative | models/Bet.js:31-34 | total stakes are non-negative, since the schema demands a stake of at least 10 |
| BetController.Placed | controllers/betController.js:53-54 | on success the balance drops by exactly the stake and the bet id is appended to the user's bets |
| BetController.PlaceConservesFunds | controllers/betController.js:53-55 | balance plus total staked is the same before and after placing a bet; with every stored stake at least 10, the bettor held at least the stake before and has at least the stake at play after |
| BetController.PlaceBet | controllers/betController.js:7-69 | the store follows `PlaceOutcome`; a refusal creates no bet and changes no balance |
| BetController.ReadBet | controllers/betController.js:95-125 | an unknown bet gives 404; only the owner or an admin may read it, others get 403 |
| BetController.NewFields | controllers/betController.js:152-153 | an empty input keeps status and result; a non-empty one replaces them whatever they were; only the known statuses and predictions are accepted |
| BetController.Credit | controllers/betController.js:158-160 | the owner's balance rises by the potential winnings |
| BetController.UpdateBetEffect | controllers/betController.js:130-175 | an unknown bet gives 404 before the admin check, a non-admin gets 403; status "won" credits the owner whatever the old status |
| BetController.RepeatedWinCreditsTwice | controllers/betController.js:157-162 | setting "won" twice credits the owner twice |
| BetController.UpdateBet | controllers/betController.js:130-175 | the store follows `UpdateBetEffect` |
| UserModel.Validate | server/models/User.js:4-27 | accepted exactly when the trimmed username has 3-20 characters, the email matches and the password has at least 6 |
| UserModel.Subtract | server/models/User.js:114-121 | refused exactly when the balance is below the amount; otherwise the new balance is the difference and non-negative |
| UserModel.AddThenSubtract | server/models/User.js:108-121 | subtracting what was just added restores a non-negative balance |
| UserModel.SubtractAllNonNegative | server/models/User.js:114-121 | a run of subtractions never takes a non-negative balance below zero |
| UserModel.SubtractAll | server/models/User.js:114-121 | a run of non-negative subtractions never raises the balance |
| UserModel.UserDocument.constructor | server/models/User.js:28-35 | a new user has 1000 GoCoins, the default avatar, the member role and no friends |
| UserModel.UserDocument.AddGoCoins | server/models/User.js:108-111 | the balance rises by exactly the amount |
| UserModel.UserDocument.SubtractGoCoins | server/models/User.js:114-121 | fails with no change when the balance is below the amount; otherwise subtracts exactly the amount |
| ServerBet.Validate | server/models/Bet.js:4-14 | accepted exactly when the trimmed title has 1-100 characters and the description has 1-1000 |
| ServerBet.OptionDefaults | server/models/Bet.js:99-102 | an option keeps its name and given odds; missing odds become 1.0; saving it again changes nothing |
| ServerBet.TotalPrizeIsCoins | server/models/Bet.js:135-145 | the total prize is the GoCoin prize, so bets with the same GoCoins have the same total |
| ServerBet.TotalPrizeIgnoresItems | server/models/Bet.js:135-145 | prize items do not change the total |
| ServerBet.AnyParticipant | server/models/Bet.js:148-150 | `some`: true exactly when some participant's user is the id |
| ServerBet.IsParticipant | server/models/Bet.js:148-150 | true exactly when some participant's user is the id |
| ServerBet.IsOpen | server/models/Bet.js:153-159 | open exactly when the status is open, there is room for one more and the clock is before expiry |
| ServerBet.WithParticipant | server/models/Bet.js:62 | the participant is appended at the end and no other field changes |
| ServerBet.JoinMakesParticipant | server/models/Bet.js:148-150 | a joining user becomes a participant and existing participants stay |
| ServerBet.LastPlaceCloses | server/models/Bet.js:153-159 | taking the last place closes the bet |
| ServerBet.OpenUntilExpiry | server/models/Bet.js:153-159 | an open bet stays open exactly until the clock reaches its expiry |
| Giveaway.DrawFresh | server/models/Giveaway.js:136-147 | the retry loop returns exactly what `Retry` computes: 1 to 2n draws, the last index drawn (below n), and calls advanced by the draws made; when it stopped before 2n draws the index is one not yet chosen |
| Giveaway.RetryFresh | server/models/Giveaway.js:141-147 | the index `Retry` returns is below n and is the last draw made; if fewer than 2n draws were made it is a participant not yet chosen |
| Giveaway.ChooseFresh | server/models/Giveaway.js:130-165 | the draw gives each prize a different participant below n, with `selected` holding exactly the winners; it stops before the last prize only when every participant has won or the next prize's retries reached 2n |
| Giveaway.FirstPrizeWon | server/models/Giveaway.js:130-152 | with at least one participant and one prize the first prize always has a winner, since the first draw meets an empty set |
| Giveaway.DrawWinners | server/models/Giveaway.js:126-165 | the `for` loop pushes exactly the picks of `Choose`: winner k is participant `picks[k]` for prize k, unclaimed, prize k records `picks[k]`, and the remaining prizes are unchanged |
| Giveaway.GiveawayDoc.constructor | server/models/Giveaway.js:112-118 | a new giveaway is active with no participants and no winners |
| Giveaway.GiveawayDoc.IsActive | server/models/Giveaway.js:112-118 | active exactly when the status is active, there is room and the clock is before the end |
| Giveaway.GiveawayDoc.SelectWinners | server/models/Giveaway.js:121-171 | no participants: [] and nothing changes; otherwise the winners are exactly the picks of `Choose` in prize order, distinct participants, at least one winner when there is a prize, at most min(prizes, participants) winners, `winnerIndex` set on the prizes drawn for and the rest unchanged, winners replaced and the status completed |
| Profile.Level | public/js/profile.js:513-518 | 1 + floor(created / 10) + floor(won / 5), missing counters read as 0; at least 1 |
| Profile.LevelMonotone | public/js/profile.js:518 | the level never falls as either counter grows |
| Profile.WinRateAsWritten | public/js/profile.js:491-493 | as written: round(100 * won / created) when created > 0, else 0 |
| Profile.WinRateExceedsHundred | public/js/profile.js:491-493 | as written, 1 bet created and 3 won shows 300% |
| Profile.WinRate | public/js/createBet.js:521-524 | the corrected rate over decided bets lies in 0-100 |
| Profile.WinRateExtremes | public/js/createBet.js:521-524 | all decided bets won shows 100%, all lost shows 0% |
| Profile.View | public/js/profile.js:489-499 | the panel shows the counters, the level and the corrected win rate |
| Profile.SetOrKeep | public/js/profile.js:213-214 | a preview replaces the image; without one the old value, or its absence, is kept |
| Profile.Merge | public/js/profile.js:208-215 | only username, email, bio, avatar and banner are overwritten; every other stored field is kept |
| Profile.SaveProfile | public/js/profile.js:186-218 | an empty trimmed username or email refuses the save; otherwise the merged profile |
| Profile.MergeIdempotent | public/js/profile.js:208-215 | merging the same edits twice changes nothing |
| Profile.SaveIdempotent | public/js/profile.js:195-218 | saving the same form twice stores what saving once stores |
| Profile.ProfileStorage.constructor | public/js/profile.js:463-481 | storage holds the given stats and profile |
| Profile.ProfileStorage.UpdateProfileStats | public/js/profile.js:463-503 | defaults are written only when no stats are stored; the panel shows `View` of the stats |
| Profile.ProfileStorage.SaveUserProfile | public/js/profile.js:186-232 | the profile is written exactly when `SaveProfile` succeeds |
| Betting.ParsedAmountDefault | public/js/betting.js:62 | `parseInt(value) \|\| 0`: 0 exactly for an unparsable input or 0, otherwise the parsed value; applying it again changes nothing |
| Betting.SubmitAmount | public/js/betting.js:87-91 | a bet is sent exactly when the amount is positive |
| Betting.DisplayedWinIsShare | public/js/betting.js:18 | the shown win is floor(pot / winners) |
| Betting.WinnerTakesAllBet.constructor | public/js/betting.js:2-8 | a new bet object has no correct guesses |
| Betting.WinnerTakesAllBet.CalculatePotentialWinnings | public/js/betting.js:10-25 | the pot includes the new stake, the winners are `correctGuesses + 1` (at least 1), and each would get the pot divided by the winners; no field changes |
| Betting.WinnerTakesAllBet.UpdateParticipants | public/js/betting.js:27-30 | exactly one participant is appended and the pot is unchanged |
| Betting.FreshEstimate | public/js/betting.js:62-77 | on a fresh bet the preview shows the whole pot, new stake included |
| Navigation.SamePathActive | public/js/navigation.js:33 | a link to the current path is active |
| Navigation.DirectoryActivatesIndex | public/js/navigation.js:34-35 | a directory path activates its `index.html`, and `/` activates `/index.html` |
| Navigation.EmptyHrefAlwaysActive | public/js/navigation.js:36 | an empty href is active on every page |
| Navigation.RootLinkOnlyAtRoot | public/js/navigation.js:33-36 | the `/` link is active exactly at `/` |
| Navigation.IndexLinkOnlyAtHome | public/js/navigation.js:33-36 | the `/index.html` link is active exactly at `/index.html` and `/` |
| Navigation.IsActiveLink | public/js/navigation.js:33-36 | a link without `href` is active exactly when the path contains "null" |
| Navigation.SubpageActivatesSection | public/js/navigation.js:36 | a path containing an href activates it, unless the href is one of the two home links |
| Navigation.MarkActiveLinks | public/js/navigation.js:29-44 | the loop marks exactly the links `IsActiveLink` accepts, in order |

## Findings

| source | as written | input that shows it | evidently intended | confidence | as-written member | corrected member |
|---|---|---|---|---|---|---|
| public/js/login.js:447-466 | `stats.betsWon += 1` on a record without that counter gives NaN, which `JSON.stringify` stores as null | no stored stats, result "win": `betsWon` is stored as null | `(stats.betsWon \|\| 0) + 1`, as public/js/createBet.js:512 does | not executed | Login.FirstWinIsLost | Login.UpdatesCount |
| controllers/userController.js:151-176 | only a missing or zero amount is refused, so a negative deposit is accepted | deposit of -500 on balance 0 gives balance -500 | refuse amounts that are not positive | not executed | UserController.NegativeDepositOverdraws | UserController.BalanceStaysNonNegative |
| public/js/profile.js:491-493 | the win rate is `betsWon / betsCreated`, but bets won include bets joined | 1 bet created, 3 won: 300% | won / (won + lost), as public/js/createBet.js:521-524 does | not executed | Profile.WinRateExceedsHundred | Profile.WinRateExtremes |
| server/controllers/friendController.js:102-103 | accepting pushes onto both friends lists without checking | a and b send each other requests and both accept: each is listed twice | add a friend only when absent | not executed | Friends.CrossedRequestsDuplicateFriends | Friends.AcceptKeepsUnique |

## Left out

- DOM, notifications, dialogs, card rendering and animations. This includes the wheel's rotation angles and betting.js's `updateUI`. They hold no logic beyond what is modelled.
- Floating point.
  - Odds and estimates are exact rationals (`real`) with an explicit floor where the source floors.
  - `toFixed(2)` rounding is not modelled.
  - `Math.round` percentages are integer arithmetic.
- Betting.WinnerTakesAllBet.CalculatePotentialWinnings: the per-person win is an exact rational, not a rounded float.
- BetController.PlaceOutcome: potential winnings are the exact `stake * odds`, not rounded to 2 decimals.
- String amounts and `Number()`/`parseInt` conversion are not modelled. `parseInt` is an `Option<int>` input.
- Common.Trim treats space, tab, newline and carriage return as whitespace. JavaScript's `trim` also removes other Unicode spaces.
- String lengths count `char`s, not UTF-16 code units.
- The email pattern (login.js and the user schema) is a boolean input, not a regular expression.
- bcrypt hashing and comparison, JWT, sessions and the pre-save hooks are not modelled. Passwords are compared as plain strings.
- Mongoose ObjectId casting is not modelled. Ids are strings.
- Randomness (`Math.random`, the id generator) and the clock are parameters.
- Cookie expiry dates are not modelled. `deleteCookie` (public/js/cookies.js:216-218) is not modelled: no core operation calls it.
- The profile's `favoriteGames` are not modelled: no rule applies to them.
- The wheel reads the plan from `gobet_user_plan`, the plans page from `userPlan`. Each script has its own storage view, so the two keys are not linked.
- Friends.FriendController: each load of a user document is a copy. When one request saves the same user twice, the second save wins. Concurrent requests are not modelled.
- The giveaway draw stops as soon as 2n attempts are used, even when the last attempt found a fresh participant. That index is discarded, as in the source.
- `completeBet` never checks the status, and `updateBet` credits on every "won". Both are modelled as written (CreateBet.RepeatedSettlementPaysTwice, BetController.RepeatedWinCreditsTwice).
- Socket.IO relaying, Express routes, server setup and email sending are not modelled.
- The create-bet modal's cap of 10 options is not modelled.
- Trim (Common.Trim): its own contract states only the ends and the empty case; that the result is the input's middle slice with only whitespace dropped is stated by Common.TrimSlice.
- Split (Common.Split): its own contract states only the shape of the pieces; that joining them gives the input back is stated by Common.JoinSplit.
- Lookup (Cookies.Lookup): its own contract promises a matching segment; that it is the first one is stated by Cookies.LookupFirst.
- FirstDigitRun (Wheel.FirstDigitRun): its own contract promises a run of digits exactly when there is a digit; that the run starts at the first digit is stated by Wheel.FirstDigitRunAt.
