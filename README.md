# SennaBot economy engine, modelled in Dafny

SennaBot is a Discord bot with a per-server economy. Each guild has one
JSON document: a map from a member's id to an account record. The record
holds pockets, savings, cooldown stamps, injuries, a prison sentence,
the last time the member was robbed, and a "beat the challenge" flag.
Every economy command is integer bookkeeping over that document:
- work, crime and rob;
- deposit, withdraw and donate;
- the mortician's heal;
- roulette and player-vs-player blackjack;
- the SennaBot balance challenge (a best-of-five blackjack gauntlet);
- prison escapes and the breakout mini-games;
- the owner's medal, injury and cooldown tools;
- the leaderboard.

The project also models the data service that caches and stores the
documents, the per-guild permission table and the themed response texts.

One Dafny module per source file:
- Records holds the account record and the shared helpers.
- `DataService.Store` models the TTL caches in front of the guild files.
- `DataService.Ledger` is one guild's document. The economy commands read
  and write it through get_user_data and the update helpers.

The model takes the source's own form:
- Commands that change state step by step are methods on the ledger, with
  `modifies` clauses. Each is proved against a function that states the
  command's rule. The lemmas beside that function state what the rule
  promises: conservation of medals, balances that stay non-negative,
  sentences that only lengthen.
- Views with buttons are classes. Their fields (lock durability, pins
  solved, bottles left, hands, turn) are updated by one method per button.
  An invariant `Valid()` holds between presses.
- Pure lookups are functions, whose contracts state the table or rule.

Random rolls, shuffles and choices are parameters. So are the current time
and, in the Store and the permission and response managers, the success of
a file write. The economy commands' ledger assumes its saves succeed (see
"## Left out").

## Model

| member | source | states |
|---|---|---|
| DataService.StampLifetime | athena/data_service.py:180-190 | a key stamped at t is valid exactly while now < t + 300; a key with no stamp is never valid |
| DataService.CreateDefaultUser | athena/data_service.py:267-293 | a new record has 0 pockets and the starting balance in savings, all six cooldowns at 0, no injuries, no sentence, never robbed, challenge not beaten; its id is the numeric key and its name the display name or "User_" + key |
| DataService.GetUserDataIdempotent | athena/data_service.py:249-266 | fetching a member twice with no write in between returns the same record and leaves the same document; an existing record is left untouched |
| DataService.Cleanup | athena/data_service.py:348-373 | intended cleanup: every stamp left is younger than the TTL, every unexpired stamp is kept, and each expired key leaves the cache it belongs to (guild, then response, then config) |
| DataService.CleanupAsWrittenKeepsExpiredResponse | athena/data_service.py:362-366 | as written, an expired "response_work" entry is kept in the response cache while its stamp is dropped; the intended cleanup removes it |
| DataService.InvalidateAll | athena/data_service.py:224-230 | intended invalidate_cache(): no cached guild is left, every guild's stamp goes, other stamps and the response and config caches are kept |
| DataService.InvalidateAllAsWrittenKeepsStamp | athena/data_service.py:224-230 | as written, the guild cache is cleared before the stamps are filtered against it, so a cleared guild keeps its stamp |
| DataService.Store.constructor | athena/data_service.py:67-88 | with no settings file the six defaults (version, debug_mode and the four numbers) are cached and written, the file existing afterwards only when the write succeeded; otherwise the file's settings are cached; the stamp is fresh and the cache invariant holds |
| DataService.Store.LoadGuildData | athena/data_service.py:191-212 | a valid cache entry is served without change; otherwise the stored document (file, else backup, else empty) is read and cached with a fresh stamp; unless the guild's last save failed, the result is the stored document |
| DataService.Store.SaveGuildData | athena/data_service.py:232-248 | the cache holds the document with a fresh stamp either way; the result is the write's success; on success the file reads back as the document, on failure the file is unchanged and the cache is ahead of it |
| DataService.Store.InvalidateCache | athena/data_service.py:213-231 | one guild: its entry and stamp go when it is cached, otherwise nothing changes; no guild: the InvalidateAll result |
| DataService.Store.CleanupExpiredCache | athena/data_service.py:348-373 | the caches become exactly the intended Cleanup of the old ones, and the cache invariant is kept |
| DataService.Store.EvictExpired | athena/data_service.py:353-366 | the first loop collects exactly the keys whose timestamp reached the TTL and evicts each from the guild, response or config cache |
| DataService.Store.DropStamps | athena/data_service.py:368-370 | the second loop removes exactly the given timestamps and leaves the caches alone |
| DataService.Store.GetBotSetting | athena/data_service.py:294-305 | a valid cache entry answers (the default when the name or the table is absent); an expired one is reloaded from the settings file first; while the last write succeeded, the answer is the file's setting |
| DataService.Store.SetBotSetting | athena/data_service.py:306-317 | the cached table gets the one setting changed with a fresh stamp; the result is the write's success; on success the file holds that table and reads the new value back, on failure the file is unchanged |
| DataService.Ledger.GetUserData | athena/data_service.py:249-266 | returns the member's record, or the default record, which is then stored; nothing else in the document changes |
| EconomyBase.Cooldown | cogs/economy/economy_base.py:126-137 | ready exactly when the window has fully elapsed since the last use (a missing entry counts as 0); otherwise the remaining time is positive and ends the window exactly |
| EconomyBase.StampBlocks | cogs/economy/economy_base.py:116-137 | right after set_cooldown a positive window is not ready and reports the whole window; the other commands' cooldowns are unchanged |
| EconomyBase.DefaultAccountReady | athena/data_service.py:278-285 | a fresh account is ready for every command once the clock is at least one window past 0 |
| EconomyBase.BalanceRoundTrip | cogs/economy/economy_base.py:80-114 | adding then removing an amount restores the record, and each update moves the total by exactly that amount |
| EconomyBase.TransferKeepsTotal | cogs/economy/banking/account_cmds.py:76-78 | moving an amount between pockets and savings, either way, keeps pockets + savings |
| EconomyBase.PayPocketsFirst | cogs/economy/status/mortician_cmds.py:90-96 | the total drops by exactly the amount; pockets pay first and savings pay the rest |
| EconomyBase.PayPocketsFirstSolvent | cogs/economy/status/mortician_cmds.py:83-96 | with non-negative pockets and enough in total, neither balance goes negative |
| EconomyBase.CriticalPayoutBounds | cogs/economy/activities/work_cmds.py:76-82 | a critical payout lies between base * min and base * max multipliers; otherwise it is the base |
| EconomyBase.GetPockets | cogs/economy/economy_base.py:70-73 | returns the member's pockets, creating the record when absent |
| EconomyBase.GetSavings | cogs/economy/economy_base.py:75-78 | returns the member's savings, creating the record when absent |
| EconomyBase.UpdatePockets | cogs/economy/economy_base.py:80-96 | pockets become old + amount, with no clamping, and the new balance is returned; no other field or member changes |
| EconomyBase.UpdateSavings | cogs/economy/economy_base.py:98-114 | savings become old + amount and the new balance is returned; no other field or member changes |
| EconomyBase.SetCooldown | cogs/economy/economy_base.py:116-124 | the command's last use becomes now; no other field changes |
| EconomyBase.CheckCooldown | cogs/economy/economy_base.py:126-137 | returns the Cooldown verdict of the member's record and changes nothing but the record's creation |
| EconomyBase.HandleCooldown | cogs/economy/economy_base.py:139-184 | proceeds exactly when the cooldown is ready, and stamps it only then |
| EconomyBase.CheckPrisonStatus | cogs/economy/economy_base.py:35-47 | passes exactly when the member has no sentence, whatever its release time |
| EconomyBase.CheckBalanceChallenge | cogs/economy/economy_base.py:49-68 | passes exactly when the member is not registered in a balance challenge |
| InjurySystem.TierOf | cogs/economy/status/injury_system.py:19-100 | Healthy exactly below one injury; otherwise the highest tier of the table whose threshold the count reaches |
| InjurySystem.GetInjuryTier | cogs/economy/status/injury_system.py:88-100 | the loop over the reversed table returns TierOf |
| InjurySystem.TierMonotone | cogs/economy/status/injury_system.py:19-73 | more injuries never lower the tier, the heal cost or the fail, death and prison modifiers |
| InjurySystem.FailRate | cogs/economy/status/injury_system.py:102-115 | the base rate plus the tier modifier, capped at 95 and never below the base |
| InjurySystem.FailRateRanges | cogs/economy/status/injury_system.py:75-115 | rob fails 55..80% and crime 51..76%, so the cap never applies |
| InjurySystem.OutcomeChance | cogs/economy/status/injury_system.py:117-133 | death and prison add the member's tier modifiers; other kinds, and calls without a member, return the base chance |
| InjurySystem.EscapeChanceModifier | cogs/economy/status/injury_system.py:171-186 | -25, -15, -5, -3 or 0 for 4+, 3, 2, 1 or no injuries |
| InjurySystem.HealCost | cogs/economy/status/injury_system.py:188-191 | 0, 10, 15, 30 or 50 for 0, 1, 2, 3 or 4+ injuries |
| InjurySystem.InjuryOpsKeepConsistency | cogs/economy/status/injury_system.py:193-228 | injuring adds one and healing zeroes the count; both keep injured == (injuries > 0) and touch no other field |
| InjurySystem.AddInjury | cogs/economy/status/injury_system.py:193-205 | an existing member gets one more injury and the new count is returned; an absent member only gets a default record and no count |
| InjurySystem.HealInjuries | cogs/economy/status/injury_system.py:207-228 | the member's injuries become 0 and injured false, creating a record when absent |
| InjurySystem.GetInjuryStatus | cogs/economy/status/injury_system.py:230-243 | the count, tier name, heal cost and effects of the member's tier |
| InjurySystem.Status | cogs/economy/status/injury_system.py:258-320 | /status creates the member's record when absent and clears a sentence whose release time has come, leaving no expired sentence and changing nothing else; a member checking themselves then gets only the served-time notice, anyone else the report, which shows the tier, heal cost and effects of the member's injuries and the sentence only while it runs |
| AccountCmds.ParseAmount | cogs/economy/banking/account_cmds.py:65-99 | the result is All exactly when the lower-cased argument, unstripped, is "all"; otherwise int()'s reading: after stripping whitespace, a numeral (digit groups joined by single underscores) is its value, a numeral after '-' or '+' is that value negated or kept, and it is not a number exactly when neither form matches |
| AccountCmds.ParseAmountExamples | cogs/economy/banking/account_cmds.py:65-99 | "ALL" and "aLl" mean all, "25" is 25, "" is refused |
| AccountCmds.ParseAmountDigits | cogs/economy/banking/account_cmds.py:87-88 | every plain digit string is read as its decimal value |
| AccountCmds.ParseAmountPadded | cogs/economy/banking/account_cmds.py:87-88 | whitespace before and after the digits is ignored, as int() strips it |
| AccountCmds.ParseAmountSigned | cogs/economy/banking/account_cmds.py:87-88 | "-" before digits negates the amount and "+" keeps it |
| AccountCmds.ParseAmountGrouped | cogs/economy/banking/account_cmds.py:87-88 | two digit groups joined by one underscore read as the digits run together |
| AccountCmds.ParseAmountDoubleUnderscore | cogs/economy/banking/account_cmds.py:87-95 | a doubled underscore between digits is refused as not a number |
| AccountCmds.MoveAmount | cogs/economy/banking/account_cmds.py:54-128 | a move happens exactly when the balance is non-negative and the amount is "all" of a positive balance or a number in 1..balance; a negative balance and a non-number are refused with their own messages |
| AccountCmds.DepositRule | cogs/economy/banking/account_cmds.py:44-128 | prison blocks first, then a running challenge, then MoveAmount on pockets; only a move changes the record, pockets to savings |
| AccountCmds.WithdrawRule | cogs/economy/banking/account_cmds.py:131-217 | the same guards, then MoveAmount on savings; only a move changes the record, savings to pockets |
| AccountCmds.BankingKeepsTotal | cogs/economy/banking/account_cmds.py:76-128 | deposit and withdraw keep pockets + savings, never overdraw the source, and "all" empties it |
| AccountCmds.DepositWithdrawRoundTrip | cogs/economy/banking/account_cmds.py:44-217 | depositing n and withdrawing n restores the record |
| AccountCmds.Balance | cogs/economy/banking/account_cmds.py:27-43 | returns the member's pockets and savings, creating the record when absent |
| AccountCmds.Deposit | cogs/economy/banking/account_cmds.py:44-128 | the ledger ends as DepositRule says, and its outcome is returned |
| AccountCmds.Withdraw | cogs/economy/banking/account_cmds.py:131-217 | the ledger ends as WithdrawRule says, and its outcome is returned |
| AccountCmds.DonateRule | cogs/economy/banking/account_cmds.py:218-300 | a donation happens exactly when the donor is free, not in a challenge, not giving to themselves, gives 1..total, and has no negative balance; the donor pays pockets first and the target's pockets get the full amount |
| AccountCmds.DonationConserves | cogs/economy/banking/account_cmds.py:280-300 | the donor loses and the target gains exactly the amount, and the donor stays solvent |
| AccountCmds.PayDonation | cogs/economy/banking/account_cmds.py:280-300 | the paying steps: pockets first, then savings, then the target's pockets |
| AccountCmds.Donate | cogs/economy/banking/account_cmds.py:218-300 | the ledger ends as DonateRule says, and its outcome is returned |
| MorticianCmds.MorticianRule | cogs/economy/status/mortician_cmds.py:31-106 | a heal happens exactly when the member is held in neither the Mortician Wing nor Jaeger Camp, is injured, can pay the tier's price in total and has non-negative pockets; it pays pockets first and clears the injuries |
| MorticianCmds.HealingPaysAndCures | cogs/economy/status/mortician_cmds.py:83-100 | a heal costs exactly the tier's price (10..50), leaves the member healthy and solvent, and keeps the sentence |
| MorticianCmds.SeeMortician | cogs/economy/status/mortician_cmds.py:31-106 | the ledger ends as MorticianRule says, and its outcome is returned |
| MorticianCmds.PayFromPocketsFirst | cogs/economy/status/mortician_cmds.py:91-96 | the price comes out of pockets first and the remainder out of savings, exactly as PayPocketsFirst |
| WorkCmds.WorkRule | cogs/economy/activities/work_cmds.py:35-105 | prison blocks, then a running challenge, then the 60-second cooldown; otherwise the wage (multiplied on a critical roll) is added to pockets and the cooldown is stamped |
| WorkCmds.WorkPayoutRange | cogs/economy/activities/work_cmds.py:64-82 | with in-range draws and the default settings, work pays 4..12, or 12..60 on a critical |
| WorkCmds.WorkPaysThenBlocks | cogs/economy/activities/work_cmds.py:44-105 | work never lowers pockets, and a second /work within the minute reports exactly the time left |
| WorkCmds.Work | cogs/economy/activities/work_cmds.py:35-105 | the ledger ends as WorkRule says, and its outcome is returned |
| CrimeCmds.Death | cogs/economy/activities/crime_cmds.py:47-77 | pockets are emptied and reported; with savings of 10 or more, int(savings * 0.1) (at least 1) is taken; otherwise the member goes to the Officer Group for an hour |
| CrimeCmds.DeathKeepsSavingsSign | cogs/economy/activities/crime_cmds.py:47-77 | a death never leaves negative savings, and never raises the total unless pockets were negative |
| CrimeCmds.HandleDeath | cogs/economy/activities/crime_cmds.py:47-77 | the ledger steps produce exactly Death of the member's record |
| CrimeCmds.CrimeRule | cogs/economy/activities/crime_cmds.py:78-249 | the three guards; then a fail roll of 51 or less fails (cooldown first, then death on an outcome roll of 15 or less, a fine up to 80, the Soldat Brigade above), and a higher roll pays the reward, multiplied on a critical |
| CrimeCmds.CrimePayoutRange | cogs/economy/activities/crime_cmds.py:203-246 | with in-range draws a successful crime pays 15..35, or 45..175 on a default critical |
| CrimeCmds.CrimeFailureNeverPays | cogs/economy/activities/crime_cmds.py:111-202 | a failed crime never raises the total and leaves savings non-negative |
| CrimeCmds.CrimeBlocksRetry | cogs/economy/activities/crime_cmds.py:129-246 | a crime that went through blocks another for the whole 75-second window |
| CrimeCmds.Crime | cogs/economy/activities/crime_cmds.py:78-249 | the ledger ends as CrimeRule says, and its outcome is returned |
| CrimeCmds.CrimeFailureStep | cogs/economy/activities/crime_cmds.py:111-202 | the failure branch on the ledger: the cooldown is stamped first, then the record gets death, the fine with an injury, or the Soldat Brigade, as the failure rule says |
| CrimeCmds.CrimeSuccessStep | cogs/economy/activities/crime_cmds.py:203-249 | the success branch on the ledger: the (possibly critical) reward is added to pockets and the cooldown is stamped, and nothing else changes |
| RobCmds.VictimCheck | cogs/economy/activities/rob_cmds.py:66-76 | a target can be robbed once 600 seconds have passed since the last theft; otherwise the remaining time ends that window exactly |
| RobCmds.Stolen | cogs/economy/activities/rob_cmds.py:233-240 | pockets under 15 are taken whole; otherwise the draw, raised to at least 15 |
| RobCmds.StolenBounds | cogs/economy/activities/rob_cmds.py:220-240 | with an in-range draw the thief takes between min(pockets, 15) and the pockets, and always more than 5 |
| RobCmds.RobRule | cogs/economy/activities/rob_cmds.py:88-257 | self-robbery is refused with no change; the robber's prison and challenge guards, the victim's protection and the robber's cooldown come next; only the robber and the target can change, and the cooldown is stamped before the roll |
| RobCmds.RobFailure | cogs/economy/activities/rob_cmds.py:129-218 | a failed robbery ends in death, a fine with an injury, or the Soldat Brigade, and keeps the already-stamped cooldowns |
| RobCmds.RobProceed | cogs/economy/activities/rob_cmds.py:124-257 | past the guards the cooldown is stamped, no other record than the robber's and the target's changes, and the target changes only on a theft, which starts its protection |
| RobCmds.RobConservesMedals | cogs/economy/activities/rob_cmds.py:233-247 | a theft moves exactly the stolen amount from the target's pockets to the robber's |
| RobCmds.RobVictimStaysSolvent | cogs/economy/activities/rob_cmds.py:220-244 | with an in-range draw a victim never ends with negative pockets, and loses more than 5 |
| RobCmds.RobProtectsVictim | cogs/economy/activities/rob_cmds.py:78-87 | a robbed member cannot be robbed again, by anyone, for the next 600 seconds |
| RobCmds.RobFailureBandsUninjured | cogs/economy/activities/rob_cmds.py:125-172 | for an uninjured robber the fail rate is 55 and a failure splits 15 death, 65 fine and injury, 20 prison |
| RobCmds.RobFailureBandsCritical | cogs/economy/activities/rob_cmds.py:125-172 | for a critically injured robber the fail rate is 80 and a failure splits 40 death, 10 fine and injury, 50 prison |
| RobCmds.RobInjuryAddsOne | cogs/economy/activities/rob_cmds.py:172-189 | a fined robber loses the fine from pockets and gains exactly one injury |
| RobCmds.SetLastRobbed | cogs/economy/activities/rob_cmds.py:78-87 | the target's protection starts now, creating the record when absent |
| RobCmds.CheckLastRobbed | cogs/economy/activities/rob_cmds.py:66-76 | returns VictimCheck of the target's record, creating it when absent |
| RobCmds.RobFailureStep | cogs/economy/activities/rob_cmds.py:129-218 | the failure branch's ledger steps give the robber's record the failure rule |
| RobCmds.RobTheftStep | cogs/economy/activities/rob_cmds.py:219-257 | pockets of 5 or less: nothing changes; otherwise the stolen amount moves to the robber and the target's protection starts |
| RobCmds.RobAfterGuards | cogs/economy/activities/rob_cmds.py:120-257 | the steps after the guards: stamp the cooldown, roll, then one of the two branches |
| RobCmds.Rob | cogs/economy/activities/rob_cmds.py:88-257 | the ledger ends as RobRule says, and its outcome is returned |
| RouletteGame.Landing | cogs/economy/games/roulette_game.py:100-104 | the weighted draw over 37 equally likely spins: 18 purple, 18 yellow, 1 green |
| RouletteGame.RouletteRule | cogs/economy/games/roulette_game.py:37-133 | a bet is placed exactly when the member is free, not in a challenge, off cooldown and bets 1..pockets; the stake is deducted, a hit pays bet * 2 (purple, yellow) or bet * 14 (green), and the cooldown is set; a refusal changes nothing |
| RouletteGame.RouletteNeverOverdraws | cogs/economy/games/roulette_game.py:67-114 | a placed bet loses at most the stake, so pockets stay non-negative |
| RouletteGame.HouseEdge | cogs/economy/games/roulette_game.py:100-111 | summed over the 37 spins, a bet on purple or yellow loses one stake and a bet on green loses 23 |
| RouletteGame.Roulette | cogs/economy/games/roulette_game.py:37-133 | the ledger ends as RouletteRule says, and its outcome is returned |
| RouletteGame.PlaceBet | cogs/economy/games/roulette_game.py:88-133 | the stake leaves pockets, a hit on the chosen colour pays bet times the multiplier back, and the cooldown is stamped either way |
| LeaderboardCmds.InjuryLabel | cogs/economy/banking/leaderboard_cmds.py:51-64 | a tier name only for a record flagged injured with a positive count, the tier of that count; otherwise Healthy |
| LeaderboardCmds.EntriesOf | cogs/economy/banking/leaderboard_cmds.py:39-66 | only numeric keys get an entry, at most one per item |
| LeaderboardCmds.EntriesOfComplete | cogs/economy/banking/leaderboard_cmds.py:39-66 | every member record gets its entry (total = pockets + savings), and every entry comes from one record |
| LeaderboardCmds.BuildEntries | cogs/economy/banking/leaderboard_cmds.py:39-66 | the append loop builds exactly EntriesOf |
| LeaderboardCmds.Insert | cogs/economy/banking/leaderboard_cmds.py:69 | insertion adds exactly the one entry |
| LeaderboardCmds.InsertSorted | cogs/economy/banking/leaderboard_cmds.py:69 | inserting into a list sorted highest first keeps it sorted |
| LeaderboardCmds.SortSorted | cogs/economy/banking/leaderboard_cmds.py:69 | the sort puts the highest total first |
| LeaderboardCmds.SortPermutes | cogs/economy/banking/leaderboard_cmds.py:69 | the sort is a permutation of its input |
| LeaderboardCmds.InsertStable | cogs/economy/banking/leaderboard_cmds.py:69 | an inserted entry goes ahead of every entry with its own total |
| LeaderboardCmds.SortStable | cogs/economy/banking/leaderboard_cmds.py:69 | the sort is stable: the entries with one total keep their document order |
| LeaderboardCmds.Ranked | cogs/economy/banking/leaderboard_cmds.py:74-98 | one line per sorted entry, numbered from 1 |
| LeaderboardCmds.Leaderboard | cogs/economy/banking/leaderboard_cmds.py:25-110 | an empty document means "no data"; otherwise the lines rank the sorted entries |
| LeaderboardCmds.LeaderboardProperties | cogs/economy/banking/leaderboard_cmds.py:39-98 | every member is listed exactly once, totals do not increase down the list, and the ranks are 1, 2, 3, ... |
| PrisonSystem.TierNamed | cogs/economy/prison/prison_system.py:19-27 | the table entry with the given name, or none when no tier has it |
| PrisonSystem.FirstCovering | cogs/economy/prison/prison_system.py:44-53 | the first tier from i on whose running total reaches the roll, or the last tier |
| PrisonSystem.WeightsSumToTotal | cogs/economy/prison/prison_system.py:19-27 | the seven draw weights add up to 100 |
| PrisonSystem.RollBands | cogs/economy/prison/prison_system.py:34-53 | a roll of 1 to 35 draws exactly the Officer Group, and a roll of 96 to 100 exactly the Jaeger Camp |
| PrisonSystem.TierIndexForRollInterval | cogs/economy/prison/prison_system.py:34-53 | a roll in 1..100 selects tier i exactly when it lies above the weights of the tiers before i and within those up to i |
| PrisonSystem.SelectPrisonTier | cogs/economy/prison/prison_system.py:34-53 | the running-total loop returns the tier the roll selects |
| PrisonSystem.FirstCoveringIs | cogs/economy/prison/prison_system.py:44-53 | the first covering tier is unique: any index with both properties is it |
| PrisonSystem.FormatTime | cogs/economy/prison/prison_system.py:55-65 | hours:minutes:seconds when there are hours, minutes and seconds when there are minutes, seconds alone otherwise; the parts add back up to the input |
| PrisonSystem.InjuryDebuff | cogs/economy/prison/prison_system.py:67-96 | no debuff unless the record is flagged injured with a positive count; otherwise -25, -15, -5 or -3 by count, always within -25..0 |
| PrisonSystem.PrisonEscapeModifier | cogs/economy/prison/prison_system.py:67-96 | an absent member has no debuff; otherwise the record's InjuryDebuff |
| PrisonSystem.AutoRelease | cogs/economy/prison/prison_system.py:98-120 | an expired sentence is cleared; nothing else changes |
| PrisonSystem.IsInPrison | cogs/economy/prison/prison_system.py:98-120 | true exactly for an unexpired sentence; an expired one is cleared on the way |
| PrisonSystem.GetPrisonTier | cogs/economy/prison/prison_system.py:122-147 | the tier of an unexpired sentence, or none; an expired one is cleared |
| PrisonSystem.ReleaseTimeDecidesSentence | cogs/economy/prison/prison_system.py:98-164 | get_release_time and is_in_prison agree: a member is in prison at now exactly when a release time is stored and now is before it; the auto-release clears the sentence exactly when a release time is stored and now has reached it, after which only an unexpired release time can still be read |
| PrisonSystem.UnnamedUserOf | cogs/economy/prison/prison_system.py:171-177 | the stored record, or for an absent member the default record named "User_" + key, since send_to_prison passes no display name |
| PrisonSystem.SendToPrison | cogs/economy/prison/prison_system.py:166-190 | the member's sentence becomes the tier (a drawn one when the tier is empty), ending duration seconds from now; an absent member gets a default record named "User_" + key; nothing else changes |
| PrisonSystem.ReleaseFromPrison | cogs/economy/prison/prison_system.py:192-211 | clears a sentence and reports true; false and no change when there is none |
| PrisonSystem.ExtendPrisonTime | cogs/economy/prison/prison_system.py:213-233 | moves the release time back by the amount and reports true; false and no change when there is none |
| PrisonSystem.ReleasedAll | cogs/economy/prison/prison_system.py:250-283 | the startup sweep clears exactly the expired sentences of member records and keeps every key |
| PrisonSystem.ReleasedAllClearsExpired | cogs/economy/prison/prison_system.py:250-283 | after the sweep no member holds an expired sentence, and no unexpired sentence is lost |
| PrisonSystem.ReleaseExpiredSentences | cogs/economy/prison/prison_system.py:250-283 | the sweep loop leaves the document as ReleasedAll says |
| EscapeCmds.EscapeDeathRule | cogs/economy/prison/escape_cmds.py:39-95 | with under 25 savings the member goes to a drawn tier for an hour and keeps every medal; otherwise pockets are emptied, a quarter of savings is taken, and the sentence and injuries are cleared |
| EscapeCmds.EscapeDeathFineBounds | cogs/economy/prison/escape_cmds.py:62-95 | a fined death takes at least 6 medals, leaves three quarters of savings, frees and heals; an imprisoned death keeps the total and uses a table tier |
| EscapeCmds.TierNames | cogs/economy/prison/prison_system.py:19-27 | every tier of the table has its name in the set |
| EscapeCmds.HandleDeath | cogs/economy/prison/escape_cmds.py:39-95 | the ledger steps produce exactly EscapeDeathRule of the member's record |
| EscapeCmds.EscapeChance | cogs/economy/prison/escape_cmds.py:174-181 | the tier's chance plus the injury debuff, never below 5 and never above the tier's chance; an unhurt member gets the tier's chance |
| EscapeCmds.FailurePenalty | cogs/economy/prison/escape_cmds.py:206-300 | the per-tier penalty: none, 5, 10 or 15 savings (Lancer adds an injury below 4), Rook adds 30 minutes and an injury below 4, Mortician takes 20 savings at 4 injuries, else raises the count to 4 or 3 |
| EscapeCmds.EscapeRule | cogs/economy/prison/escape_cmds.py:96-317 | cooldown first, then the sentence check, then the stamp; an unknown tier is an error and Jaeger Camp opens the box view; otherwise a roll at or under the chance frees the member and a higher roll applies the tier's penalty |
| EscapeCmds.EscapeChanceRange | cogs/economy/prison/escape_cmds.py:174-186 | every rolled chance lies in 5..75; an unhurt Officer Group prisoner gets 75 and a critically injured Mortician Wing prisoner gets 5 |
| EscapeCmds.EscapeFailureKeepsSentence | cogs/economy/prison/escape_cmds.py:206-300 | a failed escape keeps the tier, never shortens the sentence, never pays out or heals, costs at most 20 savings and keeps injured == (injuries > 0) |
| EscapeCmds.EscapeBlocksRetry | cogs/economy/prison/escape_cmds.py:103-139 | an attempt stamps the cooldown, so a second /escape at the same instant is refused |
| EscapeCmds.ApplyFailurePenalty | cogs/economy/prison/escape_cmds.py:206-300 | the ledger steps of a failure produce exactly FailurePenalty |
| EscapeCmds.Escape | cogs/economy/prison/escape_cmds.py:96-317 | the ledger ends as EscapeRule says, and its outcome is returned |
| JaegerEscape.ShuffleIsPermutation | cogs/economy/prison/ui_components/jaeger_components.py:30-36 | a shuffle puts each of the four outcomes behind exactly one button |
| JaegerEscape.DeathPenalty | cogs/economy/prison/ui_components/jaeger_components.py:62-133 | a quarter of savings when that is at least one medal, otherwise a flat 75 |
| JaegerEscape.Slain | cogs/economy/prison/ui_components/jaeger_components.py:62-133 | killed by the Jaegers: pockets emptied, the death charge taken from savings, then freed and healed; nothing else changes |
| JaegerEscape.SlainSavings | cogs/economy/prison/ui_components/jaeger_components.py:62-133 | with at least 4 savings three quarters are kept; a poorer member goes at most 75 into debt |
| JaegerEscape.Extended | cogs/economy/prison/ui_components/jaeger_components.py:134-202 | a sentence, if any, is pushed back by the seconds given |
| JaegerEscape.OneHealed | cogs/economy/prison/ui_components/jaeger_components.py:163-185 | one injury fewer, with injured kept as injuries > 0; nothing for an unhurt member |
| JaegerEscape.BoxRule | cogs/economy/prison/ui_components/jaeger_components.py:44-202 | the knife frees on the 45% roll and otherwise kills; the injury box adds an injury below 4 and 30 minutes; the heal box costs 20 savings and heals one; the watch adds 15 minutes |
| JaegerEscape.BoxesKeepSentence | cogs/economy/prison/ui_components/jaeger_components.py:44-202 | only the knife can end the sentence; the other boxes keep the tier, never shorten it and never touch pockets; every box keeps injured == (injuries > 0) |
| JaegerEscape.ApplyDeath | cogs/economy/prison/ui_components/jaeger_components.py:62-133 | the ledger steps of a Jaeger death produce exactly Slain |
| JaegerEscape.EscapeJaegerView.constructor | cogs/economy/prison/ui_components/jaeger_components.py:19-42 | the view holds the prisoner and a shuffle of the four outcomes, not yet opened |
| JaegerEscape.EscapeJaegerView.Press | cogs/economy/prison/ui_components/jaeger_components.py:44-202 | anyone but the prisoner is turned away with no change; the prisoner's press opens that box, ends the view and applies BoxRule |
| JaegerEscape.EscapeJaegerView.OnTimeoutAsWritten | cogs/economy/prison/ui_components/jaeger_components.py:204-264 | as written, the handler reads an attribute the view never sets, the error is swallowed, and nothing changes |
| JaegerEscape.EscapeJaegerView.OnTimeout | cogs/economy/prison/ui_components/jaeger_components.py:204-264 | as intended: the prisoner who walked away dies in the camp |
| JaegerEscape.TimeoutPenaltyLost | cogs/economy/prison/ui_components/jaeger_components.py:204-264 | for a prisoner with a sentence, medals or injuries the intended timeout changes the record, so the as-written no-op loses the penalty |
| BreakoutCmds.GameFor | cogs/economy/prison/breakout_cmds.py:113-179 | each of the seven tier names opens its own mini-game (Jaeger Camp the path game); any other name opens none |
| BreakoutCmds.GameForIsInjective | cogs/economy/prison/breakout_cmds.py:113-179 | different tiers open different games |
| BreakoutCmds.EveryGameHasATier | cogs/economy/prison/breakout_cmds.py:113-179 | every mini-game belongs to some tier of the table |
| BreakoutCmds.BreakoutRule | cogs/economy/prison/breakout_cmds.py:46-185 | intended flow: the helper's prison and challenge checks, no self or bot target, the target's record (created when absent) and sentence, the cooldown (stamped when it passes), then the tier's game or the unknown-tier error |
| BreakoutCmds.BreakoutOncePerWindow | cogs/economy/prison/breakout_cmds.py:96-110 | opening a game stamps the cooldown, so the same request again at once is refused for the full window |
| BreakoutCmds.BreakoutMovesNoMedals | cogs/economy/prison/breakout_cmds.py:46-185 | no breakout request moves medals or changes anyone's sentence or injuries |
| BreakoutCmds.Breakout | cogs/economy/prison/breakout_cmds.py:46-185 | the ledger ends as BreakoutRule says, and its outcome is returned |
| BreakoutCmds.TargetStage | cogs/economy/prison/breakout_cmds.py:75-179 | after the helper checks: no sentence refuses, a running cooldown refuses with its remaining time, otherwise the cooldown is stamped and the tier picks the game (or is unknown); only the target record and the helper stamp change |
| BreakoutCmds.OpenGame | cogs/economy/prison/breakout_cmds.py:75-179 | the target-side steps once the helper's record exists: target record, sentence, cooldown, stamp, game choice |
| BreakoutCmds.BreakoutAsWritten | cogs/economy/prison/breakout_cmds.py:48-54 | as written, the first guard calls a helper the base class does not define, so every call fails before any state is read or written |
| BreakoutCmds.EligibleHelperOpensGame | cogs/economy/prison/breakout_cmds.py:46-122 | a free helper off cooldown asking for an Officer Group prisoner would open the door game, which the as-written command never reaches |
| BreakoutViews.EndingsTouchOneSide | cogs/economy/prison/ui_components/breakout_components.py:56-93 | freeing changes only the target's sentence; jailing changes only the helper's record, which then holds an hour in the tier (plus one injury when hurt) |
| BreakoutViews.GuardChance | cogs/economy/prison/ui_components/breakout_components.py:38-46 | the tier's chance plus the helper's injury debuff, at least 5 |
| BreakoutViews.GuardChanceRanges | cogs/economy/prison/ui_components/breakout_components.py:38-46 | an Officer Group breakout succeeds on 50..75 of 100 rolls and an Old Guards one on 40..65; an absent helper gets the full 75 |
| BreakoutViews.GuardsView.constructor | cogs/economy/prison/ui_components/breakout_components.py:22-31 | a fresh Officer Group or Old Guards view for a helper and another member |
| BreakoutViews.GuardsView.Press | cogs/economy/prison/ui_components/breakout_components.py:33-93 | anyone but the helper is turned away with no change; otherwise a roll at or under GuardChance frees the target, and a higher roll jails the helper in the tier for an hour |
| BreakoutViews.SoldatView.constructor | cogs/economy/prison/ui_components/breakout_components.py:174-186 | a fresh view with the correct door among 1..2 |
| BreakoutViews.SoldatView.Press | cogs/economy/prison/ui_components/breakout_components.py:188-238 | the helper's correct pick frees the target; a wrong pick jails the helper in the Soldat Brigade |
| BreakoutViews.OtherDoors | cogs/economy/prison/ui_components/breakout_components.py:283-290 | after a wrong first pick the three other doors, in order, without the one chosen |
| BreakoutViews.LancerView.constructor | cogs/economy/prison/ui_components/breakout_components.py:243-255 | a fresh view at the first pick with the correct door among 1..4 |
| BreakoutViews.LancerView.PickFirst | cogs/economy/prison/ui_components/breakout_components.py:257-301 | a correct first pick frees the target; a miss re-draws the correct door among the other three and offers a second pick |
| BreakoutViews.LancerView.PickSecond | cogs/economy/prison/ui_components/breakout_components.py:303-358 | a correct second pick frees the target; a miss jails and injures the helper in the Lancer Legion |
| BreakoutViews.FreshLock | cogs/economy/prison/ui_components/breakout_components.py:363-378 | a fresh lock is in play with seven presses of effort left (3 pins + 4 durability) |
| BreakoutViews.PickPin | cogs/economy/prison/ui_components/breakout_components.py:392-489 | the right pin sets it and keeps durability; a wrong pin costs one durability; either way the effort drops by one |
| BreakoutViews.PickingHasChoices | cogs/economy/prison/ui_components/breakout_components.py:380-390 | a lock in play always offers the next pin and a wrong pin, and ends within its remaining effort (at most 7 from fresh) |
| BreakoutViews.RookView.constructor | cogs/economy/prison/ui_components/breakout_components.py:363-378 | a fresh lock with a secret of three distinct pins among 1..4 |
| BreakoutViews.RookView.Press | cogs/economy/prison/ui_components/breakout_components.py:392-489 | the lock moves by PickPin; all three pins set frees the target, durability 0 jails and injures the helper in the Rook Division, otherwise play continues |
| BreakoutViews.Remove | cogs/economy/prison/ui_components/breakout_components.py:579 | list.remove drops exactly one occurrence of the element |
| BreakoutViews.RemoveDistinct | cogs/economy/prison/ui_components/breakout_components.py:579 | removing from a list without repeats keeps it without repeats and drops exactly that element |
| BreakoutViews.BottlesDistinct | cogs/economy/prison/ui_components/breakout_components.py:512 | the six bottle colours are distinct |
| BreakoutViews.MorticianView.constructor | cogs/economy/prison/ui_components/breakout_components.py:494-538 | a fresh view with all six bottles and the Amatoxin among them |
| BreakoutViews.MorticianView.Press | cogs/economy/prison/ui_components/breakout_components.py:540-615 | the Amatoxin jails the helper with Needs Surgery; a safe bottle is removed, and the target is freed once only the Amatoxin is left |
| BreakoutViews.MorticianNeedsFiveSafePicks | cogs/economy/prison/ui_components/breakout_components.py:579-582 | with distinct bottles, only the Amatoxin is left exactly when one bottle is left, so five safe picks are needed from six |
| BreakoutViews.PathChance | cogs/economy/prison/ui_components/breakout_components.py:660-666 | a step is safe on 48 plus the helper's injury debuff, which lies in 23..48 |
| BreakoutViews.HurtAddsOneInjury | cogs/economy/prison/ui_components/breakout_components.py:717-745 | a bad step reads the helper's status first, so the record exists and gets exactly one more injury (a helper with no record ends with one); nobody else changes; it leads to the boxes exactly when the helper had 3 or more injuries |
| BreakoutViews.JaegerPathView.constructor | cogs/economy/prison/ui_components/breakout_components.py:620-652 | a fresh path with no steps taken |
| BreakoutViews.JaegerPathView.Press | cogs/economy/prison/ui_components/breakout_components.py:654-760 | only the helper may step, and each step counts; the eighth frees the target whatever the roll; before that a roll within the chance changes nothing, and a roll over it reads the helper's status (creating the record), adds one injury, and opens the boxes exactly at Critical Condition |
| BreakoutViews.BoxShuffleIsPermutation | cogs/economy/prison/ui_components/breakout_components.py:777-788 | a shuffle puts each of the four outcomes behind exactly one box |
| BreakoutViews.KnifeTax | cogs/economy/prison/ui_components/breakout_components.py:818-828 | 75 when the target's savings are not positive, else a quarter of them (possibly 0) |
| BreakoutViews.BoxesRule | cogs/economy/prison/ui_components/breakout_components.py:790-968 | the helper is jailed in Jaeger Camp for an hour (15 minutes more with the watch) except when the knife frees both; the knife kills the target on the 55% roll; the watch extends, the supplies heal one and the card injures the target; no one else changes |
| BreakoutViews.BoxesMoveOnlyTargetMedals | cogs/economy/prison/ui_components/breakout_components.py:790-968 | no box moves the helper's medals; only the knife moves the target's, downwards or into a debt of at most 75 |
| BreakoutViews.Stab | cogs/economy/prison/ui_components/breakout_components.py:812-868 | the knife's ledger steps on a present target: empty pockets, charge savings, then free and heal |
| BreakoutViews.OpenKnife | cogs/economy/prison/ui_components/breakout_components.py:810-890 | the knife branch produces BoxesRule for the knife |
| BreakoutViews.OpenWatch | cogs/economy/prison/ui_components/breakout_components.py:891-914 | the watch branch produces BoxesRule for the watch |
| BreakoutViews.OpenMedical | cogs/economy/prison/ui_components/breakout_components.py:915-943 | the supplies branch produces BoxesRule for the supplies |
| BreakoutViews.OpenJoker | cogs/economy/prison/ui_components/breakout_components.py:944-968 | the card branch produces BoxesRule for the card |
| BreakoutViews.JaegerBoxesView.constructor | cogs/economy/prison/ui_components/breakout_components.py:765-788 | a fresh view over a shuffle of the four outcomes |
| BreakoutViews.JaegerBoxesView.Press | cogs/economy/prison/ui_components/breakout_components.py:790-968 | anyone but the helper is turned away; the helper's press opens that box, ends the view and applies BoxesRule |
| BreakoutViews.JaegerBoxesView.OnTimeout | cogs/economy/prison/ui_components/breakout_components.py:970-1039 | a helper who leaves the boxes unopened is killed as in the Jaeger escape |
| OwnerEcoCmds.Credited | cogs/admin/owner_eco_cmds.py:49-94 | "pockets" credits pockets and any other account credits savings; the total rises by the amount |
| OwnerEcoCmds.Debited | cogs/admin/owner_eco_cmds.py:95-155 | "pockets" and "savings" debit that balance with no floor; "both" takes pockets first and then savings; the total falls by the amount |
| OwnerEcoCmds.CreditDebitRoundTrip | cogs/admin/owner_eco_cmds.py:49-155 | removing what was just added to the same balance restores the record |
| OwnerEcoCmds.AddMedals | cogs/admin/owner_eco_cmds.py:49-94 | a non-owner or a non-positive amount changes nothing; otherwise the record is credited and the credited balance is reported |
| OwnerEcoCmds.RemoveMedals | cogs/admin/owner_eco_cmds.py:95-155 | a non-owner or a non-positive amount changes nothing; otherwise the record is debited, whatever its sign, and the debited balance is reported |
| OwnerEcoCmds.CommandWindow | cogs/admin/owner_eco_cmds.py:224-244 | the window the listing compares each command against; 0 for a command it does not know |
| OwnerEcoCmds.CommandWindowsAgree | cogs/admin/owner_eco_cmds.py:224-244 | the listing's rob, escape and breakout windows agree with the commands' own cooldown constants |
| OwnerEcoCmds.WaitOf | cogs/admin/owner_eco_cmds.py:248-250 | a wait splits into minutes and seconds (0..59) that add back up to it |
| OwnerEcoCmds.CoolingDown | cogs/admin/owner_eco_cmds.py:212-251 | the listing holds exactly the commands with a non-zero stamp still inside their window, each with the positive wait left |
| OwnerEcoCmds.ListCooldowns | cogs/admin/owner_eco_cmds.py:212-251 | the loop over the cooldown table collects exactly CoolingDown |
| OwnerEcoCmds.PrisonStatusOf | cogs/admin/owner_eco_cmds.py:196-210 | no sentence, a sentence still running (hours and whole minutes left), or one already expired |
| OwnerEcoCmds.StatusOf | cogs/admin/owner_eco_cmds.py:170-286 | the status shows the balances, the injury label, the prison line, the cooldown listing and the rob protection left |
| OwnerEcoCmds.RobProtectionMatchesVictimCheck | cogs/admin/owner_eco_cmds.py:263-276 | the rob protection the status reports is exactly the victim check's refusal |
| OwnerEcoCmds.HealButton | cogs/admin/owner_eco_cmds.py:361-385 | the owner's heal clears an existing record's injuries; an absent member stays absent |
| OwnerEcoCmds.WithInjuryLevel | cogs/admin/owner_eco_cmds.py:432-543 | the four injury buttons set a count whose tier is the chosen one, keeping injured consistent |
| OwnerEcoCmds.SetInjuryLevel | cogs/admin/owner_eco_cmds.py:432-543 | the owner's injury button sets that level on the record, creating it when absent |
| OwnerEcoCmds.FreeButton | cogs/admin/owner_eco_cmds.py:572-607 | an existing sentence is cleared and its tier reported; otherwise nothing changes |
| OwnerEcoCmds.IncarcerateButton | cogs/admin/owner_eco_cmds.py:678-717 | the tier is the button id after "prison_", with an hour's sentence; the record is created when absent |
| OwnerEcoCmds.Refreshed | cogs/admin/owner_eco_cmds.py:747-778 | the six known cooldowns at zero, other entries dropped, and no rob protection; nothing else changes |
| OwnerEcoCmds.RefreshedIsReady | cogs/admin/owner_eco_cmds.py:747-778 | after Refresh All every command and the rob protection are ready once 600 seconds have passed since 0 |
| OwnerEcoCmds.RefreshAllButton | cogs/admin/owner_eco_cmds.py:747-778 | the owner's Refresh All applies Refreshed to an existing record |
| OwnerEcoCmds.RobVictimButton | cogs/admin/owner_eco_cmds.py:791-814 | the record's rob protection is cleared, so it can be robbed again |
| OwnerEcoCmds.ResetOne | cogs/admin/owner_eco_cmds.py:845-869 | intended per-command reset: that command's stamp becomes 0 on an existing record |
| OwnerEcoCmds.ResetOneMakesReady | cogs/admin/owner_eco_cmds.py:845-869 | after the intended reset the command is ready once one window has passed since 0, and the other stamps are kept |
| OwnerEcoCmds.ResetButtonAsWritten | cogs/admin/owner_eco_cmds.py:779-826 | as written, the six reset buttons call the asynchronous helper without awaiting it, so the document is unchanged |
| OwnerEcoCmds.ResetButtonAsWrittenKeepsCooldown | cogs/admin/owner_eco_cmds.py:779-790 | a member on the work cooldown stays on it after the as-written reset, but is ready after the intended one |
| OwnerEcoCmds.ResetSpecificCooldown | cogs/admin/owner_eco_cmds.py:845-869 | the helper, as intended, applies ResetOne for the owner and nothing otherwise |
| ChallengeRegistry.Manager.constructor | cogs/economy/games/balance_challenge.py:38-41 | the registry starts empty |
| ChallengeRegistry.Manager.AddToChallenge | cogs/economy/games/balance_challenge.py:47-50 | registers (or re-registers) the user for the guild, who is then in a challenge |
| ChallengeRegistry.Manager.RemoveFromChallenge | cogs/economy/games/balance_challenge.py:52-56 | removes the user when present (an absent user is a no-op); nobody else's status changes |
| Blackjack.CardValue | cogs/economy/games/blackjack_game.py:18-20 | a card is worth 2 to 11, and 11 exactly when it is an ace |
| Blackjack.FullDeckIsADeck | cogs/economy/games/blackjack_game.py:55-61 | the fresh deck has 52 distinct valid cards and contains every valid card |
| Blackjack.CreateDeck | cogs/economy/games/blackjack_game.py:55-61 | builds the full deck, thirteen faces for each of the four suits |
| Blackjack.ShuffleIsFullDeck | cogs/economy/games/blackjack_game.py:55-61 | any shuffle of the fresh deck still has 52 valid cards |
| Blackjack.DrawConservesCards | cogs/economy/games/blackjack_game.py:63-69 | a draw moves exactly one card out of the deck (or out of a reshuffled deck when it is empty): nothing is lost or invented |
| Blackjack.AcesBounds | cogs/economy/games/blackjack_game.py:71-87 | the ace count lies within the hand size, and the raw total bounds it from above and below |
| Blackjack.SoftenIsBest | cogs/economy/games/blackjack_game.py:71-87 | softening aces one by one while over 21 lands on the best total: never above the raw total, 21 or less whenever some ace choice reaches 21 or less, and all aces hard only when it still busts |
| Blackjack.HandValueIsBest | cogs/economy/games/blackjack_game.py:71-87 | the hand value is the best total the aces allow; it is at least the card count and a two-card hand never busts |
| Blackjack.CalculateHandValue | cogs/economy/games/blackjack_game.py:71-87 | the loop's total equals the hand value |
| Blackjack.NaturalIsAceAndTen | cogs/economy/games/blackjack_game.py:125-162 | a two-card 21 is exactly an ace with a ten-valued card |
| Blackjack.WinnerOf | cogs/economy/games/blackjack_game.py:125-162 | a lone natural wins with the bonus; otherwise a standing hand beats a bust, two busts tie, and two standing hands compare; a tie is exactly equal naturals with both bust or equal totals |
| Blackjack.WinnerIsSymmetric | cogs/economy/games/blackjack_game.py:125-162 | swapping the hands swaps the winner and keeps the bonus: the rule favours neither seat |
| Blackjack.Payout | cogs/economy/games/blackjack_game.py:654-681 | a tie returns each bet; a win pays the pot of two bets to the winner, plus half a bet (rounded down) for a blackjack |
| Blackjack.StakeThenSettle | cogs/economy/games/blackjack_game.py:654-681 | staking both bets and then settling leaves pockets unchanged on a tie and moves one bet from loser to winner (plus the bonus) on a win; nothing else in the guild changes |
| Blackjack.BlackjackGame.constructor | cogs/economy/games/blackjack_game.py:32-53 | a new game deals two cards to each player from the end of a shuffled deck, with the initiator to play and a pot of two bets |
| Blackjack.BlackjackGame.DrawCard | cogs/economy/games/blackjack_game.py:63-69 | pops the deck's last card, reshuffling a full deck first when it is empty; the card drawn is valid |
| Blackjack.BlackjackGame.DetermineWinner | cogs/economy/games/blackjack_game.py:125-162 | records the verdict of WinnerOf on the two hands |
| Blackjack.BlackjackGame.CheckGameOver | cogs/economy/games/blackjack_game.py:111-123 | the game is over exactly when both have stood, with the verdict recorded; otherwise the turn passes to whoever has not stood |
| Blackjack.BlackjackGame.Stand | cogs/economy/games/blackjack_game.py:102-109 | the initiator's stand passes the turn; the opponent's ends the game with the verdict; hands and deck are untouched |
| Blackjack.BlackjackGame.Hit | cogs/economy/games/blackjack_game.py:89-100 | one card drawn onto the player's hand; a bust counts as standing, so it passes the turn or ends the game |
| Blackjack.HandleGameOver | cogs/economy/games/blackjack_game.py:654-681 | the ledger is credited exactly as Settle prescribes for the verdict |
| Blackjack.HandleTimeout | cogs/economy/games/blackjack_game.py:733-746 | the player whose turn it was forfeits and the other is credited the whole pot, with no bonus |
| Blackjack.CancelGame | cogs/economy/games/blackjack_game.py:769-777 | both bets are returned |
| Blackjack.TurnTimeout | cogs/economy/games/blackjack_game.py:424-434 | a lapsed turn is stood for: the initiator's lapse passes the turn, the opponent's ends the game and the initiator takes the pot |
| Blackjack.GameKeyInjective | cogs/economy/games/blackjack_game.py:901-904 | within one guild two members' game keys never collide |
| Blackjack.ActiveGames.constructor | cogs/economy/games/blackjack_game.py:24 | no game is active at start |
| Blackjack.ActiveGames.Register | cogs/economy/games/blackjack_game.py:491-497 | both players' keys point at the game, so both are busy |
| Blackjack.ActiveGames.Unregister | cogs/economy/games/blackjack_game.py:499-510 | both keys are dropped when present, so neither player is busy |
| Blackjack.BlackjackRule | cogs/economy/games/blackjack_game.py:823-911 | the invitation is sent exactly when neither player is in prison, the initiator is not in a challenge, the opponent is another human, the bet is positive, both can cover it and neither is in a game; each refusal reports the failing check, and only the two players' records are created |
| Blackjack.StartBlackjack | cogs/economy/games/blackjack_game.py:823-911 | the command on the ledger yields the outcome and document of BlackjackRule |
| Blackjack.AcceptAsWritten | cogs/economy/games/blackjack_game.py:274-302 | the Accept button as written accepts exactly when the opponent can still cover the bet |
| Blackjack.AcceptAsWrittenOverdraws | cogs/economy/games/blackjack_game.py:274-302 | an initiator who spent below the bet while the invitation was open is staked into negative pockets |
| Blackjack.Accept | cogs/economy/games/blackjack_game.py:274-302 | accepting, as intended, re-checks both players' pockets, and a stake never leaves either below zero |
| Blackjack.AcceptInvite | cogs/economy/games/blackjack_game.py:930-945 | an acceptance stakes both bets, starts a valid game with a pot of two bets, and registers both players; a refusal changes no game |
| BalanceChallenge.ShouldTrigger | cogs/economy/games/balance_challenge.py:58-77 | never for a member who has beaten the house or is already in a challenge; otherwise exactly when pockets plus savings exceed 15000 |
| BalanceChallenge.ShouldTriggerChallenge | cogs/economy/games/balance_challenge.py:58-77 | the ledger answer equals ShouldTrigger on the member's record, which is created on the way |
| BalanceChallenge.MarkChallengeBeaten | cogs/economy/games/balance_challenge.py:79-87 | sets the beaten flag on the member's (possibly new) record and changes nothing else |
| BalanceChallenge.BeatenNeverRetriggers | cogs/economy/games/balance_challenge.py:58-87 | once marked beaten, a member is never challenged again, however rich |
| BalanceChallenge.TriggerBalanceChallenge | cogs/economy/games/balance_challenge.py:89-102 | a qualifying member is registered for this guild and the series starts; otherwise the registry is unchanged |
| BalanceChallenge.TriggerForDonationTarget | cogs/economy/games/balance_challenge.py:104-178 | a bot target is never challenged and nothing changes; a human target is challenged exactly when the guild has a channel and ShouldTrigger holds, and is then registered |
| BalanceChallenge.ChallengeGame.constructor | cogs/economy/games/balance_challenge.py:218-239 | a new series has no wins and no rounds played |
| BalanceChallenge.ChallengeGame.StartChallenge | cogs/economy/games/balance_challenge.py:241-245 | the first round is dealt |
| BalanceChallenge.ChallengeGame.ShowGameResult | cogs/economy/games/balance_challenge.py:298-382 | a decided round adds one win to its side; three wins end the series for that side; a tied round is replayed without counting |
| BalanceChallenge.ChallengeGame.RoundTimeout | cogs/economy/games/balance_challenge.py:484-533 | a round left to time out is one more house win, and the series can only end in the house's favour |
| BalanceChallenge.SeriesIsBestOfFive | cogs/economy/games/balance_challenge.py:373-382 | in every valid challenge game at most five rounds are decided or played, and a finished series has decided at least three |
| BalanceChallenge.StandOutcome | cogs/economy/games/balance_challenge.py:597-643 | the member wins exactly when the house busts or the member stands higher without busting; a tie is equal totals with neither bust |
| BalanceChallenge.HouseWinsOnlyAbove | cogs/economy/games/balance_challenge.py:597-643 | a member standing on 21 or less loses only to a house total between 17 and 21 that is higher |
| BalanceChallenge.ChallengeRound.constructor | cogs/economy/games/balance_challenge.py:247-296 | a new round deals two cards to the member and then two to the house from the end of a fresh shuffle |
| BalanceChallenge.ChallengeRound.Hit | cogs/economy/games/balance_challenge.py:534-596 | the deck's last card goes onto the member's hand; the round ends, as a house win, exactly when the member busts; the deck cannot be empty |
| BalanceChallenge.ChallengeRound.HouseDraws | cogs/economy/games/balance_challenge.py:607-613 | the house takes cards from the end of the deck exactly until its first total of 17 or more, and the deck never runs out |
| BalanceChallenge.ChallengeRound.Stand | cogs/economy/games/balance_challenge.py:597-643 | the house draws from the end of the deck exactly until its first total of 17 or more, the deck never runs out, and the result is StandOutcome of the two totals |
| BalanceChallenge.ChallengeRound.OnTimeout | cogs/economy/games/balance_challenge.py:484-487 | a running round ends as a house win; a finished one is left alone |
| BalanceChallenge.RookSweep | cogs/economy/games/balance_challenge.py:438-452 | every bystander (a numeric key other than the member's and the house's) is sentenced to the Rook Division for six hours; every other record is unchanged |
| BalanceChallenge.EndRuleWin | cogs/economy/games/balance_challenge.py:392-414 | a won series adds 1000 to the member's savings, leaves pockets and prison alone, exempts the member from further challenges, and touches nobody else |
| BalanceChallenge.EndRuleLoss | cogs/economy/games/balance_challenge.py:415-455 | a lost series moves 1000 from the member's savings to the house's, jails the member in the Jaeger Camp for an hour and every bystander in the Rook Division for six, and leaves non-numeric keys alone |
| BalanceChallenge.SendBystandersToRook | cogs/economy/games/balance_challenge.py:438-452 | the loop over the document produces RookSweep |
| BalanceChallenge.EndChallenge | cogs/economy/games/balance_challenge.py:384-470 | the member leaves the registry and the document is settled by the win or loss rule |
| BalanceChallenge.LossTransfer | cogs/economy/games/balance_challenge.py:417-437 | before the sweep a loss jails the member in the Jaeger Camp with 1000 less savings, gives the house (its record created if absent) 1000 more, and leaves every other record alone |
| BalanceChallenge.TransferLoss | cogs/economy/games/balance_challenge.py:417-437 | the loss branch's record writes leave the document as LossTransfer says |
| PermManager.AllowedListed | athena/perm_manager.py:23 | the allowed categories are exactly general, economy and admin |
| PermManager.Ensured | athena/perm_manager.py:100-126 | the guild's entry exists; every allowed category is present, a missing one added as on for the owner guild and off elsewhere; stored flags are kept; a non-empty server name is recorded; other guilds are untouched |
| PermManager.EnsuredIdempotent | athena/perm_manager.py:100-126 | ensuring a guild's entry twice is the same as ensuring it once |
| PermManager.FillCategories | athena/perm_manager.py:100-126 | the loop adds exactly the missing allowed categories with the guild's default and keeps every stored flag |
| PermManager.EnsureGuildEntry | athena/perm_manager.py:100-126 | returns the ensured table and the guild's entry in it |
| PermManager.ForceOwner | athena/perm_manager.py:34-67 | the owner guild's three categories are switched on; its other flags, its name and every other guild are kept |
| PermManager.ForceAllowedOn | athena/perm_manager.py:58-61 | the loop switches exactly the three allowed categories on and keeps every other flag |
| PermManager.Loaded | athena/perm_manager.py:34-67 | a load (from the file, or an empty table when it is missing or unreadable) always has the owner guild, named "Owner Guild", with all three categories on |
| PermManager.LoadedKeepsOtherGuilds | athena/perm_manager.py:34-67 | loading keeps every other guild exactly as the file has it |
| PermManager.CategoryGuilds | athena/perm_manager.py:172-184 | the guilds listed for a category are exactly those whose flag for it is on |
| PermManager.GuildPermissions | athena/perm_manager.py:185-199 | the map has exactly the three categories, all off for an unknown guild, else the guild's flags |
| PermManager.GuildPermission | athena/perm_manager.py:127-147 | the owner guild is always allowed; any other guild exactly when its stored flag is on |
| PermManager.QueriesAgree | athena/perm_manager.py:127-199 | the three queries agree on every non-owner guild and allowed category |
| PermManager.PermissionManager.constructor | athena/perm_manager.py:30-31 | the manager starts with no cache |
| PermManager.PermissionManager.LoadPermissions | athena/perm_manager.py:34-67 | returns the cache when present and not forced, otherwise a fresh load, and caches the result |
| PermManager.PermissionManager.GetGuildPermission | athena/perm_manager.py:127-147 | answers GuildPermission on the current table and leaves that table unchanged |
| PermManager.PermissionManager.GetCategoryGuilds | athena/perm_manager.py:172-184 | answers CategoryGuilds on the current table and leaves that table unchanged |
| PermManager.PermissionManager.GetGuildPermissions | athena/perm_manager.py:185-199 | answers GuildPermissions on the current table and leaves that table unchanged |
| PermManager.PermissionManager.UpdatePermission | athena/perm_manager.py:148-171 | a category outside the three is refused with no change; otherwise the entry is ensured and the flag set, written to file and cache when the write succeeds, and the cache keeps the previous table when it fails |
| PermManager.UpdateIsSeen | athena/perm_manager.py:148-171 | after an update every query sees the new flag (the owner guild still answers allowed), and every other guild answers as before |
| ResponseManager.MissingFileFallsBack | athena/response_manager.py:133-155 | a category with neither a cached table nor a file reads as its built-in defaults (empty for a category outside the six); the prison defaults hold the escape-failure key |
| ResponseManager.PrefixCategory | athena/response_manager.py:121-123 | the prefix search finds a category c exactly when the key starts with "c_" for one of them |
| ResponseManager.TableCategory | athena/response_manager.py:126-129 | the table search finds a category exactly when some category's table holds the key |
| ResponseManager.CategoryOf | athena/response_manager.py:113-132 | a category name is its own category; otherwise the category is one the key is prefixed with or whose table holds it, and there is none exactly when no category matches either way |
| ResponseManager.PrefixIsBeforeUnderscore | athena/response_manager.py:121-123 | a key starting "name_", with no underscore in name, splits at that underscore into name |
| ResponseManager.PrefixMatchIsUnique | athena/response_manager.py:121-123 | at most one category can prefix a key as "c_", so the order of the prefix search does not matter |
| ResponseManager.Contains | athena/response_manager.py:162-165 | a prefix is always contained, and nothing longer than the text is |
| ResponseManager.BeforeUnderscore | athena/response_manager.py:168-169 | the first piece of the key split at underscores: a prefix of the key without an underscore, followed by the first underscore when there is one, else the whole key |
| ResponseManager.ContainedCategory | athena/response_manager.py:162-165 | the first category named inside the key, and none exactly when no category is contained in it |
| ResponseManager.GuessCategory | athena/response_manager.py:159-173 | the guess for a key with no category is never empty: a category named inside the key, else the text before the first underscore when that is not empty, else "custom" |
| ResponseManager.Appended | athena/response_manager.py:178-181 | the table with the new text as the last alternative of the key's list (a new list when the key was absent); other keys unchanged |
| ResponseManager.ResponseFor | athena/response_manager.py:76-112 | the two error texts for a key without a category and for one with no alternatives; otherwise one of the key's alternatives |
| ResponseManager.TableCategoryAfterAdd | athena/response_manager.py:126-129 | a table that gains the key keeps the table search pointing at its category, provided it pointed nowhere else before |
| ResponseManager.CategoryAfterAdd | athena/response_manager.py:113-132 | giving a category a table that holds the key makes that the key's category, provided it had no other category before |
| ResponseManager.AddThenGet | athena/response_manager.py:156-195 | once add_response files a text under one of the six categories, the key's category is that one and picking the last alternative returns the text just added |
| ResponseManager.LastAlternative | athena/response_manager.py:76-112 | with the key's category known, the pick at the last index returns the last alternative of the list |
| ResponseManager.AddedOutsideCategoriesIsLost | athena/response_manager.py:156-195 | a text filed under a guessed prefix or under "custom" is never found again: get_response answers that there is no response for the key |
| ResponseManager.Responses.constructor | athena/response_manager.py:54-55 | the cache starts empty |
| ResponseManager.Responses.LoadCategory | athena/response_manager.py:133-155 | returns the cached table, else the file's, else the defaults, and caches it; no category's view changes |
| ResponseManager.Responses.GetCategoryFromKey | athena/response_manager.py:113-132 | the loop's answer is CategoryOf on the state before the call; the loads on the way change no category's view |
| ResponseManager.Responses.PrefixSearch | athena/response_manager.py:120-123 | the prefix loop answers the first category c with the key starting "c_", i.e. PrefixCategory |
| ResponseManager.Responses.TableSearch | athena/response_manager.py:125-130 | the loading loop answers the first category whose table holds the key, i.e. TableCategory on the state before the loop, and changes no category's view |
| ResponseManager.Responses.GetResponse | athena/response_manager.py:76-112 | answers ResponseFor on the state before the call, with the random choice given as an index; the loads change no category's view |
| ResponseManager.Responses.AddResponse | athena/response_manager.py:156-195 | the text is appended to the chosen category's table, which the cache holds even when the write fails and the file gets only when it succeeds; every other category reads as before |
| ResponseManager.Responses.AppendTo | athena/response_manager.py:175-195 | the category's table gains the text at the end of the key's list, the cache holds it, the file gets it only when the write succeeds, and every other category reads as before |

## Left out

- Discord rendering is not modelled: embeds, buttons, message edits, follow-ups and the decorators that register commands. Only the state each handler changes, and the outcome it reports, are modelled.
- Randomness, the clock and file writes are parameters. Rolls, shuffles, `random.choice` and the current time are passed in. In `DataService.Store`, the permission manager and the response manager, a write's success is a `writeOk` boolean. The generator and the wall clock are not modelled.
- DataService.Ledger: does not model a failed save. The economy commands' saves go through `save_guild_data`, which can fail (athena/data_service.py:246, 160). After a failure the cache is ahead of the file, and once the entry expires the next load returns the older file. `DataService.Store.SaveGuildData` and `LoadGuildData` state this; the Ledger treats every save as successful, so its single document is the cached one.
- File I/O is modelled abstractly. The store is a map from guild id to stored file, with a "primary, then backup, then empty" fallback. Temp files, fsync, backup copies and renames (`_safe_load_json`, `_safe_save_json`) are not modelled. Neither are `initialize`, `_ensure_directories` and the cleanup scheduler in athena/data_service.py.
- `load_response_data` and `clear_cache` in athena/data_service.py are not modelled. The response texts the bot uses come from athena/response_manager.py, which is modelled.
- `save_permissions` (athena/perm_manager.py:68-97) is a write whose success is the `writeOk` parameter of `PermManager.PermissionManager.UpdatePermission`. The manager's `initialize` methods only create directories.
- Locks and concurrency are not modelled. `update_pockets` and `update_savings` hold the guild's non-reentrant lock (cogs/economy/economy_base.py:82) and then call `save_guild_data`, which takes the same lock (athena/data_service.py:239). As written this deadlocks. The model treats each update as a plain read-modify-write and claims nothing about locking.
- Aliasing is modelled as value semantics.
  - `load_guild_data` hands out a shallow copy, whose nested records are shared with the cache; the model uses values.
  - The permission cache keeps the pre-update table after a failed save. Python would keep the same dict object, mutated in place; the model keeps the old value.
  - `add_response` appends to the cached table in place, and for a defaulted category that table is the shared `DEFAULT_RESPONSES` dict. The model captures only the visible effect: the cache holds the new text even when the write fails.
- Floating point is modelled with integers.
  - int(savings·0.10), int(p·0.6) and int(p·0.8) are written as (x·k)/10 on non-negative values. This is an approximation of the float product, and it can differ by one where the float rounds below the exact decimal.
  - int(savings·0.25) and int(bet·0.5) are exact and are written as savings/4 and bet/2. For negative savings, Python's truncation toward zero is written out explicitly.
- AccountCmds.ParseAmount: reads only ASCII digits. Python's `int()` also accepts the other Unicode decimal digits (Arabic-Indic, fullwidth and so on), which the model refuses as not a number. The "all" test lower-cases only ASCII letters, which gives the same answer as Python's `lower()`, because no other character lower-cases to 'a' or 'l'.
- `get_modified_cooldown` and `get_earning_multiplier` (cogs/economy/status/injury_system.py:135-153) use a float multiplier and are not modelled. The work command's multiplier is the constant 1.0.
- `get_death_chance_modifier` and `get_prison_chance_modifier` (cogs/economy/status/injury_system.py:155-169) are plain reads of the tier's effects. They are covered by `InjurySystem.TierOf` and the effect lookups.
- The text of the `/status` report (the effects list and the formatted release date, cogs/economy/status/injury_system.py:288-320) is not modelled. `InjurySystem.Status` returns the status and the sentence it shows.
- The owner terminal's navigation is not modelled. This covers the panel-switching buttons, the Back buttons and the `ecoterminal` entry in cogs/admin/owner_eco_cmds.py. The owner check they share is the `isOwner` parameter.
- The economy cogs' `cog_app_command_check` (the per-guild permission gate) is not modelled in the cogs. The permission table it consults is modelled in `PermManager`.
- rob's `handle_death` (cogs/economy/activities/rob_cmds.py:36-64) is the same code as crime's, with the same 10 % penalty. The model calls `CrimeCmds.HandleDeath` for both.
- The balance challenge's `calculate_hand_value` (cogs/economy/games/balance_challenge.py:646-662) is the blackjack algorithm. The model uses `Blackjack.HandValue` for both.
- `on_app_command_completion` (cogs/economy/games/balance_challenge.py:690-764) is not modelled. This hook calls the two trigger methods after economy commands and is Discord event plumbing; the triggers it calls are modelled. So is the manager's `start_challenge` (cogs/economy/games/balance_challenge.py:180-212), which announces the series and builds the `ChallengeGame`.
- Blackjack's public display, turn notifications, message cleanup and the invitation's Decline button and timeout are not modelled. They change no balance, and the game-view timeout that cancels an unfinished game is `Blackjack.CancelGame`.
- Deck order is modelled only as given. Each shuffle is an arbitrary permutation of the full deck, passed in as a parameter. Where it matters, the order of a reshuffle is a parameter too.
- The drug order in the Mortician Wing and the box colours in the Jaeger games are shuffles, so they are parameters, required to be permutations of the source's lists.
- The guild document's non-record values are represented only as keys, and loops that skip them use the numeric-key filter. Such values are the guild flags, for example `headpats_enabled`. As a result, the `isinstance(dict)` test in the challenge's sweep always holds in the model.
- `str.format` templating of response texts is not modelled. `ResponseManager.ResponseFor` returns the chosen text before formatting.

## Findings

| source | as written | input that shows it | evidently intended | confidence | as-written member | corrected member |
|---|---|---|---|---|---|---|
| athena/data_service.py:362-366 | an expired response timestamp "response_X" removes the response entry "X", but that cache is keyed "response_X" | response cache and timestamps both hold "response_work" stamped 0, cleaned up at time 300 | the expired response entry is dropped together with its timestamp | not executed | DataService.CleanupAsWrittenKeepsExpiredResponse | DataService.Cleanup |
| athena/data_service.py:224-230 | invalidate_cache() clears the guild cache first, then removes the timestamps of keys still in the (now empty) guild cache | guild "1" cached with timestamp 0, then invalidate_cache() | every cached guild's timestamp is removed with it | not executed | DataService.InvalidateAllAsWrittenKeepsStamp | DataService.InvalidateAll |
| cogs/admin/owner_eco_cmds.py:779-826 | the six reset buttons call the asynchronous `_reset_specific_cooldown` without awaiting it, so no reset happens | member "7" with work stamp 100, reset pressed at time 120 (work window 60) | the command's cooldown stamp becomes 0 | not executed | OwnerEcoCmds.ResetButtonAsWrittenKeepsCooldown | OwnerEcoCmds.ResetSpecificCooldown |
| cogs/economy/prison/ui_components/jaeger_components.py:204-264 | the timeout handler reads `self.interaction`, which the view never sets; the error is swallowed and nothing changes | any Jaeger Camp prisoner who lets the escape view time out | the prisoner who walked away suffers the death penalty | not executed | JaegerEscape.TimeoutPenaltyLost | JaegerEscape.EscapeJaegerView.OnTimeout |
| cogs/economy/prison/breakout_cmds.py:48-54 | the first guard awaits `self.prison_check`, which neither the cog nor its base class defines, so every /breakout fails before any check | a free helper off cooldown asking for an Officer Group prisoner | the guards run and the mini-game for the target's tier opens | not executed | BreakoutCmds.EligibleHelperOpensGame | BreakoutCmds.Breakout |
| cogs/economy/games/blackjack_game.py:274-302 | Accept re-checks only the opponent's pockets before both bets are taken | initiator with 5 pockets and opponent with 10, bet 10 after the initiator spent 5 while the invitation was open | both players' pockets are re-checked before staking | not executed | Blackjack.AcceptAsWrittenOverdraws | Blackjack.AcceptInvite |
