# Ducks 10-Mans match coordination, modelled in Dafny

This project models the match-coordination core of the Ducks 10-Mans Discord bot. That bot runs
in-house Valorant ten-player matches. Players sign up through a button view until the queue holds
ten. They then vote on a team mode (Balanced or Captains) and on a map pool (Competitive Maps or
All Maps). Teams are formed by a greedy MMR split or by captains. After the game, a player
reports it: the bot fetches that player's latest match, reconciles it with the queue and the
teams, and closes the match. An owner command rebuilds every record from the stored matches.

The model keeps the bot's own state and rules:

- `BotState.Bot` is a class that holds the bot's match fields. These are the queue, the rating
  records, the sign-up and match flags, the captains, the teams, the chosen mode and the
  selected map. The commands and view callbacks are methods that change these fields.
- A Python id is either an `int` or a `str`, and the two never compare equal. The model keeps
  this visible as `Key = IntKey(n) | StrKey(s)`. Sign-up queues `IntKey`s. The mode vote looks up
  `StrKey(str(user.id))`. The map-pool vote looks up `IntKey`.
- The `users` collection is a sequence of documents, and `find_one` returns the first match.
  Discord ids are stored as decimal strings (`DecimalString`).
- The two votes are classes with a tally map and a voters set. A `random.choice` is a boolean
  `coin` input. The mode-vote timer is the event `TimerFires`. In the map-pool polling loop, the
  clicks that arrive during the k-th sleep are the input `arrivals[k]`.
- Each imperative routine is a method with a loop. Each such method is proved equal to a
  recursive specification function, and the properties are proved about that function. This
  covers the balanced split, the captains deal, the polling loop, the queue search of setcaptain
  and the reaggregation loops.
- The report checks are a pure function `Reconcile` over set comparisons. The reporter's most
  recent match is an input value.

## Model

| member | source | states |
|---|---|---|
| BotState.DecimalString | views/signup_view.py:34 | str() of a Discord id is a non-empty string of decimal digits |
| BotState.FindUserById | views/signup_view.py:34 | find_one by discord_id finds a document exactly when some document's id string equals the key, and what it returns is such a document |
| BotState.Bot.constructor | commands.py:114-125 | the bot starts with an empty queue, no captains, empty teams, no mode or map, all flags false. No sign-up view is stored, which is assumed (see Left out) |
| RiotIds.Lower | commands.py:1305-1309 | lower-casing keeps the length and lower-cases each character (ASCII letters) |
| RiotIds.LowerChar | commands.py:1305-1309 | an upper-case ASCII letter maps to its lower-case letter and any other character is unchanged |
| RiotIds.LastIndexOf | commands.py:1295 | gives None exactly when the character is absent; otherwise the index of an occurrence with none after it |
| RiotIds.ParseRiotId | commands.py:1294-1298 | rsplit("#", 1) fails exactly when there is no '#'; otherwise the tag holds no '#' and name + "#" + tag is the input |
| RiotIds.ParseFormatRoundTrip | commands.py:1295 | formatting a name and a '#'-free tag as Name#Tag and parsing it gives back the same name and tag |
| Ranking.InsertDesc | views/mode_vote_view.py:147 | inserting into a descending list keeps it descending and adds exactly that player |
| Ranking.SortDesc | views/mode_vote_view.py:146-147 | sorting by MMR with reverse=True gives a descending permutation of the players |
| SignupView.Without | views/signup_view.py:83 | the rebuilt queue is no longer and has no entry with that id; every other entry stays |
| SignupView.WithoutKeepsOrder | views/signup_view.py:83 | leaving distributes over concatenation, so the other players keep their relative order |
| SignupView.WithoutAbsent | views/signup_view.py:83 | leaving when not queued is a no-op |
| SignupView.WithoutIdempotent | views/signup_view.py:83 | leaving twice equals leaving once |
| SignupView.WithoutCount | views/signup_view.py:83 | every entry with that id is removed and every other entry keeps its multiplicity |
| SignupView.WithoutKeepsNoDuplicates | views/signup_view.py:83 | leaving keeps a duplicate-free queue duplicate-free |
| SignupView.SignUp | views/signup_view.py:33-80 | an unlinked user is refused with no change. A queued user is refused with no change. Otherwise the player is appended, a default record is created only if the id has none, and the name is stored. When the queue becomes exactly 10, sign-up closes. Only the queue, the ratings, the names and the sign-up flag can change, so the stored sign-up view stays. No duplicate ids are introduced. |
| SignupView.LeaveQueue | views/signup_view.py:82-83 | the queue becomes the old queue without that id, still duplicate-free and rated |
| SignupView.AddPlayerToQueue | views/signup_view.py:154-155 | appends unconditionally and grows the queue by exactly one |
| ModeVoteView.GreedySplit | views/mode_vote_view.py:148-157 | the greedy deal places every player in one of the two teams |
| ModeVoteView.GreedySplitPermutation | views/mode_vote_view.py:151-157 | team1 ++ team2 is a permutation of the players dealt |
| ModeVoteView.GreedySplitSums | views/mode_vote_view.py:149-157 | the running sums t1_mmr and t2_mmr equal each team's total MMR |
| ModeVoteView.BalancedIsPermutation | views/mode_vote_view.py:145-159 | the balanced teams together are exactly the queue |
| ModeVoteView.GreedyGapBound | views/mode_vote_view.py:151-157 | with MMRs in [0, b], the team sums never differ by more than b |
| ModeVoteView.BalancedGapBound | views/mode_vote_view.py:145-159 | for the sorted queue, the difference of the team totals is at most the largest MMR |
| ModeVoteView.StarAgainstFlat | views/mode_vote_view.py:151-157 | after a player rated 1000, every following player rated 100 goes to team2 (up to ten players) |
| ModeVoteView.GreedyMaySplitUnevenly | views/mode_vote_view.py:145-159 | some sorted ten-player queue is split 1 against 9, so 5/5 is not guaranteed |
| ModeVoteView.GreedyStep | views/mode_vote_view.py:151-159 | one more loop iteration places the next sorted player on the lighter team (team 1 on a tie) |
| ModeVoteView.PlaceKeepsSums | views/mode_vote_view.py:151-157 | adding the player and its MMR to one team keeps each running sum equal to that team's total MMR |
| ModeVoteView.BalancedTeams | views/mode_vote_view.py:145-159 | the sort and the loop with running sums compute the greedy split of the sorted queue, a permutation of the queue |
| ModeVoteView.ModeDecision | views/mode_vote_view.py:79-115 | on timeout the strictly higher tally wins and a tie goes to the coin, so some mode is always chosen; otherwise an option wins exactly when it has more than 4 votes, Balanced checked first |
| ModeVoteView.ModeVote.constructor | views/mode_vote_view.py:17-24 | both tallies are 0, there are no voters and no flag is set |
| ModeVoteView.ModeVote.Vote | views/mode_vote_view.py:26-64 | a click whose str(id) is not queued, or who already voted, changes nothing. Otherwise exactly one tally rises by 1 and the voter is added, even after the phase ended. check_vote is then applied. The tally sum equals the number of voters. |
| ModeVoteView.ModeVote.CheckVote | views/mode_vote_view.py:70-143 | sets the mode the decision names, ends the phase, and builds the balanced teams when Balanced is chosen; with no decision nothing changes |
| ModeVoteView.ModeVote.SetupBalancedTeams | views/mode_vote_view.py:145-159 | the bot's teams become the greedy split of the queue sorted by MMR |
| ModeVoteView.ModeVote.TimerFires | views/mode_vote_view.py:161-166 | after the phase ended it does nothing; otherwise it sets timeout and ends the phase, and a mode is always chosen |
| ModeVoteView.IntQueueRefusesModeVotes | views/mode_vote_view.py:30 | against a queue of int ids, str(user.id) is never found, so every mode-vote click is refused |
| MapTypeVoteView.Cast | views/map_type_vote_view.py:33-73 | a non-queued or repeat voter changes nothing. Otherwise exactly that pool's tally rises by 1 and the voter is recorded. The tally sum stays equal to the voter count. |
| MapTypeVoteView.CastAll | views/map_type_vote_view.py:33-73 | a batch of clicks keeps both pools present and the sum equal to the voter count |
| MapTypeVoteView.MajorityPool | views/map_type_vote_view.py:82-89 | All Maps wins exactly above 4 votes; Competitive Maps wins exactly when All Maps has at most 4 and it has more than 4 |
| MapTypeVoteView.TimeoutPool | views/map_type_vote_view.py:94-105 | the strictly larger tally wins and a tie goes to the coin |
| MapTypeVoteView.PollFrom | views/map_type_vote_view.py:78-105 | at most 50 polls. Before the 50th, the pool chosen is the majority pool. At 50 the timeout rule decides. The tally stays consistent. |
| MapTypeVoteView.MajorityDecidesAtOnce | views/map_type_vote_view.py:80-89 | a majority present at a poll fixes the pool at that poll |
| MapTypeVoteView.NoMajorityPollsAgain | views/map_type_vote_view.py:80-92 | without a majority the loop takes in the clicks that arrive during the sleep and polls again |
| MapTypeVoteView.QuietPollsTimeOut | views/map_type_vote_view.py:80-105 | with no majority and no further clicks, the loop runs all 50 polls and the timeout rule decides |
| MapTypeVoteView.MapTypeVote.constructor | views/map_type_vote_view.py:27-29 | both pools start at 0 with no voters |
| MapTypeVoteView.MapTypeVote.Vote | views/map_type_vote_view.py:33-73 | the click is cast by the raw int id; the outcome says whether it was refused as not queued or as a repeat |
| MapTypeVoteView.MapTypeVote.Deliver | views/map_type_vote_view.py:91 | the clicks arriving during one sleep are cast in order |
| MapTypeVoteView.MapTypeVote.PollOnce | views/map_type_vote_view.py:81-92 | one poll decides exactly the pool MajorityPool names, leaving the tally alone, or else delivers the next batch of clicks and hands over to the next poll |
| MapTypeVoteView.MapTypeVote.SendView | views/map_type_vote_view.py:75-105 | the polling loop returns the pool and poll count that PollFrom gives from 0, never more than 50 polls |
| Commands.Signup | commands.py:136-203 | refused with no change while sign-up is active or the last match is unreported. Otherwise the ratings are reloaded, the queue, captains, teams, mode and map are reset, and sign-up is active unless the setup failed. The old view is dropped, and a new one is stored exactly when setup got as far as creating it. |
| Commands.CancelAsWritten | commands.py:1385-1398 | refused with no change when no sign-up is active. With a stored view, the call to the missing `cleanup` aborts the command with no change. Without one, the queue is emptied and sign-up closes. |
| Commands.SignupThenCancelAsWritten | commands.py:136-203 | after a sign-up that opens normally and one join by a linked user through SignUp, the as-written cancel aborts, and sign-up stays active with its queue |
| Commands.Cancel | commands.py:1385-1398 | the corrected cancel: refused with no change when no sign-up is active; otherwise the view is dropped, the queue is emptied and sign-up closes |
| Commands.SignupThenCancel | commands.py:136-203 | after a sign-up that opens normally and one join by a linked user through SignUp, the corrected cancel closes sign-up and empties the queue |
| Commands.QueuedAs | commands.py:1300-1313 | finds a queued player exactly when one is linked to that Riot id, compared lower-cased |
| Commands.QueuedAsIsFirst | commands.py:1300-1313 | when queue[j] is linked to the Riot id and no earlier queued player is, the search finds queue[j] |
| Commands.FindInQueue | commands.py:1300-1313 | the search loop with break returns that first linked queued player |
| Commands.SetCaptain | commands.py:1291-1356 | a bad format, an unqueued id, or a player who is the other captain is refused with no change. Otherwise that slot takes the player, and the two captains never share an id. |
| Commands.Remaining | commands.py:1155 | the remaining players are the queued players other than the two captains |
| Commands.AlternateShape | commands.py:1161-1167 | dealing alternately gives team1 ceil(n/2) and team2 floor(n/2), together a permutation of the dealt players |
| Commands.RemainingCount | commands.py:1155 | with distinct ids, filtering out the captains removes exactly one copy of each queued captain |
| Commands.CaptainsAreTopRated | commands.py:1140-1142 | captain1 has the highest MMR in the queue and captain2 the highest among the others |
| Commands.DistinctCaptains | commands.py:1140-1142 | with distinct ids, the two top-ranked players are different players with different ids |
| Commands.EightRemain | commands.py:1155 | with ten distinct queued players, eight remain after the captains |
| Commands.DealtBehindCaptains | commands.py:1158-1167 | eight players dealt behind two captains give two teams of five holding all ten |
| Commands.CaptainsDraftFiveEach | commands.py:1138-1167 | with ten distinct players the captains differ, each team has 5 and starts with its captain, and the teams are a permutation of the queue |
| Commands.DealTurns | commands.py:1158-1167 | the turn loop appends the players at even turns to team1 and those at odd turns to team2, after the captains |
| Commands.AutoDraft | commands.py:1138-1167 | the captains are the top two of the MMR ranking, and the others, sorted, are dealt by the turn loop starting with team1 |
| Commands.AssignCaptainsTeams | commands.py:1138-1167 | stores that draft in the bot; with ten distinct queued players the captains are distinct |
| MatchReport.SideIds | commands.py:421-427 | a side's ids are part of the roster |
| MatchReport.WinningTeamId | commands.py:410-415 | the lower-cased id of the first team marked won; None exactly when no team won |
| MatchReport.Reconcile | commands.py:323-459 | an unlinked reporter is the only NotLinked case. A roster mismatch names exactly the queue ids missing from the roster. A settled report has the queue inside the roster, and team1 wins exactly when the winning side equals team1's ids (team2 needs equality with team2's). |
| MatchReport.SettlesIff | commands.py:323-459 | a report settles exactly when every guard passes and the winning side equals one team's Riot id set |
| MatchReport.MapCheckIgnoresCase | commands.py:336 | the map check compares lower-cased names |
| MatchReport.UnlinkedPlayerIgnored | commands.py:429-445 | a drafted player without a linked account does not change the team's id set |
| MatchReport.ExtraAccountOnWinningSideRejected | commands.py:448-456 | an account on the winning side that is in neither team prevents settling |
| MatchReport.Report | commands.py:253-558 | the result is Reconcile of the bot's state. A rejection leaves the bot untouched. Only the ratings, the two match flags and the queue can change. Success settles the ratings with the winning and losing teams, stores the match, clears both match flags and empties the queue. |
| MatchReport.CloseMatch | commands.py:488-558 | settles the ratings, clears both match flags and empties the queue |
| Reaggregate.FindUserByRiot | commands.py:1490 | find_one by name and tag finds a document exactly when one has both fields equal |
| Reaggregate.BaseRecordsShape | commands.py:1441-1457 | after the reset, exactly the linked users have a record, each the default 1000/0/0 |
| Reaggregate.CreditCounts | commands.py:1527-1536 | crediting a side adds to each record exactly the number of times its id is listed, and leaves the ids and MMRs alone |
| Reaggregate.ReaggregatedRecords | commands.py:1434-1536 | after all matches, exactly the linked users have records. Each MMR is 1000 and never recomputed. Each player's wins and losses are the number of stored matches in which they were on the winning or the losing side. |
| Reaggregate.ReaggregateMatches | commands.py:1428-1536 | the loops leave the records equal to the fold over the stored matches, the names equal to the users' lower-cased names, and count every match |
| Reaggregate.CollectSides | commands.py:1478-1501 | the roster loop collects the linked red and blue players in roster order |
| Reaggregate.CreditWins | commands.py:1527-1536 | the win (or loss) loop is the Credit fold over the side |

## Findings

| source | as written | input that shows it | evidently intended | confidence | as-written member | corrected member |
|---|---|---|---|---|---|---|
| commands.py:1392-1394 | `cancel` calls `signup_view.cleanup()`, which SignupView (views/signup_view.py:12-155) does not define, so the command raises AttributeError before it resets anything | a `signup` that opens normally, which stores a view at commands.py:183, then `cancel` | the view is dropped, the queue is emptied and sign-up closes | medium, not executed (assumes the discord.py View base class has no `cleanup` either) | Commands.CancelAsWritten, Commands.SignupThenCancelAsWritten | Commands.Cancel, Commands.SignupThenCancel |

## Left out

- Discord plumbing: roles, channels, messages, followups, button labels and member role changes. Periodic refresh tasks, `asyncio.sleep` timing, and the chaining of one view into the next (mode vote, then map-pool vote, then MapVoteView). MapVoteView and CaptainsDraftingView are not part of this model.
- HTTP calls to the match API and MongoDB writes. The reporter's latest match and the stored matches are inputs, and the matches collection is returned as a sequence.
- The `users` collection is a sequence of documents rather than a map. Both lookups use `find_one`, by id and by (name, tag), and the first matching document wins.
- `load_mmr_data`, `save_mmr_data`, `adjust_mmr`, `update_stats` and `ensure_player_mmr` live in files this model does not include. Signup takes the reloaded records as a parameter. Report takes the whole rating update as a function parameter `settle`.
- SignupView.SignUp: the callback is modelled as one atomic step, but in the bot every `await` lets other clicks run. The append happens at views/signup_view.py:37, several awaits follow (lines 43-55), and only then comes the `len(self.bot.queue) == 10` test at line 61. With 9 queued and two linked users clicking at the same moment, both are appended, both callbacks then see 11, sign-up stays active and the mode vote never starts. The model always closes sign-up on the tenth append.
- RiotIds.Lower: only ASCII letters are lower-cased; Python's full Unicode lower-casing is not modelled.
- RiotIds.LowerChar: the same gap. Non-ASCII capital letters are left unchanged, where Python's `lower()` lower-cases them.
- BotState.Bot.constructor: commands.py:114-126 does not set `signup_view`. The bot class that does is not part of this model, so starting with no view is assumed.
- MatchReport.Reconcile: an empty `data` list makes `data[0]` fail at commands.py:273, before the later emptiness check at commands.py:342, which can never fire. The model treats it as the abort `NoMatchData` right after the link check. Likewise, the second `teams` check at commands.py:405-408 repeats the first and cannot fire.
- MatchReport.Report: the top-player announcement, the write of every record to the stats collection, and the mock testing branch (commands.py:280-321) are not modelled. The frame that keeps `playerNames` and everything but the ratings, the match flags and the queue is assumed: `ensure_player_mmr` and `update_stats` also receive `player_names` (commands.py:463, commands.py:489), and the model assumes they do not change it.
- MatchReport.Report: the command is modelled as one atomic step, but in the bot every `await` lets other commands run. The match is stored at commands.py:553, and the flags are cleared only after `await asyncio.sleep(5)` (commands.py:555-558). A second `report` sent during those 5 seconds passes every guard and settles the same match again: the ratings are updated twice and the match is stored twice. The model does not capture this.
- ModeVoteView.ModeVote.Vote: requires every queued player to have a rating record. The source only needs one when Balanced is chosen, and otherwise raises KeyError in `_setup_balanced_teams`.
- ModeVoteView.ModeVote.CheckVote: requires rated queued players for the same reason. The second timeout block (views/mode_vote_view.py:117-143) cannot be reached, because the first block returns whenever `timeout` is set, so it is not modelled separately.
- ModeVoteView.ModeVote.TimerFires: requires rated queued players for the same reason. The map-pool vote it starts afterwards is not modelled.
- Ranking.SortDesc: requires every player to be rated, where Python would raise KeyError. Its contract states descending order and permutation, but not stability (players with equal MMR keep queue order), although the definition is stable like Python's sort.
- Commands.AutoDraft: requires at least two rated queued players. `test` always queues ten players with records first, and otherwise raises IndexError or KeyError.
- Commands.AssignCaptainsTeams: same requirement as AutoDraft. The rest of `test` is not modelled: the simulated players with random MMR, the forced mode, the random map and the flags it sets.
- Commands.Signup: the random match name and the creation of the role, channel and message are the `setup` input, which says whether setup completes or raises before or after the view is stored. The view's refresh tasks, which `cancel_signup_refresh` stops, are not modelled.
- Reaggregate.ReaggregateMatches: `update_stats` is not modelled. The model assumes it changes neither the MMR, wins and losses of any record nor the set of ids, and does not change `player_names`, which it also receives (commands.py:1505-1510). The write of the records to the stats collection is not modelled.
- Float statistics (win rate, combat score, K/D, `recalculate`), leaderboards, `stats`, `linkriot`, `help`, `toggledev`, `simulate_queue` and `force_draft` are not modelled.
