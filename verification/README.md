# annoybots, verified

annoybots is a family of chat bots: they speak canned and generated lines without
flooding, keep operator status in IRC channels, perform multi-bot skits over a bus, and
run IdleRPG, an idle game with guilds, raids, items and quests. This project models the
parts of it whose behaviour spans many calls, threads or processes and proves what they
promise. Run `dafny verify dfyconfig.toml` to check it.

Objects that the program updates in place are classes; each method is tied to a function
or relation on values, and the results over whole runs are lemmas about those. Random
draws, clock readings and iteration orders of Go maps come in as parameters or are left
open, so every result holds for all of them. Where raids require levels that are not
negative, `Board.BoardMirrorsLevels` shows that the levels on the sheets never are.

| file | what it is about |
|---|---|
| Hostmask | glob matching of hostmasks with last-star backtracking, against the recursive meaning of a pattern |
| Bus, Coordinator, SkitSystem, SkitProgress | skits: one bot's part, N bots on a lossy reordering bus, N bots on a lossless ordered one |
| SkitRuns | any number of runs at a time on the same bots and the same ordered bus |
| SkitFanout, SkitOrder, SkitRaces, SkitAssured | skits on the in-process bus, whose publishers serve one subscriber after another while others act: why some are safe, how the others go wrong, and the exact line between them |
| SkitClock | delays, the time that events take, and when nobody gives up waiting |
| MapQuest, World | rounded steps on the grid: map quests, wandering and travelling |
| RateLimit, Banter, Cooldown | token bucket with debt, rolling window, per-key cooldown |
| Modes | reading mode strings, whatever letters the server gives an argument |
| ChanKeep, ChanServer, ChanSends, ChanMisreads | membership and operators of channels, the server's true state beside them, what is sent over whole runs, and the lines that lead the record astray |
| Markov, Shuffle | learning and generating lines, dealing lines from a bag |
| Totals, Runs | sums over maps, and what every step keeps and adds over a run |
| Raid, Spoils | a raid's damage ledger, milestones and end; the top contributor and the shares |
| GuildBook, GoldLedger, GoldRules, Realm | guild membership, all the gold in the realm, what each command on both comes to, and the commands |
| Items | worn and banked items, gifts |
| Board | levels, the leaderboard, who is online |
| Quest, Draft | the quest shared by the tick thread and the event handlers; drafting its party |
| Options | an optional value |

Nine promises turn out to hold only under a condition, which is proved exact:

* The matcher agrees with the meaning of every pattern exactly on subjects without a `*`
  (`Hostmask.FaithfulIffNoStar`). On others it can reject a pattern that matches, because
  a `*` of the pattern that meets a `*` of the subject is taken literally.
* A skit on the in-process bus can always be completed exactly if the bot that subscribed
  last leads it, nobody but that bot and the one before it speaks, and the script is no
  longer than 63 steps unless there is only one bot (`SkitAssured.AssuredIffLastTwo`; of
  scripts of 64 steps and more in which both bots of a fleet of two speak, only that the
  rest is needed is proved). In any other, a step can overtake the one before it on the
  way to a third bot, or the start on the way to a second one, and the bot that hears it
  too early discards it and then waits for it in vain (`SkitRaces.RacesAreLost`); or an
  inbox overflows (`SkitRaces.LongScriptsAreLost`).
  On a bus with one order for everybody every skit is completed, whatever other skits the
  same bots perform at the same time (`SkitProgress.SkitsAreCompleted`,
  `SkitRuns.RunsAreCompleted`).
* With events that take up to some time, in order, nobody gives up on a step of a skit
  exactly if every delay, and that time once, or twice where the step has another owner
  than the one before, stay under the timeout of 30 seconds (`SkitClock.InTimeIff`).
* A mode string is read right, for all arguments, exactly when parser and server have
  counted equally many argument letters before each `o` in it (`Modes.ReadsRightIff`, for
  any server that gives `o` an argument). For a server that differs from the parser on
  `-l` alone, which lifts the user limit and names none, that means that no operator
  change follows a `-l`. RFC 2811 section 4 also has `a` and `q` as flags without an
  argument. `-l-o bot` and `+q+o alice` each lose the operator change (`Modes.LostChanges`).
* So the record of a channel stays true under a MODE line, whatever it was before and
  whatever the arguments, exactly when the line is one of those
  (`ChanMisreads.KeepsRecordIff`); after `-l-o bot` the bot goes on believing that it holds
  ops (`ChanMisreads.MissedLoss`). Within a line of several operator changes the bot acts
  after each of them, when the line as a whole has already happened: a `+o` sent in the
  middle is warranted exactly if no later change of the line takes the bot's own ops or
  ops the nick (`ChanSends.SendsAreWarranted`, with `ChanMisreads.SentTooLate` and
  `ChanMisreads.SentInVain` for lines where one does).
* Generated text stops short of the word limit only where a learned line ended exactly if
  no learned word is the end token (`Markov.EndsAreLineEndsIff`). That token is the control
  character that IRC uses for bold, and lines are learned as typed: the comment in
  `markov.go:15` takes it for one that never appears. A chain that learned a single line
  says it again, whatever the draws, exactly if no state comes twice in it and no word is
  the end token (`Markov.ComesBackIff`); of `a`, a lone bold code and `b` it only ever says
  `a` (`Markov.BoldCutsShort`).
* When a pool opens its next bag, every other line comes up between the last deal of a line
  and the next one exactly if the new bag is what was dealt last backwards, and so, being
  dealt from its tail, repeats the order (`Shuffle.OthersComeFirstIff`); the comment in
  `shuffle.go:15-16` promises it always. What always holds is that any 2n - 1 deals in a
  row show all n lines (`Shuffle.WindowsShowAll`).
* A gift of an item conserves items exactly when giver and receiver are different characters
  (`Items.GiftConservesIff`): the program compares nicks, so a player with two linked nicks
  can double an item. The comment that opens `trade.go` says that nothing is minted.
* Wiping the realm leaves the leaderboard a mirror of the levels exactly when at most
  100000 characters are on it (`Board.WipeAllMirrorsIff`): the sheets of the rest survive.
  A run that gets there is in `Board.CrowdOutlivesWipe`.

## Model

| member | source | states |
|---|---|---|
| Hostmask.Wildcard | internal/admin/hostmask.go:37-59 | the loop ends; true implies that the pattern matches, for every subject; on subjects without `*` it is true exactly when it matches |
| Hostmask.LastStarSuffices | internal/admin/hostmask.go:45-54 | the greedy step: once the stretch between two stars has been found at its earliest place, only the later star ever needs to be stretched |
| Hostmask.ScanSound | internal/admin/hostmask.go:37-59 | from every reachable position of the cursors, a verdict of true is a match |
| Hostmask.ScanComplete | internal/admin/hostmask.go:37-59 | from every position with a match left, on a star-free subject, the verdict is true |
| Hostmask.FaithfulIffNoStar | internal/admin/hostmask.go:40-48 | the verdict agrees with the meaning of every pattern on a subject if and only if the subject holds no `*` |
| Bus.MemBus.Offer | internal/botnet/bus.go:170-173 | one round of the publishing loop: that subscriber gets the event at the end of its inbox unless it is full, the others keep what they have |
| Bus.MemBus.Publish | internal/botnet/bus.go:165-176 | a call that nothing comes between offers the event to every subscriber |
| Bus.MemBus.Subscribe | internal/botnet/bus.go:179-185 | adds one empty inbox |
| Bus.NothingIsLost | internal/botnet/bus.go:165-185 | for a subscriber that never falls more than 64 events behind, received followed by waiting is exactly what it was offered, in that order |
| Coordinator.Coordinator.OnEvent | internal/botnet/coordinator.go:101-119 | a start begins a performance; an advance from somebody else is buffered for the run waiting for it, unless the buffer is full; own echoes are ignored; every performance of another run is what it was |
| Coordinator.Coordinator.BeginPerform | internal/botnet/coordinator.go:151-167 | an empty skit or a run already performed changes nothing, else the run starts at its first step with an empty buffer, and the bot's other runs are as they were |
| Coordinator.Coordinator.Speak | internal/botnet/coordinator.go:178-186 | the line emitted is that of the step the performance is at |
| Coordinator.Coordinator.Announce | internal/botnet/coordinator.go:187-196 | the advance published names that step, and the performance moves on by one |
| Coordinator.Coordinator.TakeAdvance | internal/botnet/coordinator.go:205-215 | the oldest buffered advance is consumed and moves the performance on exactly if it is the awaited one |
| Coordinator.Coordinator.EndPerform | internal/botnet/coordinator.go:170-175 | the run's entries disappear, the others stay |
| SkitSystem.StepKeeps | internal/botnet/coordinator.go:101-217 | every action of every bot, on a bus that may delay, reorder, repeat or drop advances, keeps the fleet's invariant: nobody is past a line that was not said, and every owner is past its own lines |
| SkitSystem.SkitsKeepOrder | internal/botnet/coordinator.go:101-217 | in every reachable state, the lines said in a run are a prefix of its script: each step once, in order, by its owner |
| SkitProgress.PlayKeeps | internal/botnet/coordinator.go:101-217 | on a lossless ordered bus every action keeps each buffer equal to the delivered advances of others that are still needed |
| SkitProgress.SpeakSelf | internal/botnet/coordinator.go:177-186 | a line is said only when all lines before it have been said and announced |
| SkitProgress.NeverStuck | internal/botnet/coordinator.go:162-217 | with every owner present, a fleet that can do nothing more has said the whole script and no performance is left |
| SkitProgress.SkitsAreCompleted | internal/botnet/coordinator.go:101-217 | every run is over after at most bots * (3 * steps + 3) actions, and one that can go no further has said the whole script |
| SkitProgress.NothingIsMissed | internal/botnet/coordinator.go:112-116 | no advance ever finds a full buffer, no awaited advance is discarded, and no bot is ever more than steps + 1 events behind, so a script of up to 63 steps fits an inbox of 64 |
| SkitRuns.OthersPass | internal/botnet/coordinator.go:101-217 | whatever is done in another run, its start and its end included, leaves a run as it was: its performances, its events, its lines and how far each bot has got in it |
| SkitRuns.OwnPlays | internal/botnet/coordinator.go:101-217 | and whatever is done in the run among others it could do alone, with the same effect on it |
| SkitRuns.StepStaysSound | internal/botnet/coordinator.go:101-217 | so every action of any run keeps what holds of a run alone on the ordered bus |
| SkitRuns.StuckAlone | internal/botnet/coordinator.go:162-217 | a run that could go on alone can go on among the others, if need be after deliveries of their events |
| SkitRuns.RunsAreCompleted | internal/botnet/coordinator.go:101-217 | with any other runs interleaved on the same bots, started at any time and ended or abandoned at any time, a run that nobody abandons takes at most bots * (3 * steps + 3) actions of its own, and once neither one of them nor a delivery is possible, its whole script has been said and nobody performs it any more |
| SkitRuns.NothingIsMissedAmongOthers | internal/botnet/coordinator.go:112-116 | and on the way none of its advances finds a full buffer or is discarded while awaited |
| SkitOrder.LastTwoServe | internal/botnet/bus.go:165-176 | if only the last two subscribers speak, led by the last, everyone is offered the events that matter to it in the order in which they were published, however the publishing loops interleave |
| SkitOrder.SkipsEchoes | internal/botnet/coordinator.go:106-108 | a bot's own advances, in whatever order they reach it, change nothing for it |
| SkitOrder.DeliverStaysLinked | internal/botnet/coordinator.go:101-119 | taking an event in on the in-process bus keeps the fleet in a state it could be in on an ordered bus |
| SkitRaces.StuckStays | internal/botnet/coordinator.go:205-221 | a bot at or before a step whose advance has been offered to it and is out of its inbox and buffer stays there whatever anybody does |
| SkitRaces.RacesAreLost | internal/botnet/coordinator.go:205-215 | whenever the owner of a step is served before another bot that waits for the event before it, some run reaches a state from which the skit is never completed |
| SkitRaces.LongScriptsAreLost | internal/botnet/bus.go:170-173 | the run in which a listener's inbox is offered one advance more than it holds, after which the skit is never completed |
| SkitAssured.MoveKeeps | internal/botnet/bus.go:165-176 | every move of a bot, and every round of a publishing loop, keeps the link to the ordered bus and brings the end of the run nearer |
| SkitAssured.StuckIsComplete | internal/botnet/coordinator.go:162-217 | a fleet of that kind that can do nothing more has said the whole script, and everyone has performed it to its end |
| SkitAssured.LastTwoComplete | internal/botnet/coordinator.go:101-221 | a skit of the last two subscribers, of at most 63 steps or of one bot alone, is over after at most bots * (5 * steps + 5) moves of bots and publishing loops, and is then complete |
| SkitAssured.OthersAreNotAssured | internal/botnet/bus.go:165-176 | of any other skit, of any length, some run reaches a state from which it is never completed |
| SkitAssured.LongIsNotAssured | internal/botnet/bus.go:170-173 | of a script of 64 steps or more in which somebody only listens, some run reaches a state from which it is never completed |
| SkitAssured.AssuredIffLastTwo | internal/botnet/bus.go:165-176 | the exact condition: a skit can be completed from every state it can reach if and only if the last subscriber leads it, only it and the one before it speak, and it has at most 63 steps or one bot |
| SkitClock.ReachIsPrompt | internal/botnet/coordinator.go:177-201 | nobody is further behind a step than the longest an event takes, and who announced the step before goes right on |
| SkitClock.InTimeIff | internal/botnet/coordinator.go:177-221 | nobody gives up on a step, however long events take up to a bound and in order, if and only if each delay and the events of its handover stay under 30 seconds |
| MapQuest.StepIsNearest | internal/idlerpg/quest.go:271-280 | a step that does not arrive ends at the grid point nearest to the exact one, which lies the step along the way; halves are rounded away from the start |
| MapQuest.StepGains | internal/idlerpg/quest.go:271-280 | a step that does not arrive brings the point closer by at least the step less 0.7072, rounding included |
| MapQuest.StepIsNoLonger | internal/idlerpg/quest.go:271-280 | nor does it bring it closer by more than the step and 0.7072 |
| MapQuest.BoxHolds | internal/idlerpg/quest.go:271-280 | such a step stays inside the box spanned by position and target |
| MapQuest.Party.AdvanceMapQuest | internal/idlerpg/quest.go:233-255 | one tick of the party: the first waypoint, then the second, then finished |
| MapQuest.AdvanceStaysOnMap | internal/idlerpg/quest.go:233-267 | a tick keeps the party on the grid, cuts the distance by at least 69.2928 or reaches the waypoint, and changes the leg only then |
| MapQuest.LegGains | internal/idlerpg/quest.go:233-280 | between any two ticks of one leg the distance has shrunk by 69.2928 to 70.7072 for each tick |
| MapQuest.TicksSpent | internal/idlerpg/quest.go:233-280 | either leg takes at most eleven ticks: two ticks of one leg are at most ten apart, and at ten the waypoint is within a step |
| MapQuest.LegLasts | internal/idlerpg/quest.go:233-280 | and at least as many as its length asks for: while the distance it began with is more than 70 and 70.7072 for each tick since, the leg is not over |
| MapQuest.JourneyEnds | internal/idlerpg/quest.go:233-280 | a map quest left alone ends within 22 ticks |
| World.Sheet.MoveOnMap | internal/idlerpg/world.go:50-96 | one move: placing, one travel step of 14, or 28 when mounted, less 4 in rain and 7 in snow, or drifting by up to 14 each way, kept within 1..500 |
| World.NeverLeavesRealm | internal/idlerpg/world.go:50-96 | after the first tick every coordinate stays in 1..500 on every run, so the 0 of an unplaced character never comes back |
| World.RoadGetsShorter | internal/idlerpg/world.go:62-79 | whatever the weather, a travelling tick arrives and clears the destination or cuts the distance by at least 6.2928 |
| World.RoadTakesTime | internal/idlerpg/world.go:62-79 | and comes at most 28.7072 closer, arriving only from within 28 |
| World.RoadEnds | internal/idlerpg/world.go:62-79 | a road is travelled to its end in at most 113 ticks |
| World.RoadStillAhead | internal/idlerpg/world.go:62-79 | and in no fewer than its length asks for: after i ticks at most 28.7072 * i of it is behind |
| RateLimit.Limiter.constructor | internal/ratelimit/ratelimit.go:28-43 | a bucket of exactly the burst asked for, full, earning exactly the rate asked for; a burst below 1 counts as 1 and a rate that is not positive as 1 a second |
| RateLimit.Limiter.Refill | internal/ratelimit/ratelimit.go:45-55 | tokens grow by the rate for every 1000000000 nanoseconds elapsed, up to the burst |
| RateLimit.Limiter.Allow | internal/ratelimit/ratelimit.go:58-67 | takes a token exactly if one is there |
| RateLimit.Limiter.Reserve | internal/ratelimit/ratelimit.go:72-82 | always takes a token and returns how long the debt takes to earn, in whole nanoseconds |
| RateLimit.RunsAreGood | internal/ratelimit/ratelimit.go:45-82 | over any run of both, the tokens are exactly the least room left over all past grants, and debt is never forgiven |
| RateLimit.ReleasesArePaced | internal/ratelimit/ratelimit.go:45-82 | release times never decrease, and any grants i..j satisfy j - i + 1 <= burst + perSecond * (nanoseconds between their releases) / 1e9, in debt or not, where burst and perSecond are what the caller of New gave, or 1 where those are too small |
| RateLimit.ClockReleasesArePaced | internal/ratelimit/ratelimit.go:72-82 | the same for the truncated waits, at the cost of at most one nanosecond's worth of tokens |
| RateLimit.ReserveIsEarliest | internal/ratelimit/ratelimit.go:72-82 | the instant Reserve returns is the earliest at which that law, in the caller's burst and rate, allows another message |
| RateLimit.AllowIffLawful | internal/ratelimit/ratelimit.go:58-67 | Allow grants if and only if that law allows a message now |
| Banter.WindowCounter.Allow | internal/engine/banter.go:60-80 | old hits are dropped, the call is granted exactly if fewer than the limit are left, and then recorded |
| Banter.VolumeIsBounded | internal/engine/banter.go:60-80 | over any run with a steady clock no half-open window holds more than the limit of granted events, whatever other keys do |
| Banter.RefusedIffFull | internal/engine/banter.go:74-79 | a call is refused if and only if the window that ends now already holds the limit |
| Cooldown.Manager.Ready | internal/cooldown/cooldown.go:26-34 | true exactly if the key has not fired within the cooldown; nothing changes |
| Cooldown.Manager.Use | internal/cooldown/cooldown.go:38-47 | fires and stamps exactly if ready |
| Cooldown.StepKeepsSpacing | internal/cooldown/cooldown.go:38-47 | firings of one key lie at least the cooldown apart, and an attempt that does not fire has one within the cooldown before it |
| Modes.OpChanges | internal/irc/irc.go:373-396 | the loop returns what the recursive reading of the mode string and its arguments says about operators |
| Modes.RoundTrip | internal/irc/irc.go:373-396 | rendering any list of signed changes in which exactly the argument modes carry an argument, then parsing, returns the operator changes in order with their signs |
| Modes.ServerIsUnderstood | internal/irc/irc.go:373-396 | the same for any convention about which letters carry an argument, so that the meaning of a line is what a server of that convention rendered |
| Modes.ReadsRightIff | internal/irc/irc.go:380-394 | for any server that gives `o` an argument, a mode string is read right for all arguments if and only if before each `o` parser and server have counted equally many argument letters |
| Modes.InStepIffNoGreed | internal/irc/irc.go:380-394 | if the server gives no letter an argument that the parser does not, that means that no `o` follows a letter to which only the parser gives one |
| Modes.ReadsRightIffNoUnlimit | internal/irc/irc.go:380-394 | for a server that differs on `-l` alone: if and only if no operator change follows a `-l` |
| Modes.LostChanges | internal/irc/irc.go:380-394 | two lines that lose their operator change: `-l-o bot`, and `+q+o alice` on a server after RFC 2811 section 4 |
| ChanKeep.EntryReads | internal/irc/chankeep.go:104-113 | any run of sigils in front of a nick is stripped, and the entry counts as an operator exactly if one of `@&~` is among them |
| ChanKeep.Chankeeper.Reset | internal/irc/chankeep.go:60-65 | nothing is known any more; the cooldown survives |
| ChanKeep.Chankeeper.Forget | internal/irc/chankeep.go:70-76 | one channel and its burst are dropped, the others stay |
| ChanKeep.Chankeeper.OnNames | internal/irc/chankeep.go:95-122 | the first line of a burst replaces the channel's record, later ones add to it |
| ChanKeep.Chankeeper.OnEndNames | internal/irc/chankeep.go:126-131 | the burst is closed and the channel enforced |
| ChanKeep.Chankeeper.OnJoin | internal/irc/chankeep.go:133-139 | the nick is a member, and the channel is enforced |
| ChanKeep.Chankeeper.OnLeave | internal/irc/chankeep.go:141-148 | the nick is neither member nor operator of that channel |
| ChanKeep.Chankeeper.OnQuit | internal/irc/chankeep.go:150-158 | nor of any channel |
| ChanKeep.Chankeeper.OnNick | internal/irc/chankeep.go:160-174 | membership and operator status follow the nick in every channel |
| ChanKeep.Chankeeper.OnModeOp | internal/irc/chankeep.go:177-188 | one operator bit is set or cleared, and the channel is enforced |
| ChanKeep.Chankeeper.OnMode | internal/irc/irc.go:321-334 | a MODE line applies the operator changes read in it one after the other, and the channel is enforced after each |
| ChanKeep.Chankeeper.HoldsOp | internal/irc/chankeep.go:192-198 | true exactly if the record has the bot among the channel's operators |
| ChanKeep.Chankeeper.Enforce | internal/irc/chankeep.go:202-225 | what is sent is what the cooldown lets through of the present, protected, un-opped other nicks, in some order, and nothing unless the bot holds ops |
| ChanServer.EvolvesNickByNick | internal/irc/irc.go:257-334 | what a message does to one nick in one channel on the server: a nick change moves membership and operator status to the new nick and leaves everybody else alone, a join, departure or quit concerns that nick only, and a MODE line leaves a member what the last change about it says |
| ChanServer.HonestStep | internal/irc/chankeep.go:60-198 | every message such a server can send, MODE lines that are read right among them, keeps the record within the truth, exact about the operator status of everybody tracked but the bot, and equal to the truth where a burst has ended |
| ChanSends.RecordIsTrue | internal/irc/irc.go:257-334 | the same over any run, reconnects included, and HoldsOp never overstates |
| ChanSends.SendsAreWarranted | internal/irc/chankeep.go:202-225 | every `+o` sent goes to a nick other than the bot that really is present and protected, and that some enforcement of the message went through; for each enforcement that did, the bot really holds ops, and the nick really lacks them, if and only if what of the line comes after it leaves that so |
| ChanSends.OutrightWarranted | internal/irc/chankeep.go:202-225 | so whatever is sent at any message but a MODE line, and at a MODE line to a nick that the enforcement after its last operator change went through, is sent by a bot that holds ops to a nick that has none |
| ChanSends.TargetsAreReached | internal/irc/chankeep.go:202-225 | whoever the record shows in need at an enforcement has been sent a `+o` within the cooldown |
| ChanSends.NeedIsMet | internal/irc/chankeep.go:202-225 | in a channel whose burst has ended, so has everyone who really is present, protected and without ops while the bot really has them |
| ChanSends.SendsAreSpaced | internal/irc/chankeep.go:219-224 | over the whole run two `+o` for one nick in one channel are at least five seconds apart |
| ChanSends.CoolKeyIsInjective | internal/irc/chankeep.go:220-220 | a cooldown key names one channel and one nick |
| ChanMisreads.KeepsRecordIff | internal/irc/irc.go:321-334 | whatever the record and the arguments, a MODE line keeps the record true if and only if parser and server are in step at each `o` of it |
| ChanMisreads.MissedLoss | internal/irc/irc.go:321-334 | after `-l-o` with the bot's nick HoldsOp is true although the bot holds no ops |
| ChanMisreads.SentTooLate | internal/irc/chankeep.go:177-188 | at `-oo nick bot` the bot sends the nick a `+o` when it holds no ops any more |
| ChanMisreads.SentInVain | internal/irc/chankeep.go:177-188 | at `+oo bot nick` the bot sends the nick a `+o` although it has ops already |
| Markov.Chain.constructor | internal/markov/markov.go:30-35 | an empty table; an order below 1 becomes 2 |
| Markov.Chain.Learn | internal/markov/markov.go:50-70 | every window of the padded line is recorded with the token after it |
| Markov.LearningOnlyAdds | internal/markov/markov.go:66-69 | what was recorded before stays, and comes first |
| Markov.Chain.Generate | internal/markov/markov.go:73-102 | for any draws, each word is the option drawn in the state reached, out of those recorded for it, within the word limit of 30 or what was asked for, and stopping short of it means that the end token was drawn or no token was an option |
| Markov.KeyIsInjective | internal/markov/markov.go:47-47 | tokens without the separator have equal keys exactly if they are equal |
| Markov.TableRecordsFollowers | internal/markov/markov.go:50-70 | after any lines, the options under a state are the tokens that followed it, once per occurrence and in order |
| Markov.FollowersAreCounted | internal/markov/markov.go:66-69 | a token lies under a state once for every place of a line where it stood after it |
| Markov.FollowersOccur | internal/markov/markov.go:50-70 | a token is an option in a state exactly if it stood after it in some learned line |
| Markov.NoDeadEnds | internal/markov/markov.go:86-89 | once a line has been learned no walk reaches a state without options, so that break is never taken |
| Markov.OutputIsLearned | internal/markov/markov.go:73-102 | every N+1 consecutive tokens of the padded output stood in some learned line |
| Markov.EndIsLearned | internal/markov/markov.go:86-96 | output that stops short of the limit stands where the end token was learned, and if no learned word is the end token, its last N words are those of a learned line |
| Markov.EndsAreLineEndsIff | internal/markov/markov.go:50-96 | every place where a walk can stop is the end of a learned line if and only if no learned word is the end token |
| Markov.SingleLineComesBack | internal/markov/markov.go:50-102 | what a chain says that learned one line without a repeated state, whatever the draws, is that line as far as the word limit goes if and only if no word so far is the end token |
| Markov.ComesBackIff | internal/markov/markov.go:50-102 | with a limit beyond the line, everything the chain can say is that line if and only if no state comes twice in it and no word is the end token |
| Markov.BoldCutsShort | internal/markov/markov.go:50-102 | of a line with a lone bold code only what stands before the code ever comes back |
| Shuffle.ShuffleInPlace | internal/engine/shuffle.go:48-48 | the shuffle permutes, each position from the last to the second changing places with the partner drawn for it |
| Shuffle.EveryOrderComes | internal/engine/shuffle.go:48-48 | every order can come out |
| Shuffle.OneWayOnly | internal/engine/shuffle.go:48-48 | and if the elements differ each order comes out of one choice of draws only, so that even draws make every order equally likely |
| Shuffle.Engine.OpenBag | internal/engine/shuffle.go:43-57 | a new bag is a permutation of the pool's indices, with the next line swapped away if it would repeat |
| Shuffle.Engine.NextFromBag | internal/engine/shuffle.go:34-62 | deals the last line of the bag, opening a new bag only when it is empty |
| Shuffle.DealsAreFair | internal/engine/shuffle.go:34-62 | in a pool of n lines every aligned block of n deals is a permutation, after m deals each line has come up floor(m/n) or ceil(m/n) times, and with n > 1 none comes up twice in a row, refills included |
| Shuffle.WindowsShowAll | internal/engine/shuffle.go:34-62 | any 2n - 1 deals in a row from a pool of n lines show every line, refills included |
| Shuffle.OthersComeFirstIff | internal/engine/shuffle.go:42-57 | at a refill, every other line comes up between the last deal of each line and the next one if and only if the bag that is opened is the last n deals backwards |
| Shuffle.OthersNeedNotComeFirst | internal/engine/shuffle.go:13-17 | a run in which line 1 of three comes again with only line 2 in between |
| Shuffle.PoolsAreIndependent | internal/engine/shuffle.go:34-62 | interleaved pools do not disturb each other |
| Raid.ItemSum | internal/idlerpg/idlerpg.go:1194-1202 | sums the power of the ten slots, weighted by rarity |
| Raid.GearIs | internal/idlerpg/idlerpg.go:1194-1202 | each of the ten slots counts once |
| Raid.EveryBlowCounts | internal/idlerpg/worldboss.go:160-162 | a fighter deals at least one point whatever it wears |
| Raid.MembersStrike | internal/idlerpg/guildraid.go:127-136 | the blows of a tick come from members in the roster only, each counts, and there are none exactly if no member is there |
| Raid.EachDealsTheirStrength | internal/idlerpg/guildraid.go:127-136 | each member in the roster deals exactly their strength, and nobody else anything |
| Raid.StrikersAreNamed | internal/idlerpg/guildraid.go:127-136 | and is known by the nick they have in the roster |
| Raid.Summon | internal/idlerpg/worldboss.go:134-150 | a champion's health is positive and scales with the levels, 300 + 30 for each level and head for a guild, 200 + 40 for the realm |
| Raid.CrowdAddsUp | internal/idlerpg/worldboss.go:134-141 | everybody adds one more than their level to what the champion is scaled by |
| Raid.Champion.Tick | internal/idlerpg/guildraid.go:126-151 | one tick: every blow lands on the ledger and the health, and the milestones passed are announced |
| Raid.NextKeeps | internal/idlerpg/worldboss.go:166-209 | an attended tick takes at least one point, and keeps health and ledger in agreement |
| Raid.HealthIsAccountedFor | internal/idlerpg/guildraid.go:95-162 | at every moment of every raid the health lost is the damage on record |
| Raid.LedgerIsByStriker | internal/idlerpg/guildraid.go:127-136 | the ledger grows for each striker by exactly what that striker dealt |
| Raid.MilestonesAreOrdered | internal/idlerpg/worldboss.go:193-202 | over a whole raid the announcements are the first few of 75, 50, 25: m among them exactly if the health is below m + 1 percent |
| Raid.RaidsEnd | internal/idlerpg/guildraid.go:114-157 | a raid is over once as many ticks have been attended as the champion has health, or a tick comes after the deadline |
| Raid.DepartsWhenLate | internal/idlerpg/guildraid.go:114-123 | a champion departs only at a tick after the deadline |
| Raid.FallenWasStruck | internal/idlerpg/guildraid.go:152-157 | a fallen champion has somebody on record, and everyone on record has a name |
| Spoils.TopDamager | internal/idlerpg/worldboss.go:242-251 | the biggest contributor, ties going to the smallest key, or nobody if no damage was dealt |
| Spoils.TopIsUnique | internal/idlerpg/worldboss.go:245-249 | the answer does not depend on the order in which the map is iterated |
| Spoils.TopIs | internal/idlerpg/worldboss.go:242-251 | nobody dealt more than the top contributor, and who dealt as much has a later key |
| Spoils.BeforeIs | internal/idlerpg/worldboss.go:245-249 | one key is before another exactly if it is a proper prefix or smaller at the first difference |
| Spoils.RewardGuildRaid | internal/idlerpg/guildraid.go:166-193 | every striker's purse gains the hoard divided by the number of strikers, the top contributor's half the hoard besides, nobody else's anything, and the vault a quarter |
| Spoils.RewardWorldBoss | internal/idlerpg/worldboss.go:212-239 | every hero's purse gains the share, the top contributor's a second one, nobody else's anything |
| Spoils.BossShareIs | internal/idlerpg/worldboss.go:213-221 | the share is half the hoard divided by the number of heroes, and a hundred |
| Spoils.GuildHoardIsShared | internal/idlerpg/guildraid.go:168-192 | the strikers' shares never sum above the hoard, and a fallen champion mints at most 7/4 of it in all |
| Spoils.BossHoardIsShared | internal/idlerpg/worldboss.go:213-236 | a fallen world boss mints at most its health and a hundred for each hero and one more |
| GuildBook.DropKeeps | internal/idlerpg/guild.go:144-162 | taking a player out leaves the book in order: no empty guild, a founder among the members, the player in none |
| GuildBook.DropTouchesOne | internal/idlerpg/guild.go:146-159 | only the player's own guild changes, and it disbands exactly if they were its last member |
| GuildBook.DropIsGone | internal/idlerpg/guild.go:144-162 | by places in the old list: the others keep their order, a founder who goes is followed by the earliest member who stays, and a guild of nobody else is gone |
| GoldRules.CreatingIs | internal/idlerpg/guild.go:302-328 | a guild costs 500, has a free name of up to 24 characters, and begins with its guildless founder alone; else nothing changes |
| GoldRules.JoiningIs | internal/idlerpg/guild.go:330-353 | who joins comes last in a list of at most twelve; else nothing changes |
| GoldRules.LeavingIs | internal/idlerpg/guild.go:355-363 | leaving and being wiped take the player out of their guild as above and out of nothing else |
| GoldRules.DepositingIs | internal/idlerpg/guild.go:365-388 | a deposit takes the amount from the purse and adds it to the vault of the player's own guild; else nothing changes |
| GoldRules.BuyingIs | internal/idlerpg/guildperk.go:68-121 | level n of a perk costs n times 800, 600 or 1000 and there are five, five or three levels; the vault pays and the level rises by one, else nothing changes |
| GoldRules.CallingIs | internal/idlerpg/guildraid.go:43-91 | a raid costs the vault 1000 and needs that there is none; else nothing changes |
| GoldRules.RaidRoundIs | internal/idlerpg/guildraid.go:114-151 | a champion past its deadline departs without a trace; before it loses exactly what is dealt, recorded by striker |
| GoldRules.RaidEndsIs | internal/idlerpg/guildraid.go:152-193 | if that is all it has, the raid is over and the vault gains a quarter of its health |
| GoldRules.RaidSpoilsAre | internal/idlerpg/guildraid.go:166-193 | and each striker on the ledger gains an equal part of it, the top contributor half of it besides |
| GoldRules.BossRoundIs | internal/idlerpg/worldboss.go:166-239 | the same for the world boss, who leaves half its health in equal parts and a hundred for each, twice that for the top contributor |
| GoldLedger.StepKeeps | internal/idlerpg/guild.go:302-388 | every command keeps each player in at most one guild, one to twelve distinct members with the founder among them, perks within their limits, and no purse or vault below zero |
| GoldLedger.StepBalances | internal/idlerpg/trade.go:50-57 | purses and vaults together change by exactly the payout or sink of the command: founding 500, raids 1000, perks, shops, wipes, disbanded vaults, the spoils of raids and world bosses; gifts, deposits and joins move gold without changing it |
| GoldLedger.SpoilsAreBounded | internal/idlerpg/worldboss.go:212-239 | whenever it happens in a run, a fallen guild champion brings in at most 7/4 of its health, and a fallen world boss at most its health and a hundred for each hero and one more |
| GoldLedger.RealmStaysInOrder | internal/idlerpg/guild.go:144-162 | both over any run of all commands |
| Realm.Realm.GuildOf | internal/idlerpg/guild.go:103-114 | the guild the player belongs to, in whatever order the guilds are looked through |
| Realm.Realm.DropFromGuild | internal/idlerpg/guild.go:144-162 | the player is in no guild, empty guilds are gone, the mantle passes to the earliest member who stays, by place in the old list |
| Realm.Realm.GuildCreate | internal/idlerpg/guild.go:302-328 | founds and takes 500 exactly if the name is usable and free, the player is guildless and can pay; else nothing |
| Realm.Realm.GuildJoin | internal/idlerpg/guild.go:330-353 | joins exactly if guildless, the guild stands and has fewer than twelve members |
| Realm.Realm.GuildLeave | internal/idlerpg/guild.go:355-363 | leaves, if in a guild |
| Realm.Realm.GuildDeposit | internal/idlerpg/guild.go:365-388 | a positive amount the purse covers moves to the vault; else nothing |
| Realm.Realm.PerkCmd | internal/idlerpg/guildperk.go:68-121 | the next level of a known perk below its limit is bought exactly if the vault covers base * (level + 1) |
| Realm.Realm.CallRaidCmd | internal/idlerpg/guildraid.go:43-91 | a guild without a raid pays 1000 from its vault for a fresh champion scaled to its own members' levels; else nothing |
| Realm.Realm.GuildRaidTick | internal/idlerpg/guildraid.go:114-157 | a raid past its deadline departs, else is fought, and a fallen champion's spoils are paid once |
| Realm.Realm.SpawnWorldBoss | internal/idlerpg/worldboss.go:126-157 | with somebody online and no boss about, a fresh one scaled to the crowd; else nothing |
| Realm.Realm.WorldBossTick | internal/idlerpg/worldboss.go:166-209 | a boss past its deadline departs, else the whole roster strikes, and a fallen boss's spoils are paid once |
| Realm.Realm.GiveGold | internal/idlerpg/trade.go:45-57 | gold moves exactly if both play and the purse covers a positive amount |
| Realm.Realm.GoldVerb | internal/idlerpg/idlerpg.go:719-739 | an adjustment never leaves a purse below zero |
| Realm.Realm.WipeChar | internal/idlerpg/idlerpg.go:745-765 | the purse is gone and the player is in no guild |
| Realm.Realm.WipeRealm | internal/idlerpg/idlerpg.go:768-791 | the purses of the characters found, every guild and the world boss are gone |
| Items.Wardrobe.StashCmd | internal/idlerpg/stash.go:88-107 | a worn item moves to the end of a stash that has room, and its slot is emptied |
| Items.Wardrobe.EquipCmd | internal/idlerpg/stash.go:125-148 | the chosen item is worn, the others keep their order, and the one in its slot, if any, goes to the end of the stash |
| Items.Wardrobe.GiveItem | internal/idlerpg/trade.go:61-83 | the item moves to the end of the other stash if there is room |
| Items.GiftConservesIff | internal/idlerpg/trade.go:67-81 | a successful gift conserves every item if and only if giver and receiver are different characters |
| Items.ItemsAreConserved | internal/idlerpg/stash.go:64-150 | over any run of banking, equipping and giving to others, every item exists as often as before and no stash holds more than twelve |
| Items.EquipUndoesStash | internal/idlerpg/stash.go:64-150 | equipping what was just banked restores everything |
| Board.Game.PlayCmd | internal/idlerpg/idlerpg.go:325-343 | a new player gets level 0 and a place on the board; everyone is put online |
| Board.Game.MarkPresent | internal/idlerpg/idlerpg.go:826-835 | only the enrolled are put online |
| Board.Game.OnNick | internal/idlerpg/idlerpg.go:886-899 | the online entry follows the nick |
| Board.Game.TickOne | internal/idlerpg/idlerpg.go:940-957 | time passes, and a spent clock raises level and score by one |
| Board.Game.SetLevelVerb | internal/idlerpg/idlerpg.go:708-716 | the score moves by as much as the level |
| Board.Game.RebirthCmd | internal/idlerpg/rebirth.go:45-62 | from level 50 on, level and score fall to 0 and one rebirth is counted |
| Board.Game.WipeChar | internal/idlerpg/idlerpg.go:745-765 | sheet, score and every online entry of the character are gone |
| Board.Game.WipeEverything | internal/idlerpg/idlerpg.go:768-797 | the sheets found at the top of the board, the board and the online list are gone |
| Board.WipeAllMirrorsIff | internal/idlerpg/idlerpg.go:769-782 | after wiping the realm the board mirrors the levels if and only if at most 100000 characters were on it |
| Board.CrowdOutlivesWipe | internal/idlerpg/idlerpg.go:769-782 | a run of 100001 enrolments and a wipe after which board and levels differ |
| Board.BoardMirrorsLevels | internal/idlerpg/idlerpg.go:334-341 | over any run a key is on the board exactly if its sheet has a level, with that score, and only enrolled characters are online |
| Board.RebirthHelps | internal/idlerpg/rebirth.go:19-34 | a rebirth never slows levelling down and at most halves the time |
| Board.TimeIs | internal/idlerpg/rebirth.go:19-34 | each rebirth takes five percent off the time to level, down to half of it, and at least one second is left |
| Quest.QuestKeeper.QuestKillCredit | internal/idlerpg/quest.go:211-224 | only a quester's kill on an active hunt counts, and for one; says so when it is the last needed |
| Quest.QuestKeeper.AdvanceMapQuest | internal/idlerpg/quest.go:233-256 | only an active map quest moves, and says so when it is at its end |
| Quest.QuestKeeper.TakeQuest | internal/idlerpg/quest.go:315-321 | the quest is taken out of the slot, by one taker only |
| Quest.QuestKeeper.QuestViolation | internal/idlerpg/quest.go:341-353 | a quest is ruined exactly if one is active and the culprit belongs to its party |
| Quest.QuestKeeper.Activate | internal/idlerpg/quest.go:155-158 | the new quest becomes the active one |
| Quest.DoKeeps | internal/idlerpg/quest.go:93-120 | every stretch under the lock, of the tick thread or of a handler, keeps the invariant: between two stretches the slot holds the quest the tick thread saw, or nothing |
| Quest.QuestsAreSettledOnce | internal/idlerpg/quest.go:196-362 | however ticks and handlers interleave, every quest ever begun is active and unsettled, or was settled exactly once: rewarded when earned, failed when a hunt ran out short of its target, ruined by one of its own party, or wiped |
| Quest.ProgressIsKills | internal/idlerpg/quest.go:211-224 | along any run, the progress of a quest grows by exactly the number of kills that happened while it was the active hunt, by one of its members |
| Quest.HuntsAreCounted | internal/idlerpg/quest.go:164-224 | from the beginning, a hunt that was rewarded took exactly four such kills for each member and six more, and one that failed had fewer |
| Quest.TimedIsRewarded | internal/idlerpg/quest.go:93-120 | a tick rewards a timed quest if and only if its time has come, and else leaves everything as it is |
| Quest.HuntFails | internal/idlerpg/quest.go:93-120 | a tick fails a hunt if and only if its time has come |
| Quest.LastKillRewards | internal/idlerpg/quest.go:211-231 | a kill that counts leads to the reward if and only if the target is reached with it |
| Quest.MapQuestWalks | internal/idlerpg/quest.go:93-120 | a tick moves the party of a map quest on by one step, and rewards it if and only if it is at its end |
| Quest.SlipRuins | internal/idlerpg/quest.go:341-362 | whatever the tick thread is at, a slip ruins the active quest if and only if it is by one of its party, and a wipe takes it away |
| Quest.QuestBegins | internal/idlerpg/quest.go:155-158 | a tick without a quest begins the one drawn |
| Quest.NothingIsReplaced | internal/idlerpg/quest.go:155-158 | a new quest never takes the place of an active one |
| Draft.Dedup | internal/idlerpg/quest.go:285-293 | one player for each character key online |
| Draft.DraftParty | internal/idlerpg/quest.go:284-303 | different characters who are all online, four of them or all there are |
| Draft.DraftedQuestIsFresh | internal/idlerpg/quest.go:140-193 | whatever kind is drawn, the quest made for a drafted party of two to four has that party, no progress, a road on the map, and, if a hunt, a target of four for each and six |
| Draft.StartQuest | internal/idlerpg/quest.go:124-193 | a quest begins exactly if at least two characters are online, for four of them or all there are, of the kind drawn |

## Left out

- Floating point: distances, tokens and waits are exact reals, and the square root of a distance comes in as the real whose square it is. Level times, an exponential, come in as a parameter.
- Case folding: nicks, channels, slugs, slots, skit and perk names come in already lowered, and the case-folding wrapper of the glob matcher, like the building of hostmasks, is not modelled. Characters stand for bytes.
- Integers are unbounded; 64-bit overflow is not modelled.
- Store failures and persistence: every store call succeeds, saving does nothing, and a restart is not modelled. Redis is not part of this model.
- Distributions: random draws are arbitrary values in their range.
- Commands of the game are atomic, except for the quest, whose stretches under its lock interleave.
- Bus.MemBus.Publish: a call without others in between; the rounds of several calls interleave in SkitFanout.
- Bus.NothingIsLost: one subscriber's inbox; subscribers need not agree on an order, and SkitFanout follows them all.
- SkitClock.InTimeIff: the time that saying a line takes counts as delay, and a timer that goes off in the same instant as the advance comes counts as late.
- SkitProgress.SkitsAreCompleted: assumes a bus that delivers everything to everyone in one order, as a Redis channel is meant to (Redis is not part of this model) and the in-process bus does not; one run, as SkitRuns.RunsAreCompleted has any number of them, and no step waits longer than the timeout of waitForStep, as SkitClock.InTimeIff says when; cancelled contexts, hot reloading of skits and the cooldown of tryStart are not modelled there.
- SkitAssured.AssuredIffLastTwo: one run at a time, without timeouts; of scripts of 64 steps and more in which both bots of a fleet of two speak, only that such a skit must be one of the last two is proved.
- SkitAssured.LastTwoComplete: the same, and nothing about those scripts.
- SkitSystem.SkitsKeepOrder: a start event is not delivered again to a bot whose performance of that run has ended.
- ChanSends.RecordIsTrue: the runs hold the MODE lines that are read right, as ChanMisreads.KeepsRecordIff says which; a NAMES burst of a channel is not interleaved with membership changes of that channel, and owner and admin sigils count as operator status, as in the program.
- ChanSends.SendsAreWarranted: the same runs; the server state is that after the whole message the bot is reacting to.
- ChanSends.SendsAreSpaced: one clock reading for each message.
- RateLimit.ReleasesArePaced: the clock does not run backwards.
- Banter.VolumeIsBounded: the clock does not run backwards, and the limit and window of a key stay the same.
- Markov.TableRecordsFollowers: the words hold no NUL, the separator of the keys.
- Shuffle.DealsAreFair: the size of the pool stays the same; different pools have different keys.
- World.Sheet.MoveOnMap: the biome's weather is the sky that comes in.
- Raid.Champion.Tick: a world boss is struck by the whole roster, so its members are everyone in it; damage maps from before damage was tracked are not modelled.
- Spoils.RewardGuildRaid: the time taken off the strikers' clocks, a random share, is not modelled.
- GoldLedger.StepKeeps: gold earned in small fights and finds, and spent in shops, is one command each; the items and effects bought are not modelled.
- Items.ItemsAreConserved: finding, salvaging, enchanting and buying items change the items and are not modelled.
- Board.Game.TickOne: the step and the new time to level come in as parameters; the order in which the ranking lists equal scores is not modelled.
- Quest.QuestsAreSettledOnce: rewards and penalties on the clocks of the party are not modelled, only that each quest is settled once.
- The idle bonus of a guild, weather, world events, duels, alignments, feats, dungeons, pets, towns, hangman, trivia and the dashboard: guarded single steps or presentation.
- Transports, link authentication, accounts, plugins and configuration: input and output, or cryptography.
