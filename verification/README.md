# A verified model of the party-game server

The server runs rooms in which players with secret roles play rounds of minigames, may hack each
other, accuse each other and defuse a bomb against one match clock. This project models its core in
Dafny and proves what holds over every run of it.

## What is modelled

* **The room's state machine.** `room_state.dfy` has the room, the private half, the events and the
  selectors; `transitions.dfy` every handler as a step on values; `room_object.dfy` the same handlers
  as methods that update a copy of the room in place. Each of its methods is tied to the step of the
  same name; the table lists the entry points and those with loops or an order of their own, and the
  others state the same of the remaining handlers. `room_invariant.dfy`
  states what holds of a room at rest; `room_proofs`, `start_proofs`, `round_proofs`, `phase_proofs`,
  `special_proofs`, `accusation_proofs`, `match_proofs` and `step_proofs.dfy` prove that every handler
  keeps it, `runs.dfy` that every run does. `frames.dfy` states what a step leaves alone.
* **What that means over whole runs.** `outcomes.dfy` (parts by phase, fair turns, verdicts, ledgers,
  stale clocks, one expiry per phase), `progress.dfy` (when the match cannot stall), `game_names.dfy`
  (the selection that makes it stall, when it can happen and what becomes of it), `exactly_once.dfy`
  (repeated and reordered actions), `accusation_runs.dfy` (what decides a vote, what it leaves alone,
  the cooldown), `crew_wins.dfy` (the match can always be won).
* **What each event leads to.** `dispatch.dfy` (who is answered at all), `match_course.dfy` (lobby,
  reveal, introduction, the end of the match, connections, the roster, how long a phase lasts),
  `round_course.dfy` (selection, hack window, play, results), `accusation_course.dfy` and
  `special_outcomes.dfy` say of every event in every phase what it is answered with and what the room is
  then, without naming a handler; `turns.dfy` has the order of turns they share. `draws.dfy` shows that
  whatever is drawn can come out in every way the rules allow.
* **The protocol around it.** `room_actor.dfy` has the actor's queue with its awaits and its two-write
  commit, as a machine whose tasks are resumed in any order and as an object; `actor_runs.dfy` connects
  it to the state machine. `timer_scheduler.dfy` has both schedulers, `timer_services.dfy` the phase
  timer and match clock services beside the queue.
* **The games and tools.** `defend_it`, `describe_it`, `predict_them`, `single_submission`,
  `minigames`, `bomb_content` and `bomb_protocol.dfy`; `random`, `admin_rotation`, `match_clock`,
  `rate_limiter` and `quiz_engine.dfy`.

## Conventions

* Time is an integer that never goes back between handled events; one event reads it once. Random
  numbers are arbitrary reals in [0, 1), one arbitrary stream for each place that draws them. Ids come
  from a counter, so a fresh id is larger than every earlier one.
* A handler that throws yields no room; the actor then keeps the one it had, as for a rejection.
* `World` carries history variables beside the room: the Admins assigned in the match, and when and
  for how long the clock was paused. No handler reads them.
* A configuration is playable when its role rule is known, it asks for at least four players, and its
  special game takes three to five. Only the results about progress and about the timers assume it.
* The actor's operations are arbitrary functions of the two halves, with arbitrary storage outcomes; a
  storage call that fails has no effect.

## Where code and description differ

The model follows the code.

* "The match must never stall on one player" (`transitions.ts` line 203) is false at one input. The only
  guard on the name of a selected game is that two tables answer to it (lines 659-661), and as plain
  objects they answer also to every name inherited from `Object.prototype`, such as "toString", with
  values without bounds on the number of participants. The wire lets any name of up to 64 characters
  through (`gateway/schemas.ts` line 47). The selection is accepted, and the timer of the hack window
  then throws, is logged and not set again (`timers/phase-timer-service.ts` lines 158-164); so does a
  participant's disconnect. As such a game has no version, the stored room is refused when it is read
  back (`persistence/schemas.ts` line 171), so a restart loses it. `MinigameId` has the inherited names as
  one more value; `Progress.NoStall`, `RoundProofs.ProceedValid` and the timer results say exactly when
  progress holds, and `GameNames` proves that the case is reachable, how it comes about and what ends it.
* The header of `transitions.ts` (lines 40-46) lists MINIGAME_SELECT among the phases that never wait;
  it waits for the Admin (lines 100-105).
* "Rejected means unchanged" is false of `handleEvent` in REMATCH_LOBBY, which resets first; it is true
  of the room the actor keeps (`Outcomes.RejectedLeavesRoom`).
* A timeout selection of PREDICT_THEM with four players picks one predictor, below the two of the
  limits table; the game accepts that (`RoundProofs.AutoSelectionWithinLimits`).
* ABANDONED is left again when a clock that still runs expires (`MatchProofs.ClockRunsOut`).
* After a compensating delete that fails, public and private halves of different versions are stored
  (`RoomActors.DurableUnlessStuck` says exactly when).
* An accusation raised in a discussion returns without asking whether the special game is due, which
  only defers it.

## Model

| member | source | states |
|---|---|---|
| Runs.ReachableValid | apps/server/src/fsm/transitions.ts:941-1051 | Whatever events, roster steps, random numbers and clock readings a room is offered from its creation on, the room the actor keeps satisfies the whole invariant `RoomInvariant.Valid`: which parts exist in which phase, rosters, hacks, firewall, clock, Admin rotation, accusation, verdict |
| Runs.StepValid | apps/server/src/fsm/transitions.ts:941-1051 | One step of the relation the actor uses (accepted results become the room, everything else leaves it) keeps that invariant |
| Runs.StepFrame | apps/server/src/fsm/transitions.ts:77-115 | A step either leaves the room, goes on with the same phase (same clock, Admin, verdict; sequence numbers only grow), or begins a phase now under a fresh id |
| Outcomes.PartsByPhase | apps/server/src/fsm/transitions.ts:77-115 | In every reachable room the resting phase fixes which of round, module state, special round, accusation and locked suspects exist, whether there is a winner and a duration, and what the match clock does |
| Outcomes.RostersAgree | apps/server/src/fsm/room-lifecycle.ts:84-128 | Public and private rosters of every reachable room list the same distinct players |
| Outcomes.VerdictIsSound | apps/server/src/fsm/transitions.ts:479-525 | In the final results the crew has won exactly when the last accusation was approved and named precisely the holders of the hacker role; the public hacker count is their number |
| Outcomes.WinnerStands | apps/server/src/fsm/transitions.ts:551-576 | Once set, the winner stays through every run in which no restart or start is accepted when its turn comes; refused ones may be among the inputs |
| Outcomes.WinnerStandsOneStep | apps/server/src/fsm/transitions.ts:926-937 | One step leaves a winner as it is, exactly unless it is an accepted restart or start, and then there is none |
| Outcomes.AdminTurnsFair | apps/server/src/fsm/transitions.ts:117-129 | Within a match the assigned Admins, with those queued, are consecutive blocks naming everybody once; turn counts of two players never differ by more than one |
| Outcomes.HacksBalance | apps/server/src/fsm/transitions.ts:697-721 | Hacks left plus hacks accepted in the log are two per hacker, in every reachable room |
| Outcomes.RoundHacksFit | apps/server/src/fsm/transitions.ts:711-720 | Hacked players of a round are distinct participants, exactly as many as hackers who acted |
| Outcomes.FirewallBalance | apps/server/src/fsm/transitions.ts:106-111 | The firewall is up exactly when it was activated once more than consumed, is activated at most once, and no hack window ever rests behind it |
| Outcomes.ClockBalances | apps/server/src/fsm/match-clock.ts:20-58 | A deadline exists exactly while the clock runs; remaining time stays within the total; it is paused at most once a match; unless that pause came late, deadline = start + total + time paused - penalties |
| Outcomes.PausedClockNeverExpires | apps/server/src/fsm/transitions.ts:974-983 | After a running clock has been paused, an expiry with its id is refused at every later point of every run, also once the clock runs again |
| Outcomes.OneExpiryPerPhase | apps/server/src/fsm/transitions.ts:1004-1006 | After one accepted expiry of a phase every other expiry for it is refused as stale, for ever |
| Outcomes.RejectedLeavesRoom | apps/server/src/fsm/transitions.ts:926-937 | A rejected event returns the room it was given, except exactly a start from the rematch lobby by the host with an unfit number of players, which returns a reset room; the kept room is unchanged either way |
| Progress.NoStall | apps/server/src/fsm/transitions.ts:737-795 | In every timed phase of a room in order, with a playable configuration, the phase's own timer is accepted and the phase named for it begins under a new id, exactly if the round in the room plays a game of the registry; otherwise it throws |
| GameNames.NeverStalls | apps/server/src/fsm/transitions.ts:655-694 | Whatever a playable room is sent from its creation on, as long as no selection names anything inherited the timer of every timed phase is accepted |
| GameNames.InheritedSelection | apps/server/src/fsm/transitions.ts:655-688 | A selection of an inherited name by the Admin: refused exactly for repeated or foreign participants or the Admin itself where that is barred, whatever their number; behind the firewall it throws; else a hack window opens whose own timer throws |
| GameNames.StepGame | apps/server/src/fsm/transitions.ts:659-661 | A step takes a room to a round that plays no game of the registry exactly if it is an accepted selection of an inherited name |
| GameNames.AdriftReachable | apps/server/src/fsm/transitions.ts:655-688 | In a room of any playable configuration that can start a match some run of joins, a start, two timers and one selection ends in such a hack window |
| GameNames.WindowStaysFor | apps/server/src/fsm/transitions.ts:697-727 | Nothing but the match clock's expiry, a close or the host's absence ends such a hack window, whatever is sent and for however long |
| Progress.ExpiryMoves | apps/server/src/fsm/transitions.ts:814-826 | Without any assumption on the configuration the timer of a timed phase is never refused, and if nothing throws it moves the room on |
| Progress.RoundWithinSeventeen | apps/server/src/fsm/transitions.ts:204-294 | Timers alone take any round from the Admin's turn to the discussion within seventeen expiries, whichever game is drawn |
| Progress.DefaultConfigIsPlayable | apps/server/src/config/defaults.ts:7-57 | The default configuration is within the bounds that the no-stall results ask for |
| ExactlyOnce.RedeliveryChangesNothing | apps/server/src/fsm/transitions.ts:741-770 | An action that was applied changes nothing when delivered again, at any later time, by anybody, however many other actions came in between |
| ExactlyOnce.SeqsIncrease | apps/server/src/fsm/transitions.ts:746-762 | Of two actions of one player applied in one round, across its internal phases, the later carries the higher sequence number |
| ExactlyOnce.SeqsIncreaseInPhase | apps/server/src/fsm/transitions.ts:832-852 | The same within one phase, the special game's included |
| ExactlyOnce.StepKeepsSeqs | apps/server/src/fsm/transitions.ts:737-770 | No step takes a round's sequence numbers back, also when its phase changes |
| AccusationRuns.VoteDecidedByFirstBallots | apps/server/src/fsm/transitions.ts:470-547 | From its opening to its close, in any order and mixed with repeated, stale, foreign or misattributed ballots and connection changes, a vote is approved exactly when more than half of the listed voters approve in their first ballot; a rejection starts the cooldown at that moment |
| AccusationRuns.BallotsAreFirst | apps/server/src/fsm/transitions.ts:531-538 | The ballots counted are each listed voter's first one, and no others |
| AccusationRuns.OpenVote | apps/server/src/fsm/transitions.ts:470-476 | While a vote rests open the submissions are exactly the recorded voters, all of them eligible, and at least one eligible voter is missing |
| AccusationRuns.AccusationTakesNoTurn | apps/server/src/fsm/transitions.ts:399-405 | An accusation raised in an Admin's turn, however it goes and ends, leaves the Admin, the queue and the sequence of turns as they were |
| AccusationRuns.NoAccusationWhileCooling | apps/server/src/fsm/transitions.ts:411-413 | Once an accusation has been rejected no other is accepted in that match before the cooldown is over, through whatever phases the match goes |
| CrewWinning.CrewCanWin | apps/server/src/fsm/transitions.ts:407-525 | In every discussion and every Admin's turn outside the cooldown, whatever happened before, whoever pushes the button, names the hackers and is followed by everybody wins the match for the crew |
| CrewWinning.ApprovalsClose | apps/server/src/fsm/transitions.ts:470-476 | When the voters still missing vote one after the other, exactly the last ballot closes the vote |
| Dispatch.AcceptedIsAddressed | apps/server/src/fsm/transitions.ts:944-966 | An accepted host event was sent by the host, an accepted event of a player by the player it names, and either for the phase the room is in |
| Dispatch.Dispatched | apps/server/src/fsm/transitions.ts:944-1010 | Which of the three refusals (not the host, another player's name, a stale phase) an event of a phase meets before any handler, exactly; past them it reaches the handler of the phase, or the button's |
| MatchCourse.LobbyAnswers | apps/server/src/fsm/transitions.ts:614-624 | A lobby takes the host's start only: refused for an unfit number of players, thrown for an unknown role rule, else the role reveal begins with the match at its beginning |
| MatchCourse.RematchAnswers | apps/server/src/fsm/transitions.ts:926-937 | A rematch lobby does likewise with everything of the last match forgotten; a start refused for the number of players returns the reset room |
| MatchCourse.RevealAnswers | apps/server/src/fsm/transitions.ts:626-642 | The reveal is left for the introduction by the timer, the host's skip, and the acknowledgement with which every connected player has acknowledged; an earlier one is noted, a second one of a player refused |
| MatchCourse.IntroAnswers | apps/server/src/fsm/transitions.ts:644-652 | The introduction is left by the timer or the host's skip; the clock then runs to exactly its total from now and the first in the queue has the turn |
| MatchCourse.TimeIsUp | apps/server/src/fsm/transitions.ts:974-994 | The expiry of the clock that runs ends the match for the hackers, with an open accusation logged as abandoned and what was going on dropped; any other is refused |
| MatchCourse.FinalAnswers | apps/server/src/fsm/transitions.ts:904-924 | With the results on show each player may ask once for a rematch, and the host alone leads on |
| MatchCourse.ClosingAnswers | apps/server/src/fsm/transitions.ts:960-973 | A close by the host, or an expired grace, abandons the room with its parts as they are; a second one changes nothing |
| MatchCourse.Restarted | apps/server/src/fsm/transitions.ts:995-1002 | The host's restart is accepted in the final results and the rematch lobby only, and leaves both rosters, the connections and nothing of the match |
| MatchCourse.ConnectionNoted | apps/server/src/fsm/transitions.ts:580-610 | Connection events change the one status they name and nothing else of the room |
| MatchCourse.RosterSteps | apps/server/src/fsm/room-lifecycle.ts:84-181 | Joining, leaving, kicking and profiles: where each is allowed, the code it is refused with, and its whole effect, the others' order included |
| MatchCourse.RoomIsNew | apps/server/src/fsm/room-lifecycle.ts:36-75 | A new room is an empty lobby of a connected host with nothing played yet |
| MatchCourse.PhaseTimed | apps/server/src/fsm/durations.ts:12-58 | Every phase that begins is given its own setting, or the seconds of its game's present step, and none where people decide |
| RoundCourse.SelectionHonoured | apps/server/src/fsm/transitions.ts:655-694 | A selection is accepted exactly for the Admin, a known game, distinct players of the roster in the number the table gives, the Admin only where allowed, and an audience for PREDICT_THEM; the round is then of that game, Admin and selection, of its participants, with nothing hacked or played and counted once, with the firewall down at the hack window and with it up at the instructions (or thrown); each refusal has its code |
| RoundCourse.TimeoutSelects | apps/server/src/fsm/transitions.ts:204-219 | When the Admin's time runs out the round is of the configured game, or one of the six, for distinct players of the roster in the number the table gives, one fewer where PREDICT_THEM had no audience |
| RoundCourse.HackAnswers | apps/server/src/fsm/transitions.ts:697-727 | A hack is accepted exactly for a hacker with a charge who has not acted in this round, on a participant not hacked yet; it takes one charge of that hacker and of nobody else, and every refusal has its code; the timer starts the game |
| RoundCourse.InstructionsAnswer | apps/server/src/fsm/transitions.ts:729-735 | The instructions are left for play, with the round as it is, by the timer or the host only |
| RoundCourse.PlayAnswers | apps/server/src/fsm/transitions.ts:737-795 | In play: repetitions are accepted without effect, outsiders, old sequence numbers and invalid actions refused with their codes; an applied action changes the state of its game, is remembered among the last twenty, and ends the round or begins the next step; the timer ends the step, or the round; the host may end it |
| RoundCourse.ResultsAnswer | apps/server/src/fsm/transitions.ts:797-804 | The results are left for a discussion, with the round cleared, by the timer or the host only |
| RoundCourse.RoundStands | apps/server/src/fsm/transitions.ts:182-198 | As long as a round lasts, through every run, its game, Admin, selection, participants and beginning stay what they were |
| RoundCourse.RecordedAsSelected | apps/server/src/fsm/transitions.ts:298-318 | From the Admin's selection over every run to the step that ends the round, the one record made is of the selected game, that Admin and that beginning, with success exactly if the game was won |
| AccusationCourse.ButtonAnswers | apps/server/src/fsm/transitions.ts:407-429 | The button works in a discussion and in the Admin's turn, past the cooldown and without a winner; the accusation is the pusher's, asks for as many suspects as there are hackers and remembers where it came from; every refusal has its code |
| AccusationCourse.SuspectsChosen | apps/server/src/fsm/transitions.ts:431-468 | The accuser alone locks distinct players of the roster in the number asked for, and everybody becomes a voter; the timer gives up without a cooldown; play resumes with the interrupted Admin or the next one |
| AccusationCourse.VoteAnswers | apps/server/src/fsm/transitions.ts:470-547 | One ballot for each listed voter; the last one, the timer and the host close the vote with the ballots there are: more than half of everybody approving ends the match, for the crew exactly if the suspects are the hackers, and anything else resumes play with the cooldown running |
| AccusationCourse.AccusationTakesOneTurn | apps/server/src/fsm/transitions.ts:399-405 | An accusation raised in a discussion, however it goes, adds exactly one turn when play resumes: that of the head of the queue, or of the first of a fresh shuffle |
| SpecialOutcomes.DiscussionAnswers | apps/server/src/fsm/transitions.ts:333-364 | A discussion is left by the timer or the host: for the special game exactly if it has not been played and its schedule has come, with a group of the ruled size from the roster and the clock paused at what is left; else for the next turn |
| SpecialOutcomes.SpecialIntroAnswers | apps/server/src/fsm/transitions.ts:814-826 | The introduction is left for an untouched bomb with one of the group at the board and the others, each once, with the clues; it throws exactly where the group is not of three to five |
| SpecialOutcomes.BombAnswers | apps/server/src/fsm/transitions.ts:828-870 | As in a round: repetitions, outsiders, old and invalid actions, each with its answer; a bomb that is decided, out of time or given up shows its result, recorded as a success exactly if it was defused |
| SpecialOutcomes.BombSettled | apps/server/src/fsm/transitions.ts:872-902 | Leaving the result of a defused bomb raises the firewall, logged once, at no cost, with the clock running for exactly the time it was paused with; of any other bomb costs exactly the penalty, leaves the firewall alone, and ends the match for the hackers exactly if the penalty is all the time there was or more |
| Frames.EventFrame | apps/server/src/fsm/transitions.ts:941-1002 | Every accepted event of every kind in every state: a new phase under a fresh id, or this phase goes on; ids never repeat and the configuration stays |
| RoomProofs.StartValid | apps/server/src/fsm/transitions.ts:614-624 | Starting from an empty room reaches the role reveal exactly when the role rule is known |
| RoomProofs.RolesDealt | apps/server/src/fsm/transitions.ts:133-165 | A start makes the whole number nearest to a quarter of the players, halves up, hackers, within the bounds of the configuration and the players there are; each has two hacks, everybody else is crew with none |
| Draws.AnyTeam | apps/server/src/fsm/transitions.ts:133-147 | Any team of the right number can be the hackers: for some random numbers the host's start deals exactly those |
| Draws.AnyFirstOrder | apps/server/src/fsm/transitions.ts:117-129 | The introduction can end with anybody's turn and any order of the others after it |
| Draws.AnyTimeoutRound | apps/server/src/fsm/transitions.ts:204-219 | A timeout can bring any game the configuration allows, for any players of the roster in the right number |
| Draws.AnyGroup | apps/server/src/fsm/transitions.ts:345-351 | Any group of the right number can be called to the special game |
| Draws.AnySpeakers | apps/server/src/fsm/transitions.ts:253-292 | DESCRIBE_IT can begin with any order of its players |
| Draws.AnyDefence | apps/server/src/minigames/defend-it-selection.ts:7-14 | DEFEND_IT can begin with any order of its players and anybody else asking each of them |
| RoomProofs.DefaultHackers | apps/server/src/rules/registries.ts:17 | With the default configuration that is one hacker for up to five players, two for six to nine and three for ten or more |
| RoomProofs.BudgetTotal | apps/server/src/fsm/transitions.ts:148-155 | The hacks dealt add up to two per hacker |
| RoomProofs.RestartValid | apps/server/src/fsm/transitions.ts:995-1002 | A restart leads to a lobby with nothing of the match left |
| RoomProofs.ResetBlank | apps/server/src/fsm/transitions.ts:551-576 | A reset keeps both rosters and drops everything of the match |
| RoundProofs.EverybodyEligible | apps/server/src/selectors/players.ts:26-36 | As nobody is ever eliminated, everybody on the roster is eligible for everything under every policy |
| RoundProofs.NextAdmin | apps/server/src/fsm/transitions.ts:122-129 | The next Admin continues the rotation, and there is one whenever there are players |
| RoundProofs.AdminSelectValid | apps/server/src/fsm/transitions.ts:655-688 | The Admin's selection, once past the guards, begins a round that satisfies the invariant (which one is `RoundCourse.SelectionHonoured`); for a game of the registry it never throws in a playable room, for an inherited name it throws exactly behind the firewall |
| RoundProofs.AutoSelectValid | apps/server/src/fsm/transitions.ts:204-219 | The selection on timeout begins a round that its game accepts, and goes straight to the instructions behind the firewall; which one is `RoundCourse.TimeoutSelects` |
| RoundProofs.AutoSelectionWithinLimits | apps/server/src/fsm/transitions.ts:208-215 | The timeout selection keeps to the game's limits exactly if there are players enough, and for PREDICT_THEM exactly if there are more than four |
| RoundProofs.SelectionSelectable | apps/server/src/fsm/transitions.ts:175-180 | For PREDICT_THEM the selection and the audience are everybody, once each; other games take the selection |
| RoundProofs.ProceedValid | apps/server/src/fsm/transitions.ts:241-294 | With a playable configuration a round's module starts, whoever was selected, exactly if the round plays a game of the registry |
| RoundProofs.CorruptionValid | apps/server/src/fsm/transitions.ts:106-111 | Behind the firewall a round goes straight to its instructions and the firewall is consumed, or throws when it plays no game of the registry |
| StartProofs.ModuleStarts | apps/server/src/fsm/transitions.ts:253-292 | What the room assembles for each of the six games is what that game's `start` accepts for every size within its limits; the game is not yet complete and at most thirteen timeouts from its end. An inherited name never starts |
| StartProofs.FreshStart | apps/server/src/fsm/transitions.ts:253-292 | A game starts as its rules say: nothing submitted, voted or spoken, the drawn order of speakers and the askers among the others, and for PREDICT_THEM everybody not selected as the audience |
| StartProofs.SpecialStarts | apps/server/src/fsm/transitions.ts:816-821 | Three to five distinct participants always start the special game |
| PhaseProofs.HackValid | apps/server/src/fsm/transitions.ts:711-720 | An accepted hack keeps the hack ledger and the round's hacked players in order |
| PhaseProofs.PlayTimeoutValid | apps/server/src/fsm/transitions.ts:772-788 | A timeout in play shows the results or restarts the phase one timeout closer to the game's end |
| PhaseProofs.PlayActionValid | apps/server/src/fsm/transitions.ts:760-769 | An applied action ends the game, restarts the phase, or changes the module state only |
| PhaseProofs.ResultsDone | apps/server/src/fsm/transitions.ts:797-804 | The results lead to a discussion without a round |
| SpecialProofs.PausedClockOk | apps/server/src/fsm/transitions.ts:345-364 | Beginning the special game pauses the clock at its remaining time |
| SpecialProofs.ResumedClockOk | apps/server/src/fsm/transitions.ts:872-896 | After penalty and resume the deadline has moved by the time paused less the penalty |
| SpecialProofs.SpecialDrawn | apps/server/src/rules/registries.ts:30-36 | Under every participant rule the special game draws three to five distinct players when the configuration is playable |
| SpecialProofs.ResolveValid | apps/server/src/fsm/transitions.ts:333-343 | Play goes on with the special game exactly when it is due, else with the next Admin |
| SpecialProofs.SpecialResultDone | apps/server/src/fsm/transitions.ts:872-902 | Leaving the special result never throws and keeps the invariant, with the special round gone; which way it leads is `SpecialOutcomes.BombSettled` |
| SpecialProofs.SpecialPlayed | apps/server/src/fsm/transitions.ts:366-380 | A special game that ends is recorded with its real outcome |
| AccusationProofs.VoteCloses | apps/server/src/fsm/transitions.ts:479-525 | Closing a vote leads to the final results exactly when it is approved, else back to the Admin's turn |
| AccusationProofs.SuspectsLocked | apps/server/src/fsm/transitions.ts:435-456 | Locking suspects opens a vote of everybody eligible over distinct suspects, as many as there are hackers |
| AccusationProofs.ButtonPushed | apps/server/src/fsm/transitions.ts:407-429 | A pushed button opens an accusation that satisfies the invariant, or leaves the room; who, where and what for is `AccusationCourse.ButtonAnswers` |
| MatchProofs.IntroDone | apps/server/src/fsm/transitions.ts:644-652 | The match clock starts when the introduction ends, and the first Admin is assigned |
| MatchProofs.ClockRunsOut | apps/server/src/fsm/transitions.ts:974-994 | The running clock's expiry is accepted in every phase, an abandoned room included, and ends the match for the hackers |
| MatchProofs.Closed | apps/server/src/fsm/transitions.ts:968-973 | Closing never throws; a closed room keeps its parts |
| MatchProofs.RevealDone | apps/server/src/fsm/transitions.ts:626-642 | The reveal ends with an introduction in order |
| MatchProofs.JoinValid | apps/server/src/fsm/room-lifecycle.ts:84-128 | Joining keeps the rosters aligned under fresh ids |
| MatchProofs.RemoveValid | apps/server/src/fsm/room-lifecycle.ts:130-143 | Leaving and kicking keep the rosters aligned |
| MatchProofs.CreatedValid | apps/server/src/fsm/room-lifecycle.ts:36-75 | A new room is in order |
| RoomObjects.HandleEvent | apps/server/src/fsm/transitions.ts:941-1051 | Handles an event on a clone of a room in order: the given room is untouched, the clone becomes what the step on values says, and what is accepted is again in order |
| RoomObjects.RoomObject.Apply | apps/server/src/fsm/transitions.ts:941-1051 | In-place dispatch: sender check, cross-cutting events, staleness, button, per-state handlers; state and answer equal the step on values, and what is accepted keeps the object's invariant |
| RoomObjects.RoomObject.Clone | apps/server/src/fsm/transitions.ts:942-943 | The clone equals the room it is taken from |
| RoomObjects.RoomObject.DealRoles | apps/server/src/fsm/transitions.ts:148-155 | The loop over the players gives exactly the drawn players the hacker role and two hacks |
| RoomObjects.RoomObject.ProceedToInstructions | apps/server/src/fsm/transitions.ts:241-294 | Marking the reveal first does not change what the module is started with; a refused start throws, else the room is that of the step |
| RoomObjects.RoomObject.CompleteMinigame | apps/server/src/fsm/transitions.ts:298-318 | The record carries the reveal as it is after the policy was applied, and the room then shows the results |
| RoomObjects.RoomObject.LeaveSpecial | apps/server/src/fsm/transitions.ts:872-900 | Each of its four ways out gives the room of the step, so that `SpecialOutcomes.BombSettled` holds of it |
| RoomObjects.RoomObject.ResolveAccusationVote | apps/server/src/fsm/transitions.ts:479-525 | The assignments, in the order of the code, add up to the rejected or the convicted room of the step |
| RoomObjects.RoomObject.ReviveAll | apps/server/src/fsm/transitions.ts:569-571 | The loop leaves every player alive and changes nothing else |
| RoomObjects.RoomObject.ForgetRoles | apps/server/src/fsm/transitions.ts:572-574 | The loop leaves nobody a role and changes nothing else |
| RoomObjects.RoomObject.HandleMinigameSelect | apps/server/src/fsm/transitions.ts:655-694 | Guards in the code's order with the validation loop decide, and refuse with the code, of the step, so that `RoundCourse.SelectionHonoured` holds of it |
| RoomObjects.RoomObject.HandlePlayerDisconnected | apps/server/src/fsm/transitions.ts:580-594 | The player's status changes and nothing else; it throws exactly for a participant of a round that plays no game of the registry |
| RoomObjects.RoomObject.JoinPlayer | apps/server/src/fsm/room-lifecycle.ts:84-128 | Two fresh ids, public and private entry, or the step's refusal; the invariant is kept |
| RoomObjects.RoomObject.LeavePlayer | apps/server/src/fsm/room-lifecycle.ts:130-143 | Both entries are removed, between matches only; the invariant is kept |
| RoomObjects.RoomObject.KickPlayer | apps/server/src/fsm/room-lifecycle.ts:169-181 | Both entries are removed, in the lobby only; the invariant is kept |
| RoomObjects.RoomObject.SetPlayerProfile | apps/server/src/fsm/room-lifecycle.ts:145-167 | The profile of a player in the room, in the lobby only; the invariant is kept |
| RoomObjects.AllIn | apps/server/src/fsm/transitions.ts:670-673 | The validation loop accepts exactly lists of eligible ids |
| RoomActors.AnyInterleavingIsTheFold | apps/server/src/actors/room-actor.ts:107-158 | However queued operations are suspended and resumed at their awaits, and whichever throw or are not saved, at every moment a first part of them has answered and left behind exactly what it would have, done one by one in enqueue order; the next may be under way, and the rest have not begun |
| RoomActors.AtRestTheFold | apps/server/src/actors/room-actor.ts:107-158 | So once all have settled, answers and state are those of the operations done one by one |
| RoomActors.NextSerial | apps/server/src/actors/room-actor.ts:148-158 | Every single move (an enqueue, or one task from one await to the next) keeps: finished tasks answered as in the fold, one at most under way, the rest waiting |
| RoomActors.OnlyOneRuns | apps/server/src/actors/room-actor.ts:148-158 | As each task is chained to the one before it, no two tasks overlap |
| RoomActors.EverythingSettles | apps/server/src/actors/room-actor.ts:148-167 | From every state of every run all tasks can settle, within five awaits each, whatever fails |
| RoomActors.DurableUnlessStuck | apps/server/src/actors/room-actor.ts:208-228 | An operation leaves the store in step with memory exactly unless its private write and its compensating delete both fail after a changed public half was written |
| RoomActors.FailedDeleteMixesVersions | apps/server/src/actors/room-actor.ts:215-221 | Such a failure leaves the new public half beside the old private half |
| RoomActors.StoreFollowsMemory | apps/server/src/actors/room-actor.ts:201-228 | With failed writes that have no effect and compensating deletes that work, in any interleaving and at every moment: the stored private half equals memory and the public half equals memory or is absent, unless a commit is half way; then the public half is the new version, and the private half that of memory or, after its write, the new one |
| RoomActors.ReloadNeverMixes | apps/server/src/actors/room-actor.ts:178-199 | A reload from such a store brings back the version in memory or fails |
| RoomActors.OperationAnswers | apps/server/src/actors/room-actor.ts:107-123 | A whole operation on what is loaded or stored: its answer, memory and both stored halves, for each way it and its two writes can turn out |
| RoomActors.NothingToWorkOn | apps/server/src/actors/room-actor.ts:178-199 | Without a room to work on the operation is not run and changes nothing, and the answer names exactly what is missing |
| RoomActors.RoomActor.Dispatch | apps/server/src/actors/room-actor.ts:107-123 | One turn of the queue as an object: store, memory and answer are those of the whole operation |
| RoomActors.RoomActor.EnsureLoaded | apps/server/src/actors/room-actor.ts:178-199 | Loads both halves once, and reports each way one can be missing |
| RoomActors.RoomActor.Persist | apps/server/src/actors/room-actor.ts:208-228 | The two writes and the compensating delete |
| ActorRuns.MemoryIsARun | apps/server/src/actors/room-actor.ts:107-123 | What the actor holds after any deliveries is the run of exactly those whose commit went through |
| ActorRuns.ActorKeepsValid | apps/server/src/actors/room-actor.ts:107-145 | The room in memory is in order at every turn of the queue, whichever operations throw, are refused or are not saved |
| TimerServices.TimersAlwaysAgree | apps/server/src/timers/phase-timer-service.ts:68-187 | From creation on, whatever arrives, fires, is checked, handled or lost in a restart: what is scheduled is exactly the current deadline; a timed phase whose round plays a game of the registry has it scheduled or an expiry of its own on the way, and so has a running clock unless a restart lost the room |
| TimerServices.DeadlinesAreCurrent | apps/server/src/timers/phase-timer-service.ts:68-76 | At every moment of every run a scheduled phase deadline carries the present phase's id and is its beginning plus its duration, and a scheduled clock deadline is that of the clock as it runs |
| TimerServices.HandledIsScheduled | apps/server/src/timers/phase-timer-service.ts:127-187 | After an accepted operation both slots hold exactly what the room asks for; a refused or throwing one leaves both |
| TimerServices.RestartRecovers | apps/server/src/timers/phase-timer-service.ts:91-111 | A restart keeps the room, lets overdue deadlines expire at once, each under its own id, and schedules later ones unchanged |
| TimerServices.TimedPhaseScheduled | apps/server/src/timers/phase-timer-service.ts:68-187 | While nobody names anything inherited, every timed phase has its deadline scheduled or an expiry of its own on the way, without exception |
| TimerServices.TimerSpent | apps/server/src/timers/phase-timer-service.ts:127-187 | A phase's timer, fired, checked and handled, ends the phase exactly if the round plays a game of the registry; else the room is as before and nothing of that timer is scheduled or on its way |
| TimerServices.RestartLoses | apps/server/src/timers/phase-timer-service.ts:91-111 | A restart loses a room whose round is of an inherited name: it can not be read back, neither timer is set up again, and nothing changes it any more |
| TimerServices.MoveAgrees | apps/server/src/timers/phase-timer-service.ts:127-187 | Every single move keeps that agreement, for both services |
| TimerServices.TimedPhaseEnds | apps/server/src/timers/phase-timer-service.ts:127-187 | Wherever a timed phase's expiry is, firing, checking and handling what is there ends the phase within three moves plus the operations queued, if the round plays a game of the registry |
| TimerServices.OtherScheduleKept | apps/server/src/timers/match-clock-service.ts:62-69 | A step that leaves the clock leaves its scheduled deadline, and one that leaves the phase leaves the phase's |
| TimerServices.TimerService.SyncFromRoom | apps/server/src/timers/phase-timer-service.ts:68-76 | The room's slot holds what its present state asks for, other rooms' slots are kept |
| TimerServices.TimerService.RecoverRoom | apps/server/src/timers/phase-timer-service.ts:91-111 | An overdue deadline expires at once, a later one is scheduled unchanged |
| TimerSchedulers.RealTimerScheduler.Schedule | apps/server/src/timers/real-timer-scheduler.ts:23-40 | Replaces the room's timer and no other; exactly the listed timers are armed |
| TimerSchedulers.RealTimerScheduler.Cancel | apps/server/src/timers/real-timer-scheduler.ts:42-47 | Disarms the room's timer and no other |
| TimerSchedulers.RealTimerScheduler.Fire | apps/server/src/timers/real-timer-scheduler.ts:26-34 | What fires is what was scheduled, once |
| TimerSchedulers.RealTimerScheduler.Shutdown | apps/server/src/timers/real-timer-scheduler.ts:55-60 | Nothing is armed afterwards |
| TimerSchedulers.FakeTimerScheduler.CollectDue | apps/server/src/timers/fake-timer-scheduler.ts:55-56 | Exactly the timers due, each once, by deadline and of equal deadlines in the order they were added |
| TimerSchedulers.DueInOrder | apps/server/src/timers/fake-timer-scheduler.ts:55-56 | The collected list is sorted by deadline and, among equal deadlines, by the order of insertion |
| TimerSchedulers.FakeTimerScheduler.AdvanceTo | apps/server/src/timers/fake-timer-scheduler.ts:55-65 | The loop fires exactly the collected timers, in their order, under arbitrary callbacks |
| TimerSchedulers.BatchInOrder | apps/server/src/timers/fake-timer-scheduler.ts:46-65 | Whatever the callbacks do, timers fire in their order, none that was not due and no room twice |
| TimerSchedulers.BatchComplete | apps/server/src/timers/fake-timer-scheduler.ts:46-65 | If callbacks touch their own room only, every timer due fires and all others stay |
| Random.ShuffleInjective | apps/server/src/fsm/random.ts:4-13 | Distinct draws give distinct orders of distinct items |
| Random.ShuffleOnto | apps/server/src/fsm/random.ts:4-13 | Every rearrangement is reached by some draws |
| Random.DrawsRealised | apps/server/src/fsm/random.ts:7 | All valid draws come from some random numbers in [0, 1) |
| Random.ShuffleInPlace | apps/server/src/fsm/random.ts:4-13 | The loop of exchanges computes the shuffle |
| Random.RandomSubset | apps/server/src/fsm/random.ts:16-19 | Clamped size, members of the pool, distinct when the pool is |
| Random.RandomSubsetOnto | apps/server/src/fsm/random.ts:16-19 | Every selection of that size can come out |
| AdminRotation.TurnsDifferByOne | apps/server/src/fsm/transitions.ts:117-129 | However long a rotation in blocks runs and wherever it is cut, two turn counts differ by at most one |
| MatchClocks.PauseCycleConservesTime | apps/server/src/fsm/match-clock.ts:33-53 | Pause, penalty and resume move the deadline by the time paused less the penalty, unless the penalty uses up the time |
| RateLimiting.WindowBound | apps/server/src/gateway/rate-limiter.ts:16-24 | No window of the configured length, wherever it ends, holds more than the maximum of accepted calls, over the whole history |
| RateLimiting.RefusedWhenFull | apps/server/src/gateway/rate-limiter.ts:16-24 | A call is refused exactly when as many accepted calls as the maximum were recorded later than one window ago, and recorded otherwise |
| RateLimiting.RateLimiter.TryConsume | apps/server/src/gateway/rate-limiter.ts:16-24 | With the pruned list a call is accepted exactly when the full history holds fewer than the maximum in the window ending now |
| DefendIt.CompletesAfterExactly | apps/server/src/minigames/defend-it.ts:165-200 | Complete after exactly 3n+1 validated actions or timeouts in any mix, never more; then every speaker has one decided result |
| DefendIt.CompletedMeansDecided | apps/server/src/minigames/defend-it.ts:56-96 | At completion every speaker has a result with no stage pending and an asker who is another speaker |
| DefendIt.ResultsAsPerformed | apps/server/src/minigames/defend-it.ts:56-96 | Over every run the inputs after the preparation end, in the speaking order and three for each speaker, defence, question and response; each is finished exactly where its performer, the speaker or the asker, ended it, and timed out otherwise |
| DefendIt.MayAct | apps/server/src/minigames/defend-it.ts:165-183 | In a stage its performer may end it, and no other action of anybody's passes |
| DefendIt.ApplyAdvances | apps/server/src/minigames/defend-it.ts:184-205 | Every action or timeout moves to a new internal step, one closer to the end |
| DefendIt.StartAccepts | apps/server/src/minigames/defend-it.ts:136-164 | Any shuffled order with askers drawn from the others starts |
| DefendIt.SelectFollowUpAskers | apps/server/src/minigames/defend-it-selection.ts:7-14 | Every speaker gets an asker among the others |
| DescribeIt.CompletesAfterExactly | apps/server/src/minigames/describe-it.ts:120-146 | Complete after exactly n+1 actions or timeouts; then exactly the speakers have results |
| DescribeIt.ResultsAsSpoken | apps/server/src/minigames/describe-it.ts:35-47 | Over every run the inputs after the thinking time end the turns in the speaking order, finished exactly where the speaker ended the turn, and timed out otherwise |
| DescribeIt.MayAct | apps/server/src/minigames/describe-it.ts:120-135 | The speaker whose turn it is may end it, and no other action of anybody's passes |
| DescribeIt.ApplyAdvances | apps/server/src/minigames/describe-it.ts:35-47 | Every action or timeout moves to a new internal step, one closer to the end |
| PredictThem.ResultOverRuns | apps/server/src/minigames/predict-them.ts:100-150 | Votes for A, for B and missing always add up to the audience, none negative; the result is fixed once predictions begin |
| PredictThem.VotesAccountedFor | apps/server/src/minigames/predict-them.ts:42-52 | Nobody is missing exactly when the whole audience has voted |
| PredictThem.ResultIsTheVotes | apps/server/src/minigames/predict-them.ts:36-54 | Over every run of a started game the numbers for A and for B are those of the players who voted so, the majority is with the option more of them chose, and the predictions are those made |
| PredictThem.MaySubmit | apps/server/src/minigames/predict-them.ts:100-130 | At any moment everybody not selected may vote once until a timer has ended the voting, and while predictions are open each selected player may make one |
| PredictThem.StartAccepts | apps/server/src/minigames/predict-them.ts:74-99 | Starts for one to four selected of a larger group |
| SingleSubmission.StartAccepts | apps/server/src/minigames/complete-it.ts:48-62 | The single-submission games start for any participants within their limits |
| SingleSubmission.MaySubmit | apps/server/src/minigames/complete-it.ts:62-73 | Every participant may submit one acceptable answer, and nobody else any |
| SingleSubmission.HandleKeepsValid | apps/server/src/minigames/complete-it.ts:74-86 | A submission is counted once; the game is complete when everybody has submitted |
| Minigames.TimeoutAdvances | apps/server/src/minigames/registry.ts:15-22 | For every registered game a timeout moves to another internal step or is the game's last |
| Minigames.OwnActionsOnly | apps/server/src/minigames/registry.ts:15-22 | No game takes the actions of another, nor any of somebody whose part it is not |
| Minigames.CompleteMeansNoneLeft | apps/server/src/minigames/registry.ts:15-22 | A game is complete exactly when no timeout is left, of thirteen at most |
| Minigames.ActionKeepsValid | apps/server/src/minigames/registry.ts:15-22 | Validated actions keep each game in order and never take it further from its end |
| BombContent.GeneratedConfigStarts | apps/server/src/minigames/bomb-protocol-content.ts:23-61 | For three to five distinct participants and any random numbers the generated puzzle passes every check of `start` |
| BombContent.GeneratesPuzzle | apps/server/src/minigames/bomb-protocol-content.ts:23-61 | Exactly groups of three to five get a puzzle: one of them operates and the others are analysts in their order, the four symbols are the solution and the display in some order, a red, a yellow and two blue wires lie in some order with a blue one right, and the code is four digits up to five |
| BombContent.EveryPuzzleComesUp | apps/server/src/minigames/bomb-protocol-content.ts:23-61 | Every such puzzle is generated for some random numbers |
| BombContent.MayAct | apps/server/src/minigames/bomb-protocol.ts:97-117 | In such a puzzle the operator alone may act: press any of the four symbols, cut any of the four wires, enter any four allowed digits, each in its module |
| BombContent.CluesDetermineSolution | apps/server/src/minigames/bomb-protocol-content.ts:31-51 | The clues of all analysts together fit one answer only: the solution |
| BombContent.ExactlyOneAnalyst | apps/server/src/minigames/bomb-protocol-content.ts:14-21 | Each clue goes to exactly one analyst |
| BombContent.PileSizes | apps/server/src/minigames/bomb-protocol-content.ts:14-21 | Loads per module differ by at most one |
| BombContent.Distribute | apps/server/src/minigames/bomb-protocol-content.ts:14-21 | The loop hands the clues round in turn |
| BombContent.DealInstructions | apps/server/src/minigames/bomb-protocol-content.ts:27-51 | The three rounds of dealing give each analyst exactly its piles |
| BombContent.GenerateConfig | apps/server/src/minigames/bomb-protocol-content.ts:23-61 | Generation as a method, refused outside three to five participants |
| BombProtocol.RunLedger | apps/server/src/minigames/bomb-protocol.ts:97-138 | Actions taken equal units solved plus strikes; success exactly at six units, failure exactly at three strikes; every run ends within eight actions |
| BombProtocol.ActionLedger | apps/server/src/minigames/bomb-protocol.ts:118-137 | Each validated action solves one unit or costs one strike |
| BombProtocol.ActionJudged | apps/server/src/minigames/bomb-protocol.ts:118-137 | A validated action solves a unit exactly if it is the next of the solution: the symbol at that position, the one wire, the code digit by digit; any other adds one strike and leaves module and progress |
| BombProtocol.DefusedBySolution | apps/server/src/minigames/bomb-protocol.ts:97-138 | Over every run: in a success the right actions, taken together, are the solution's symbols in order, the correct wire and the code, and every other action cost a strike |
| BombProtocol.AlwaysWinnable | apps/server/src/minigames/bomb-protocol.ts:97-138 | Every active state has a winning continuation of exactly the unsolved units |
| QuizEngine.EveryGame | apps/web/lib/quiz/engine.ts:9-67 | In every game: scores are the sums of their events, each power-up is unspent or on exactly one question, the picker alternates with finished questions, and the game is completed exactly when every question is finished |
| QuizEngine.GameInvariant | apps/web/lib/quiz/engine.ts:17-67 | The same as an invariant of any continuation |
| QuizEngine.EveryQuestionPaysOnce | apps/web/lib/quiz/engine.ts:42-66 | Over every game a question pays at most once: its own points, to the team its result names, as a steal exactly where the result says so; and every question awarded to a team has paid if it was worth anything |
| QuizEngine.RightAnswer | apps/web/lib/quiz/engine.ts:52-58 | A right answer pays the answering team the question's points, costs the other team under a score attack unless stolen, and closes the question for it; nothing else of scores, power-ups and other results changes |
| QuizEngine.WrongAnswer | apps/web/lib/quiz/engine.ts:47-51 | A wrong answer opens the question to the other team, costs a trapped team the penalty and closes the question, and does nothing to a steal |
| QuizEngine.ClosedForNothing | apps/web/lib/quiz/engine.ts:46-59 | Revealing changes what is shown only; closing without points pays nobody and passes the turn |
| QuizEngine.Picks | apps/web/lib/quiz/engine.ts:17-22 | A question is picked exactly once, while none is open, by the team in turn, with a power-up exactly if that team has spent it on no other question |
| QuizEngine.Activates | apps/web/lib/quiz/engine.ts:24-40 | A power-up joins an open, unanswered question without one exactly if the team that picked it has spent it on no other; the pass-trap hands the question over |
| QuizEngine.CloseKeepsValid | apps/web/lib/quiz/engine.ts:60-66 | Closing a question finishes exactly one and passes the turn |
| QuizEngine.SpendAddsUp | apps/web/lib/quiz/engine.ts:17-40 | Spending a power-up on a question keeps the power-up ledger |
| QuizEngine.AwardAddsUp | apps/web/lib/quiz/engine.ts:42-44 | Points and their event are recorded together |

## Left out

- WebSocket and HTTP servers, parsing, Redis, databases, cookies, bootstrap and all React code: input and output around the core.
- View builders, prompt texts, content assignment by role, room codes and display names: no decision of the state machine depends on them; a profile is one number.
- The payloads of RANK_IT, COMPLETE_IT and DRAW_IT submissions: whether a payload is accepted is an input of the event.
- Creation, update and last-seen times, host session tokens and user ids, module versions, score deltas and summaries in records: nothing reads them back.
- Eviction of actors, expiry of stored keys and a crash between the two saves: the code does not protect queued work from the first and does not try to handle the last.
- The time-to-live refreshes after a commit are one await without effect; which of them fail is not modelled.
- The promise `runSerialized` returns beside the task, and with it the `busy` flag: only eviction reads it.
- `getOrLoadSnapshot` of a loaded actor reads memory at once; in the timer protocol that is the check of a fired expiry against the room.
- After an accepted expiry the service syncs a second time; that continuation runs before the next queued operation can commit, so handling and both syncs are one move.
- The broadcast callback and logging of the timer services.
- RoomObjects.RoomObject: holds the public and the private half as records whose fields are replaced one after the other; sharing of nested objects between the room and its histories is not captured.
- TimerSchedulers.FakeTimerScheduler.AdvanceTo: an entry replaced by a callback with the same deadline and another id fires under its old id, as in the code.
- The modules' disconnect hooks: every registered game returns its state unchanged, so a disconnect changes the connection status only, or throws where there is no hook.
- Rule ids of a configuration that are inherited names: rooms are created from the default configuration only (`apps/server/src/http/http-api-server.ts` line 254), so they are no input.
- The check of stored rooms when they are read, but for the one document it refuses that the server itself writes (`TimerServices.ReadsBack`).
- The generic placeholder games, which are not registered.
- Question catalogue, names, colours and timestamps of the quiz.
