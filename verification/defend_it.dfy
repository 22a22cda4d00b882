/** DEFEND_IT: each speaker defends, is asked a follow-up question by another participant and responds. */
module DefendIt {
  import opened Collections
  import opened SpeakingOrder
  import opened Random

  datatype Step = Prep | Defence | FollowUpQuestion | FollowUpResponse | Completed
  datatype StageResult = Pending | Finished | TimedOut
  datatype TurnResult = TurnResult(askerId: PlayerId, defence: StageResult, question: StageResult, response: StageResult)

  datatype State = State(
    participantIds: seq<PlayerId>, speakerOrder: seq<PlayerId>, currentSpeakerIndex: nat, step: Step,
    followUpAskerIds: map<PlayerId, PlayerId>, turnResults: map<PlayerId, TurnResult>)

  datatype Config = Config(
    speakerOrder: seq<PlayerId>, assignedIds: set<PlayerId>, followUpAskerIds: map<PlayerId, PlayerId>)

  datatype Action = FinishDefence | FinishFollowUpQuestion | FinishFollowUpResponse | Other

  /** Everybody in the speaking order but one. */
  function Others(speakerOrder: seq<PlayerId>, id: PlayerId): (others: seq<PlayerId>)
    ensures forall other :: other in others <==> other in speakerOrder && other != id
  {
    Filter(speakerOrder, (other: PlayerId) => other != id)
  }

  /** The asker of each speaker: any other member of the speaking order. */
  function SelectFollowUpAskers(speakerOrder: seq<PlayerId>, rng: PlayerId -> Stream): (askers: map<PlayerId, PlayerId>)
    requires Distinct(speakerOrder) && |speakerOrder| >= 2
    ensures askers.Keys == Elements(speakerOrder)
    ensures forall id {:trigger askers[id]} :: id in askers ==> askers[id] in speakerOrder && askers[id] != id
  {
    map id | id in speakerOrder ::
      (OthersExist(speakerOrder, id); RandomChoice(Others(speakerOrder, id), rng(id)))
  }

  lemma OthersExist(speakerOrder: seq<PlayerId>, id: PlayerId)
    requires Distinct(speakerOrder) && |speakerOrder| >= 2
    ensures Others(speakerOrder, id) != []
  {
    assert speakerOrder[0] != speakerOrder[1];
    var other := if speakerOrder[0] == id then speakerOrder[1] else speakerOrder[0];
    assert other in Others(speakerOrder, id);
  }

  /** Numbers that give a speaker this asker. */
  ghost function AskerNumbers(speakerOrder: seq<PlayerId>, id: PlayerId, asker: PlayerId): (rng: Stream)
    requires asker in speakerOrder && asker != id
    ensures Others(speakerOrder, id) != [] && RandomChoice(Others(speakerOrder, id), rng) == asker
  {
    var others := Others(speakerOrder, id);
    assert exists rng: Stream :: RandomChoice(others, rng) == asker by {
      var rng := ChoiceReaches(others, asker);
    }
    var rng: Stream :| RandomChoice(others, rng) == asker;
    rng
  }

  /** The askers of a speaking order: one for each speaker, somebody else. */
  ghost predicate AskersOf(speakerOrder: seq<PlayerId>, askers: map<PlayerId, PlayerId>) {
    && (forall id :: id in speakerOrder ==> id in askers && askers[id] in speakerOrder && askers[id] != id)
    && forall id :: id in askers ==> id in speakerOrder
  }

  lemma AskerOf(speakerOrder: seq<PlayerId>, askers: map<PlayerId, PlayerId>, id: PlayerId)
    requires AskersOf(speakerOrder, askers)
    ensures id in askers <==> id in speakerOrder
    ensures id in askers ==> askers[id] in speakerOrder && askers[id] != id
  {
  }

  /** The numbers for each speaker are those that give its asker. */
  ghost predicate Gives(speakerOrder: seq<PlayerId>, askers: map<PlayerId, PlayerId>, rng: PlayerId -> Stream) {
    forall id :: id in speakerOrder ==> GivesOne(speakerOrder, askers, rng, id)
  }

  ghost predicate GivesOne(speakerOrder: seq<PlayerId>, askers: map<PlayerId, PlayerId>, rng: PlayerId -> Stream, id: PlayerId) {
    id in askers && askers[id] in speakerOrder && askers[id] != id && rng(id) == AskerNumbers(speakerOrder, id, askers[id])
  }

  lemma AskerDrawn(speakerOrder: seq<PlayerId>, askers: map<PlayerId, PlayerId>, rng: PlayerId -> Stream, id: PlayerId)
    requires Distinct(speakerOrder) && |speakerOrder| >= 2
    requires id in speakerOrder && GivesOne(speakerOrder, askers, rng, id)
    ensures id in askers
    ensures id in SelectFollowUpAskers(speakerOrder, rng) && SelectFollowUpAskers(speakerOrder, rng)[id] == askers[id]
  {
    hide RandomChoice, Others, AskerNumbers, Distinct;
  }

  /** Everybody but the speaker can be drawn to ask, for each speaker independently of the others. */
  lemma AnyAskers(speakerOrder: seq<PlayerId>, askers: map<PlayerId, PlayerId>, rng: PlayerId -> Stream)
    requires Distinct(speakerOrder) && |speakerOrder| >= 2 && AskersOf(speakerOrder, askers) && Gives(speakerOrder, askers, rng)
    ensures SelectFollowUpAskers(speakerOrder, rng) == askers
  {
    hide RandomChoice, Others, AskersOf, GivesOne, SelectFollowUpAskers, AskerNumbers, Distinct;
    var drawn := SelectFollowUpAskers(speakerOrder, rng);
    forall id ensures (id in drawn <==> id in askers) && (id in drawn ==> drawn[id] == askers[id]) {
      AskerOf(speakerOrder, askers, id);
      assert id in drawn <==> id in Elements(speakerOrder);
      if id in speakerOrder {
        AskerDrawn(speakerOrder, askers, rng, id);
      }
    }
  }

  /** `None` when the source throws: the participants or the config do not fit together. */
  function Start(participantIds: seq<PlayerId>, config: Config): Option<State> {
    if |participantIds| < 2 || |participantIds| > 4 || !Distinct(participantIds) then None
    else if !OrderFits(participantIds, config.speakerOrder) then None
    else if !AssignmentsFit(participantIds, config.assignedIds) then None
    else if !AskersFit(participantIds, config.followUpAskerIds) then None
    else Some(State(participantIds, config.speakerOrder, 0, Prep, config.followUpAskerIds, map[]))
  }

  predicate AskersFit(participantIds: seq<PlayerId>, askers: map<PlayerId, PlayerId>) {
    && |askers| == |participantIds|
    && (forall id :: id in participantIds ==> id in askers)
    && (forall id :: id in participantIds ==> id in askers && askers[id] in participantIds && askers[id] != id)
  }

  function Speaker(s: State): Option<PlayerId> {
    if s.step == Prep || s.step == Completed || s.currentSpeakerIndex >= |s.speakerOrder| then None
    else Some(s.speakerOrder[s.currentSpeakerIndex])
  }

  function Asker(s: State): Option<PlayerId> {
    var speaker := Speaker(s);
    if speaker.Some? && (s.step == FollowUpQuestion || s.step == FollowUpResponse) && speaker.value in s.followUpAskerIds
    then Some(s.followUpAskerIds[speaker.value]) else None
  }

  function EndDefence(s: State, result: StageResult): State {
    var speaker := Speaker(s);
    if s.step != Defence || speaker.None? || speaker.value in s.turnResults || speaker.value !in s.followUpAskerIds then s
    else s.(step := FollowUpQuestion,
            turnResults := s.turnResults[speaker.value :=
              TurnResult(s.followUpAskerIds[speaker.value], result, Pending, Pending)])
  }

  function EndQuestion(s: State, result: StageResult): State {
    var speaker := Speaker(s);
    if s.step != FollowUpQuestion || speaker.None? || speaker.value !in s.turnResults
      || s.turnResults[speaker.value].question != Pending then s
    else s.(step := FollowUpResponse,
            turnResults := s.turnResults[speaker.value := s.turnResults[speaker.value].(question := result)])
  }

  function EndResponse(s: State, result: StageResult): State {
    var speaker := Speaker(s);
    if s.step != FollowUpResponse || speaker.None? || speaker.value !in s.turnResults
      || s.turnResults[speaker.value].response != Pending then s
    else
      var next := s.currentSpeakerIndex + 1;
      s.(step := if next >= |s.speakerOrder| then Completed else Defence,
         currentSpeakerIndex := next,
         turnResults := s.turnResults[speaker.value := s.turnResults[speaker.value].(response := result)])
  }

  predicate ValidateAction(s: State, playerId: PlayerId, action: Action) {
    && s.step != Completed
    && playerId in s.participantIds
    && match action
       case FinishDefence => s.step == Defence && Speaker(s) == Some(playerId)
       case FinishFollowUpQuestion => s.step == FollowUpQuestion && Asker(s) == Some(playerId)
       case FinishFollowUpResponse => s.step == FollowUpResponse && Speaker(s) == Some(playerId)
       case Other => false
  }

  function HandleAction(s: State, action: Action): State {
    match action
    case FinishDefence => EndDefence(s, Finished)
    case FinishFollowUpQuestion => EndQuestion(s, Finished)
    case FinishFollowUpResponse => EndResponse(s, Finished)
    case Other => s
  }

  function HandleTimeout(s: State): State {
    match s.step
    case Prep => s.(step := Defence)
    case Defence => EndDefence(s, TimedOut)
    case FollowUpQuestion => EndQuestion(s, TimedOut)
    case FollowUpResponse => EndResponse(s, TimedOut)
    case Completed => s
  }

  function DurationMs(s: State): nat {
    match s.step
    case Prep => 10_000
    case Defence => 15_000
    case FollowUpQuestion => 8_000
    case FollowUpResponse => 10_000
    case Completed => 10_000
  }

  // ---- Invariant and progress ------------------------------------------------------------------

  /** How far a speaker's recorded stages have come, given the step the machine is in. */
  ghost predicate Stages(r: TurnResult, question: bool, response: bool) {
    && r.defence != Pending && (r.question != Pending <==> question) && (r.response != Pending <==> response)
  }

  /** Who takes part: the speaking order lists the participants once each, and nobody questions themselves. */
  ghost predicate Cast(participantIds: seq<PlayerId>, speakerOrder: seq<PlayerId>, askers: map<PlayerId, PlayerId>) {
    && Distinct(speakerOrder) && 2 <= |speakerOrder| <= 4
    && Permutation(speakerOrder, participantIds)
    && askers.Keys == Elements(speakerOrder)
    && (forall i :: 0 <= i < |speakerOrder| ==> speakerOrder[i] in askers)
    && (forall id {:trigger askers[id]} :: id in askers ==> askers[id] in askers && askers[id] != id)
  }

  lemma CastSpeaks(s: State)
    requires Cast(s.participantIds, s.speakerOrder, s.followUpAskerIds)
    ensures 2 <= |s.speakerOrder| <= 4 && Distinct(s.speakerOrder)
    ensures forall i {:trigger s.speakerOrder[i]} :: 0 <= i < |s.speakerOrder| ==> s.speakerOrder[i] in s.followUpAskerIds
  {
  }

  /** Speakers before the current one are done, the current one is as far as the step says, the rest have nothing. */
  ghost predicate Valid(s: State) {
    && Cast(s.participantIds, s.speakerOrder, s.followUpAskerIds)
    && (s.step == Completed <==> s.currentSpeakerIndex == |s.speakerOrder|)
    && s.currentSpeakerIndex <= |s.speakerOrder|
    && (s.step == Prep ==> s.currentSpeakerIndex == 0)
    && s.turnResults.Keys <= s.followUpAskerIds.Keys
    && (forall id {:trigger s.turnResults[id]} :: id in s.turnResults ==>
          s.turnResults[id].askerId == s.followUpAskerIds[id])
    && (forall i {:trigger Recorded(s, i)} :: 0 <= i < |s.speakerOrder| ==> Recorded(s, i))
  }

  ghost predicate Recorded(s: State, i: nat)
    requires i < |s.speakerOrder|
  {
    var id := s.speakerOrder[i];
    if i < s.currentSpeakerIndex then id in s.turnResults && Stages(s.turnResults[id], true, true)
    else if i == s.currentSpeakerIndex && s.step == FollowUpQuestion then
      id in s.turnResults && Stages(s.turnResults[id], false, false)
    else if i == s.currentSpeakerIndex && s.step == FollowUpResponse then
      id in s.turnResults && Stages(s.turnResults[id], true, false)
    else id !in s.turnResults
  }

  /** Stages still to be ended: three for each speaker, and one for the preparation. */
  function Remaining(s: State): int {
    match s.step
    case Prep => 3 * |s.speakerOrder| + 1
    case Defence => 3 * (|s.speakerOrder| - s.currentSpeakerIndex)
    case FollowUpQuestion => 3 * (|s.speakerOrder| - s.currentSpeakerIndex) - 1
    case FollowUpResponse => 3 * (|s.speakerOrder| - s.currentSpeakerIndex) - 2
    case Completed => 0
  }

  /** The askers drawn for a shuffled order pass the check against the participants. */
  ghost predicate AskersDrawn(participantIds: seq<PlayerId>, askers: map<PlayerId, PlayerId>) {
    && askers.Keys == Elements(participantIds)
    && forall id {:trigger askers[id]} :: id in askers ==> askers[id] in askers && askers[id] != id
  }

  lemma DrawnAskersFit(participantIds: seq<PlayerId>, askers: map<PlayerId, PlayerId>)
    requires Distinct(participantIds) && AskersDrawn(participantIds, askers)
    ensures AskersFit(participantIds, askers)
  {
    hide Distinct;
    assert |askers| == |participantIds| by {
      DistinctCounts(participantIds);
      assert |askers| == |askers.Keys|;
    }
    forall id | id in participantIds ensures id in askers && askers[id] in participantIds && askers[id] != id {
      assert id in Elements(participantIds);
      assert askers[id] in Elements(participantIds);
    }
  }

  /** The machine starts whenever the order, the assignments and the askers cover the participants. */
  lemma StartAccepts(participantIds: seq<PlayerId>, config: Config)
    requires Distinct(participantIds) && 2 <= |participantIds| <= 4
    requires Permutation(config.speakerOrder, participantIds)
    requires config.assignedIds == Elements(participantIds)
    requires AskersDrawn(participantIds, config.followUpAskerIds)
    ensures Start(participantIds, config).Some?
    ensures var s := Start(participantIds, config).value;
            Valid(s) && Remaining(s) == 3 * |participantIds| + 1 && s.participantIds == participantIds
  {
    hide Permutation, Distinct, Elements, AskersDrawn, Cast, AssignmentsFit, AskersFit, OrderFits;
    OrderCovers(participantIds, config.speakerOrder, config.assignedIds);
    DrawnAskersFit(participantIds, config.followUpAskerIds);
    CastFits(participantIds, config.speakerOrder, config.followUpAskerIds);
  }

  lemma CastFits(participantIds: seq<PlayerId>, speakerOrder: seq<PlayerId>, askers: map<PlayerId, PlayerId>)
    requires Distinct(participantIds) && 2 <= |participantIds| <= 4 && Permutation(speakerOrder, participantIds)
    requires AskersDrawn(participantIds, askers)
    ensures Cast(participantIds, speakerOrder, askers)
  {
    PermutationMembers(speakerOrder, participantIds);
    PermutationDistinct(speakerOrder, participantIds);
    forall i | 0 <= i < |speakerOrder| ensures speakerOrder[i] in askers {
      assert speakerOrder[i] in Elements(speakerOrder);
    }
  }

  /** One input to a running machine: its stage timer, or an action that passes validation. */
  datatype Input = Timeout | Act(playerId: PlayerId, action: Action)

  ghost predicate Enabled(s: State, input: Input) {
    s.step != Completed && (input.Act? ==> ValidateAction(s, input.playerId, input.action))
  }

  function Apply(s: State, input: Input): State {
    if input.Timeout? then HandleTimeout(s) else HandleAction(s, input.action)
  }

  /** `t` comes from `s` by ending the current speaker's stage with the record `r`. */
  ghost predicate Ends(s: State, t: State, r: TurnResult)
    requires s.currentSpeakerIndex < |s.speakerOrder|
  {
    && t == s.(step := t.step, currentSpeakerIndex := t.currentSpeakerIndex,
               turnResults := s.turnResults[s.speakerOrder[s.currentSpeakerIndex] := r])
  }

  /** What ending a stage does to the step, the turn and the current speaker's record. */
  lemma StageEnds(s: State, input: Input) returns (r: TurnResult)
    requires Valid(s) && Enabled(s, input) && s.step != Prep
    ensures s.currentSpeakerIndex < |s.speakerOrder|
    ensures Ends(s, Apply(s, input), r)
    ensures s.speakerOrder[s.currentSpeakerIndex] in s.followUpAskerIds
    ensures r.askerId == s.followUpAskerIds[s.speakerOrder[s.currentSpeakerIndex]]
    ensures Stages(r, s.step != Defence, s.step == FollowUpResponse)
    ensures var t := Apply(s, input);
            match s.step
            case Prep => true
            case Defence => t.step == FollowUpQuestion && t.currentSpeakerIndex == s.currentSpeakerIndex
            case FollowUpQuestion => t.step == FollowUpResponse && t.currentSpeakerIndex == s.currentSpeakerIndex
            case FollowUpResponse =>
              && t.currentSpeakerIndex == s.currentSpeakerIndex + 1
              && t.step == if t.currentSpeakerIndex == |s.speakerOrder| then Completed else Defence
            case Completed => true
  {
    hide Cast;
    CastSpeaks(s);
    var id := s.speakerOrder[s.currentSpeakerIndex];
    assert Recorded(s, s.currentSpeakerIndex);
    r := Apply(s, input).turnResults[id];
  }

  lemma RecordsKept(s: State, t: State, r: TurnResult)
    requires Valid(s) && s.currentSpeakerIndex < |s.speakerOrder| && Ends(s, t, r)
    requires match s.step
             case Defence => t.step == FollowUpQuestion && t.currentSpeakerIndex == s.currentSpeakerIndex
             case FollowUpQuestion => t.step == FollowUpResponse && t.currentSpeakerIndex == s.currentSpeakerIndex
             case FollowUpResponse =>
               && t.currentSpeakerIndex == s.currentSpeakerIndex + 1 && (t.step == Defence || t.step == Completed)
             case _ => false
    requires Stages(r, s.step != Defence, s.step == FollowUpResponse)
    ensures forall i {:trigger Recorded(t, i)} :: 0 <= i < |t.speakerOrder| ==> Recorded(t, i)
  {
    hide Cast;
    CastSpeaks(s);
    forall i | 0 <= i < |t.speakerOrder| ensures Recorded(t, i) {
      assert Recorded(s, i);
      assert i != s.currentSpeakerIndex ==> s.speakerOrder[i] != s.speakerOrder[s.currentSpeakerIndex];
    }
  }

  /** Every validated action and every timeout ends exactly one stage, and changes the step a client is shown. */
  lemma ApplyAdvances(s: State, input: Input)
    requires Valid(s) && Enabled(s, input)
    ensures Valid(Apply(s, input))
    ensures Remaining(Apply(s, input)) == Remaining(s) - 1
    ensures (Apply(s, input).step, Apply(s, input).currentSpeakerIndex) != (s.step, s.currentSpeakerIndex)
    ensures Apply(s, input).participantIds == s.participantIds && Apply(s, input).speakerOrder == s.speakerOrder
  {
    hide Cast;
    CastSpeaks(s);
    var t := Apply(s, input);
    if s.step == Prep {
      forall i | 0 <= i < |t.speakerOrder| ensures Recorded(t, i) {
        assert Recorded(s, i);
      }
    } else {
      var r := StageEnds(s, input);
      RecordsKept(s, t, r);
      hide Recorded, Apply;
    }
  }

  /** The states of a run; inputs that are not enabled are not part of one. */
  ghost predicate IsRun(s: State, inputs: seq<Input>)
    decreases |inputs|
  {
    inputs == [] || (Enabled(s, inputs[0]) && IsRun(Apply(s, inputs[0]), inputs[1..]))
  }

  function RunFrom(s: State, inputs: seq<Input>): State
    decreases |inputs|
  {
    if inputs == [] then s else RunFrom(Apply(s, inputs[0]), inputs[1..])
  }

  lemma {:induction false} RunCounts(s: State, inputs: seq<Input>)
    requires Valid(s) && IsRun(s, inputs)
    ensures Valid(RunFrom(s, inputs)) && Remaining(RunFrom(s, inputs)) == Remaining(s) - |inputs|
    ensures RunFrom(s, inputs).speakerOrder == s.speakerOrder
    decreases |inputs|
  {
    hide Valid, Remaining, Apply, Enabled;
    if inputs != [] {
      ApplyAdvances(s, inputs[0]);
      RunCounts(Apply(s, inputs[0]), inputs[1..]);
    }
  }

  /** In a completed game each speaker has one fully decided result, and was asked by somebody else. */
  ghost predicate EveryTurnDecided(t: State) {
    && t.turnResults.Keys == Elements(t.speakerOrder)
    && forall id {:trigger t.turnResults[id]} :: id in t.turnResults ==>
         && Stages(t.turnResults[id], true, true)
         && t.turnResults[id].askerId in Elements(t.speakerOrder)
         && t.turnResults[id].askerId != id
  }

  lemma CastAsker(participantIds: seq<PlayerId>, speakerOrder: seq<PlayerId>, askers: map<PlayerId, PlayerId>,
                  id: PlayerId)
    requires Cast(participantIds, speakerOrder, askers) && id in askers
    ensures askers[id] in Elements(speakerOrder) && askers[id] != id
    ensures id in Elements(speakerOrder)
  {
  }

  lemma DecidedTurn(t: State, id: PlayerId)
    requires Valid(t) && t.step == Completed && id in Elements(t.speakerOrder)
    ensures id in t.turnResults && Stages(t.turnResults[id], true, true)
  {
    hide Cast;
    var i :| 0 <= i < |t.speakerOrder| && t.speakerOrder[i] == id;
    assert Recorded(t, i);
  }

  lemma TurnAsked(t: State, id: PlayerId)
    requires Valid(t) && id in t.turnResults
    ensures id in Elements(t.speakerOrder)
    ensures t.turnResults[id].askerId in Elements(t.speakerOrder) && t.turnResults[id].askerId != id
  {
    hide Cast, Recorded, Elements;
    CastAsker(t.participantIds, t.speakerOrder, t.followUpAskerIds, id);
  }

  lemma CompletedMeansDecided(t: State)
    requires Valid(t) && t.step == Completed
    ensures EveryTurnDecided(t)
  {
    hide Valid, Elements, Stages;
    forall id | id in t.turnResults
      ensures id in Elements(t.speakerOrder) && Stages(t.turnResults[id], true, true)
      ensures t.turnResults[id].askerId in Elements(t.speakerOrder) && t.turnResults[id].askerId != id
    {
      TurnAsked(t, id);
      DecidedTurn(t, id);
    }
    forall id | id in Elements(t.speakerOrder) ensures id in t.turnResults {
      DecidedTurn(t, id);
    }
  }

  /**
    However actions and timeouts are mixed, a game of n speakers is complete after exactly 3n + 1
    of them, and never runs longer.
   */
  lemma CompletesAfterExactly(s: State, inputs: seq<Input>)
    requires Valid(s) && s.step == Prep && IsRun(s, inputs)
    ensures RunFrom(s, inputs).step == Completed <==> |inputs| == 3 * |s.speakerOrder| + 1
    ensures |inputs| <= 3 * |s.speakerOrder| + 1
    ensures RunFrom(s, inputs).step == Completed ==> EveryTurnDecided(RunFrom(s, inputs))
  {
    hide RunFrom, IsRun, EveryTurnDecided, Cast, Recorded;
    RunCounts(s, inputs);
    var t := RunFrom(s, inputs);
    if t.step == Completed {
      CompletedMeansDecided(t);
    }
  }

  // ---- Who ended what ------------------------------------------------------------------------------

  /** The three stages of a speaker's turn, in their order. */
  function StageOf(r: TurnResult, part: nat): StageResult
    requires part < 3
  {
    if part == 0 then r.defence else if part == 1 then r.question else r.response
  }

  /** How many stages lie behind a machine past its preparation. */
  function StagesBehind(s: State): nat {
    3 * s.currentSpeakerIndex + if s.step == FollowUpQuestion then 1 else if s.step == FollowUpResponse then 2 else 0
  }

  /** A stage ended by a player is finished, one ended by the timer is not. */
  function Ending(input: Input): StageResult {
    if input.Timeout? then TimedOut else Finished
  }

  /** The speaker defends and responds, the asker asks. */
  function Performer(s: State, i: nat, part: nat): (id: PlayerId)
    requires i < |s.speakerOrder| && s.speakerOrder[i] in s.followUpAskerIds
  {
    if part == 1 then s.followUpAskerIds[s.speakerOrder[i]] else s.speakerOrder[i]
  }

  lemma SpeakersHaveAskers(s: State)
    requires Valid(s)
    ensures Distinct(s.speakerOrder)
    ensures forall i {:trigger s.speakerOrder[i]} :: 0 <= i < |s.speakerOrder| ==> s.speakerOrder[i] in s.followUpAskerIds
  {
    hide Recorded;
  }

  /** The stage's end is recorded, by whose action it came if by anybody's, and no decided stage changes. */
  lemma StageRecorded(s: State, input: Input, i: nat, part: nat)
    requires Valid(s) && Enabled(s, input) && s.step != Prep
    requires part < 3 && StagesBehind(s) == 3 * i + part
    ensures i < |s.speakerOrder| && s.speakerOrder[i] in s.followUpAskerIds
    ensures var t := Apply(s, input);
            && s.speakerOrder[i] in t.turnResults && StageOf(t.turnResults[s.speakerOrder[i]], part) == Ending(input)
            && (input.Act? ==> input.playerId == Performer(s, i, part))
            && t.followUpAskerIds == s.followUpAskerIds && StagesBehind(t) == StagesBehind(s) + 1 && t.step != Prep
  {
    hide Cast;
    CastSpeaks(s);
    assert Recorded(s, s.currentSpeakerIndex);
  }

  lemma DecidedStands(s: State, input: Input, id: PlayerId, part: nat)
    requires Valid(s) && Enabled(s, input) && part < 3
    requires id in s.turnResults && StageOf(s.turnResults[id], part) != Pending
    ensures id in Apply(s, input).turnResults
    ensures StageOf(Apply(s, input).turnResults[id], part) == StageOf(s.turnResults[id], part)
  {
    hide Cast;
    CastSpeaks(s);
    if s.step != Prep {
      assert Recorded(s, s.currentSpeakerIndex);
    }
  }

  lemma {:induction false} DecidedStandsOver(s: State, inputs: seq<Input>, id: PlayerId, part: nat)
    requires Valid(s) && IsRun(s, inputs) && part < 3
    requires id in s.turnResults && StageOf(s.turnResults[id], part) != Pending
    ensures id in RunFrom(s, inputs).turnResults
    ensures StageOf(RunFrom(s, inputs).turnResults[id], part) == StageOf(s.turnResults[id], part)
    decreases |inputs|
  {
    hide Valid, Apply, Enabled, StageOf;
    if inputs != [] {
      DecidedStands(s, inputs[0], id, part);
      ApplyAdvances(s, inputs[0]);
      DecidedStandsOver(Apply(s, inputs[0]), inputs[1..], id, part);
    }
  }

  lemma {:induction false} StagesTaken(s: State, inputs: seq<Input>, j: nat, i: nat, part: nat)
    requires Valid(s) && s.step != Prep && IsRun(s, inputs) && j < |inputs|
    requires part < 3 && StagesBehind(s) + j == 3 * i + part
    ensures i < |s.speakerOrder| && s.speakerOrder[i] in s.followUpAskerIds
    ensures var t := RunFrom(s, inputs);
            && s.speakerOrder[i] in t.turnResults && StageOf(t.turnResults[s.speakerOrder[i]], part) == Ending(inputs[j])
            && (inputs[j].Act? ==> inputs[j].playerId == Performer(s, i, part))
    decreases |inputs|
  {
    hide Valid, Apply, Enabled, StageOf, StagesBehind;
    var t := Apply(s, inputs[0]);
    ApplyAdvances(s, inputs[0]);
    if j == 0 {
      StageRecorded(s, inputs[0], i, part);
      DecidedStandsOver(t, inputs[1..], s.speakerOrder[i], part);
    } else {
      var k := StagesBehind(s);
      StageRecorded(s, inputs[0], k / 3, k % 3);
      StagesTaken(t, inputs[1..], j - 1, i, part);
    }
  }

  lemma PreparationEnds(s: State, input: Input)
    requires Valid(s) && s.step == Prep && Enabled(s, input)
    ensures input.Timeout? && Apply(s, input) == s.(step := Defence) && StagesBehind(Apply(s, input)) == 0
  {
    hide Cast, Recorded;
  }

  /**
    Over any run from the preparation on: that ends by the timer, and then the next inputs end, three for each speaker in
    their order, the defence, the question and the response, each finished exactly where the one whose part it is said so.
   */
  lemma ResultsAsPerformed(s: State, inputs: seq<Input>, i: nat, part: nat)
    requires Valid(s) && s.step == Prep && IsRun(s, inputs)
    requires part < 3 && 3 * i + part + 1 < |inputs|
    ensures inputs[0].Timeout?
    ensures i < |s.speakerOrder| && s.speakerOrder[i] in s.followUpAskerIds
    ensures var t := RunFrom(s, inputs);
            var ending := inputs[3 * i + part + 1];
            && s.speakerOrder[i] in t.turnResults && StageOf(t.turnResults[s.speakerOrder[i]], part) == Ending(ending)
            && (ending.Act? ==> ending.playerId == Performer(s, i, part))
  {
    hide Valid, Apply, StageOf, Enabled, StagesBehind;
    ApplyAdvances(s, inputs[0]);
    PreparationEnds(s, inputs[0]);
    StagesTaken(Apply(s, inputs[0]), inputs[1..], 3 * i + part, i, part);
  }

  /** The action that ends a stage. */
  function EndingAction(part: nat): Action {
    if part == 0 then FinishDefence else if part == 1 then FinishFollowUpQuestion else FinishFollowUpResponse
  }

  /** During a stage its performer may end it, and no other action of anybody's is let through. */
  lemma MayAct(s: State, i: nat, part: nat, playerId: PlayerId, action: Action)
    requires Valid(s) && part < 3 && StagesBehind(s) == 3 * i + part
    ensures s.step == Prep || i == |s.speakerOrder| ==> !ValidateAction(s, playerId, action)
    ensures s.step != Prep && i != |s.speakerOrder| ==>
              && i < |s.speakerOrder| && s.speakerOrder[i] in s.followUpAskerIds
              && (ValidateAction(s, playerId, action) <==> action == EndingAction(part) && playerId == Performer(s, i, part))
  {
    hide Cast, Recorded;
    CastSpeaks(s);
    assert i == s.currentSpeakerIndex;
    if s.step != Prep && i != |s.speakerOrder| {
      CastTakesPart(s.participantIds, s.speakerOrder, s.followUpAskerIds, i);
    }
  }

  lemma CastTakesPart(participantIds: seq<PlayerId>, speakerOrder: seq<PlayerId>, askers: map<PlayerId, PlayerId>, i: nat)
    requires Cast(participantIds, speakerOrder, askers) && i < |speakerOrder|
    ensures speakerOrder[i] in askers && speakerOrder[i] in participantIds && askers[speakerOrder[i]] in participantIds
  {
    PermutationMembers(speakerOrder, participantIds);
    assert askers[speakerOrder[i]] in Elements(speakerOrder);
  }
}
