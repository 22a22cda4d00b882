/** DESCRIBE_IT: after a common thinking time the participants speak once each, in a drawn order. */
module DescribeIt {
  import opened Collections
  import opened SpeakingOrder

  datatype Step = Think | Speaking | Completed
  datatype TurnResult = Finished | TimedOut

  datatype State = State(
    participantIds: seq<PlayerId>, speakerOrder: seq<PlayerId>, currentSpeakerIndex: nat, step: Step,
    turnResults: map<PlayerId, TurnResult>)

  datatype Config = Config(speakerOrder: seq<PlayerId>, assignedIds: set<PlayerId>)

  datatype Action = FinishSpeaking | Other

  /** `None` when the source throws: the participants or the config do not fit together. */
  function Start(participantIds: seq<PlayerId>, config: Config): Option<State> {
    if |participantIds| < 3 || |participantIds| > 5 || !Distinct(participantIds) then None
    else if !OrderFits(participantIds, config.speakerOrder) then None
    else if !AssignmentsFit(participantIds, config.assignedIds) then None
    else Some(State(participantIds, config.speakerOrder, 0, Think, map[]))
  }

  function CurrentSpeaker(s: State): Option<PlayerId> {
    if s.step == Speaking && s.currentSpeakerIndex < |s.speakerOrder|
    then Some(s.speakerOrder[s.currentSpeakerIndex]) else None
  }

  function AdvanceTurn(s: State, result: TurnResult): State {
    var speaker := CurrentSpeaker(s);
    if speaker.None? || speaker.value in s.turnResults then s
    else
      var next := s.currentSpeakerIndex + 1;
      s.(turnResults := s.turnResults[speaker.value := result],
         currentSpeakerIndex := next,
         step := if next >= |s.speakerOrder| then Completed else Speaking)
  }

  predicate ValidateAction(s: State, playerId: PlayerId, action: Action) {
    action == FinishSpeaking && s.step == Speaking && playerId in s.participantIds && CurrentSpeaker(s) == Some(playerId)
  }

  function HandleAction(s: State, action: Action): State {
    if action == FinishSpeaking then AdvanceTurn(s, Finished) else s
  }

  function HandleTimeout(s: State): State {
    if s.step == Think then s.(step := Speaking) else AdvanceTurn(s, TimedOut)
  }

  function DurationMs(s: State): nat {
    if s.step == Think then 9_000 else 12_000
  }

  // ---- Invariant and progress ------------------------------------------------------------------

  /** Exactly the speakers before the current one have a result. */
  ghost predicate Valid(s: State) {
    && 3 <= |s.speakerOrder| <= 5 && Distinct(s.speakerOrder)
    && Permutation(s.speakerOrder, s.participantIds)
    && s.currentSpeakerIndex <= |s.speakerOrder|
    && (s.step == Completed <==> s.currentSpeakerIndex == |s.speakerOrder|)
    && (s.step == Think ==> s.currentSpeakerIndex == 0)
    && s.turnResults.Keys == Elements(s.speakerOrder[..s.currentSpeakerIndex])
  }

  /** Turns still to be taken, and one for the thinking time. */
  function Remaining(s: State): int {
    |s.speakerOrder| - s.currentSpeakerIndex + if s.step == Think then 1 else 0
  }

  lemma StartAccepts(participantIds: seq<PlayerId>, config: Config)
    requires Distinct(participantIds) && 3 <= |participantIds| <= 5
    requires Permutation(config.speakerOrder, participantIds) && config.assignedIds == Elements(participantIds)
    ensures Start(participantIds, config).Some?
    ensures var s := Start(participantIds, config).value;
            Valid(s) && Remaining(s) == |participantIds| + 1 && s.participantIds == participantIds
  {
    OrderCovers(participantIds, config.speakerOrder, config.assignedIds);
    assert config.speakerOrder[..0] == [];
  }

  datatype Input = Timeout | Act(playerId: PlayerId, action: Action)

  ghost predicate Enabled(s: State, input: Input) {
    s.step != Completed && (input.Act? ==> ValidateAction(s, input.playerId, input.action))
  }

  function Apply(s: State, input: Input): State {
    if input.Timeout? then HandleTimeout(s) else HandleAction(s, input.action)
  }

  /** The step key a client is shown: the turn is part of it only while somebody speaks. */
  function StepKey(s: State): (Step, nat) {
    (s.step, if s.step == Speaking then s.currentSpeakerIndex else 0)
  }

  lemma ApplyAdvances(s: State, input: Input)
    requires Valid(s) && Enabled(s, input)
    ensures Valid(Apply(s, input))
    ensures Remaining(Apply(s, input)) == Remaining(s) - 1
    ensures StepKey(Apply(s, input)) != StepKey(s)
    ensures Apply(s, input).participantIds == s.participantIds && Apply(s, input).speakerOrder == s.speakerOrder
  {
    if s.step == Speaking {
      var k := s.currentSpeakerIndex;
      var spoken := s.speakerOrder[..k];
      assert s.speakerOrder[k] !in spoken;
      assert s.speakerOrder[..k + 1] == spoken + [s.speakerOrder[k]];
      assert Elements(s.speakerOrder[..k + 1]) == Elements(spoken) + {s.speakerOrder[k]};
    }
  }

  ghost predicate IsRun(s: State, inputs: seq<Input>)
    decreases |inputs|
  {
    inputs == [] || (Enabled(s, inputs[0]) && IsRun(Apply(s, inputs[0]), inputs[1..]))
  }

  function RunFrom(s: State, inputs: seq<Input>): State
    decreases |inputs|
  {
    if inputs == [] then s else RunFrom(Apply(s, inputs[0]), inputs[1..])
  }

  lemma {:induction false} RunCounts(s: State, inputs: seq<Input>)
    requires Valid(s) && IsRun(s, inputs)
    ensures Valid(RunFrom(s, inputs)) && Remaining(RunFrom(s, inputs)) == Remaining(s) - |inputs|
    ensures RunFrom(s, inputs).speakerOrder == s.speakerOrder
    decreases |inputs|
  {
    hide Valid, Remaining, Apply, Enabled;
    if inputs != [] {
      ApplyAdvances(s, inputs[0]);
      RunCounts(Apply(s, inputs[0]), inputs[1..]);
    }
  }

  /** n speakers take exactly n + 1 validated actions or timeouts, in any mix, and each gets exactly one result. */
  lemma CompletesAfterExactly(s: State, inputs: seq<Input>)
    requires Valid(s) && s.step == Think && IsRun(s, inputs)
    ensures RunFrom(s, inputs).step == Completed <==> |inputs| == |s.speakerOrder| + 1
    ensures |inputs| <= |s.speakerOrder| + 1
    ensures RunFrom(s, inputs).step == Completed ==> RunFrom(s, inputs).turnResults.Keys == Elements(s.speakerOrder)
  {
    RunCounts(s, inputs);
    var t := RunFrom(s, inputs);
    assert t.step == Completed ==> t.speakerOrder[..t.currentSpeakerIndex] == t.speakerOrder;
  }

  // ---- Who spoke, and how it ended ----------------------------------------------------------------

  /** A turn that its speaker ends is finished; one that the timer ends is not. */
  function Ending(input: Input): TurnResult {
    if input.Timeout? then TimedOut else Finished
  }

  /** From somebody's turn on each input ends the turn of the next speaker, who alone can end it early. */
  lemma {:induction false} TurnsTaken(s: State, inputs: seq<Input>, j: nat)
    requires Valid(s) && s.step == Speaking && IsRun(s, inputs) && j < |inputs|
    ensures s.currentSpeakerIndex + j < |s.speakerOrder|
    ensures var t := RunFrom(s, inputs);
            var speaker := s.speakerOrder[s.currentSpeakerIndex + j];
            && speaker in t.turnResults && t.turnResults[speaker] == Ending(inputs[j])
            && (inputs[j].Act? ==> inputs[j].playerId == speaker)
    ensures forall id :: id in s.turnResults ==> id in RunFrom(s, inputs).turnResults && RunFrom(s, inputs).turnResults[id] == s.turnResults[id]
    decreases |inputs|
  {
    hide Valid;
    ApplyAdvances(s, inputs[0]);
    var t := Apply(s, inputs[0]);
    TurnEnds(s, inputs[0]);
    hide Apply, Enabled;
    if t.step == Completed {
      assert inputs[1..] == [];
    } else {
      if inputs[1..] != [] {
        TurnsTaken(t, inputs[1..], if j == 0 then 0 else j - 1);
      }
    }
  }

  lemma TurnEnds(s: State, input: Input)
    requires Valid(s) && s.step == Speaking && Enabled(s, input)
    ensures s.currentSpeakerIndex < |s.speakerOrder|
    ensures var t := Apply(s, input);
            var speaker := s.speakerOrder[s.currentSpeakerIndex];
            && t.turnResults == s.turnResults[speaker := Ending(input)] && speaker !in s.turnResults
            && t.currentSpeakerIndex == s.currentSpeakerIndex + 1
            && t.step == (if t.currentSpeakerIndex == |s.speakerOrder| then Completed else Speaking)
            && (input.Act? ==> input.playerId == speaker)
  {
    assert s.speakerOrder[s.currentSpeakerIndex] !in s.speakerOrder[..s.currentSpeakerIndex];
  }

  /**
    Over any run from the thinking time on: that ends by the timer, and then the next inputs end the turns of the
    speakers in their order, finished exactly where the speaker ended the turn.
   */
  lemma ResultsAsSpoken(s: State, inputs: seq<Input>, k: nat)
    requires Valid(s) && s.step == Think && IsRun(s, inputs) && k + 1 < |inputs|
    ensures inputs[0].Timeout? && k < |s.speakerOrder|
    ensures var t := RunFrom(s, inputs);
            var speaker := s.speakerOrder[k];
            && speaker in t.turnResults && t.turnResults[speaker] == Ending(inputs[k + 1])
            && (inputs[k + 1].Act? ==> inputs[k + 1].playerId == speaker)
  {
    ApplyAdvances(s, inputs[0]);
    TurnsTaken(Apply(s, inputs[0]), inputs[1..], k);
    hide Valid;
  }

  /** While somebody speaks, that player may end the turn, and no other action of anybody's is let through. */
  lemma MayAct(s: State, playerId: PlayerId, action: Action)
    requires Valid(s)
    ensures ValidateAction(s, playerId, action) <==>
              && s.step == Speaking && action == FinishSpeaking
              && s.currentSpeakerIndex < |s.speakerOrder| && playerId == s.speakerOrder[s.currentSpeakerIndex]
  {
    PermutationMembers(s.speakerOrder, s.participantIds);
  }
}
