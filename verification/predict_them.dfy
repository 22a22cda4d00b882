/** PREDICT_THEM: the audience votes between two options, then the selected players predict the majority. */
module PredictThem {
  import opened Collections
  import opened SpeakingOrder

  datatype Choice = A | B
  datatype Majority = ForA | ForB | Tie
  datatype Step = AudienceVote | Prediction | Completed

  datatype State = State(
    selectedPlayerIds: seq<PlayerId>, audiencePlayerIds: seq<PlayerId>, step: Step,
    audienceVotes: map<PlayerId, Choice>, predictions: map<PlayerId, Choice>)

  datatype Config = Config(selectedPlayerIds: seq<PlayerId>, assignedIds: set<PlayerId>)

  datatype Action = SubmitAudienceVote(choice: Choice) | SubmitPrediction(choice: Choice) | Other

  function Audience(participantIds: seq<PlayerId>, selectedPlayerIds: seq<PlayerId>): seq<PlayerId> {
    Filter(participantIds, (id: PlayerId) => id !in selectedPlayerIds)
  }

  /** `None` when the source throws: the participants or the config do not fit together. */
  function Start(participantIds: seq<PlayerId>, config: Config): Option<State> {
    if |participantIds| < 2 || !Distinct(participantIds) then None
    else if |config.selectedPlayerIds| < 1 || |config.selectedPlayerIds| > 4 then None
    else if !Distinct(config.selectedPlayerIds)
      || (exists id :: id in config.selectedPlayerIds && id !in participantIds) then None
    else if Audience(participantIds, config.selectedPlayerIds) == [] then None
    else if !AssignmentsFit(config.selectedPlayerIds, config.assignedIds) then None
    else Some(State(config.selectedPlayerIds, Audience(participantIds, config.selectedPlayerIds), AudienceVote, map[], map[]))
  }

  predicate ValidateAction(s: State, playerId: PlayerId, action: Action) {
    match action
    case SubmitAudienceVote(_) =>
      s.step == AudienceVote && playerId in s.audiencePlayerIds && playerId !in s.audienceVotes
    case SubmitPrediction(_) =>
      s.step == Prediction && playerId in s.selectedPlayerIds && playerId !in s.predictions
    case Other => false
  }

  predicate AllIn(ids: seq<PlayerId>, votes: map<PlayerId, Choice>) {
    forall id :: id in ids ==> id in votes
  }

  function HandleAction(s: State, playerId: PlayerId, action: Action): State {
    match action
    case SubmitAudienceVote(choice) =>
      var votes := s.audienceVotes[playerId := choice];
      s.(audienceVotes := votes, step := if AllIn(s.audiencePlayerIds, votes) then Prediction else AudienceVote)
    case SubmitPrediction(choice) =>
      var predictions := s.predictions[playerId := choice];
      s.(predictions := predictions, step := if AllIn(s.selectedPlayerIds, predictions) then Completed else Prediction)
    case Other => s
  }

  function HandleTimeout(s: State): State {
    s.(step := if s.step == AudienceVote then Prediction else Completed)
  }

  function DurationMs(s: State): nat {
    20_000
  }

  // ---- The audience result -----------------------------------------------------------------------

  datatype AudienceResult = AudienceResult(aVotes: nat, bVotes: nat, noVotes: int, majority: Majority)

  function VotersFor(votes: map<PlayerId, Choice>, choice: Choice): set<PlayerId> {
    set id | id in votes && votes[id] == choice
  }

  function ResolveMajority(aVotes: nat, bVotes: nat): Majority {
    if aVotes > bVotes then ForA else if bVotes > aVotes then ForB else Tie
  }

  function Result(s: State): AudienceResult {
    var aVotes, bVotes := |VotersFor(s.audienceVotes, A)|, |VotersFor(s.audienceVotes, B)|;
    AudienceResult(aVotes, bVotes, |s.audiencePlayerIds| - |s.audienceVotes|, ResolveMajority(aVotes, bVotes))
  }

  /**
    Votes come only from the audience, predictions only from the selected, and a finished step has all
    it waits for or timed out.
   */
  ghost predicate Valid(s: State) {
    && Distinct(s.selectedPlayerIds) && s.selectedPlayerIds != []
    && Distinct(s.audiencePlayerIds) && s.audiencePlayerIds != []
    && s.audienceVotes.Keys <= Elements(s.audiencePlayerIds)
    && s.predictions.Keys <= Elements(s.selectedPlayerIds)
    && (s.step == AudienceVote ==> s.predictions == map[] && !AllIn(s.audiencePlayerIds, s.audienceVotes))
    && (s.step == Prediction ==> !AllIn(s.selectedPlayerIds, s.predictions))
  }

  /** The votes for A, those for B and the missing ones add up to the audience, whatever happened so far. */
  lemma VotesAccountedFor(s: State)
    requires Valid(s)
    ensures Result(s).aVotes + Result(s).bVotes + Result(s).noVotes == |s.audiencePlayerIds|
    ensures 0 <= Result(s).noVotes
    ensures Result(s).noVotes == 0 <==> AllIn(s.audiencePlayerIds, s.audienceVotes)
  {
    var a, b := VotersFor(s.audienceVotes, A), VotersFor(s.audienceVotes, B);
    var voted, audience := s.audienceVotes.Keys, Elements(s.audiencePlayerIds);
    assert a + b == voted && a * b == {};
    assert |s.audienceVotes| == |voted| == |a| + |b|;
    DistinctCounts(s.audiencePlayerIds);
    assert audience == voted + (audience - voted);
    assert |audience| == |voted| + |audience - voted|;
    if AllIn(s.audiencePlayerIds, s.audienceVotes) {
      assert audience - voted == {};
    } else {
      var id :| id in s.audiencePlayerIds && id !in s.audienceVotes;
      assert id in audience - voted;
    }
  }

  lemma StartAccepts(participantIds: seq<PlayerId>, config: Config)
    requires Distinct(participantIds)
    requires 1 <= |config.selectedPlayerIds| <= 4 && |config.selectedPlayerIds| < |participantIds|
    requires Distinct(config.selectedPlayerIds) && forall id :: id in config.selectedPlayerIds ==> id in participantIds
    requires config.assignedIds == Elements(config.selectedPlayerIds)
    ensures Start(participantIds, config).Some?
    ensures Valid(Start(participantIds, config).value) && Start(participantIds, config).value.step == AudienceVote
  {
    DistinctCounts(config.selectedPlayerIds);
    FilterDistinct(participantIds, (id: PlayerId) => id !in config.selectedPlayerIds);
    var audience := Audience(participantIds, config.selectedPlayerIds);
    if audience == [] {
      forall id | id in participantIds ensures id in Elements(config.selectedPlayerIds) {
        assert id !in audience;
      }
      DistinctWithin(participantIds, Elements(config.selectedPlayerIds));
      assert false;
    }
    assert audience[0] in audience;
  }

  datatype Input = Timeout | Act(playerId: PlayerId, action: Action)

  ghost predicate Enabled(s: State, input: Input) {
    s.step != Completed && (input.Act? ==> ValidateAction(s, input.playerId, input.action))
  }

  function Apply(s: State, input: Input): State {
    if input.Timeout? then HandleTimeout(s) else HandleAction(s, input.playerId, input.action)
  }

  /** Timeouts still needed if nobody acts any more. */
  function StepsLeft(s: State): nat {
    match s.step case AudienceVote => 2 case Prediction => 1 case Completed => 0
  }

  /**
    A timeout always ends the step; a vote is recorded once and never altered, and ends the step only
    when it is the last.
   */
  lemma ApplyKeepsValid(s: State, input: Input)
    requires Valid(s) && Enabled(s, input)
    ensures var t := Apply(s, input);
            && Valid(t)
            && t.selectedPlayerIds == s.selectedPlayerIds && t.audiencePlayerIds == s.audiencePlayerIds
            && StepsLeft(t) <= StepsLeft(s)
            && (input.Timeout? ==> StepsLeft(t) == StepsLeft(s) - 1)
            && (forall id :: id in s.audienceVotes ==> id in t.audienceVotes && t.audienceVotes[id] == s.audienceVotes[id])
            && (t.step != AudienceVote && s.step != AudienceVote ==> t.audienceVotes == s.audienceVotes)
            && (input.Act? && t.step != s.step ==>
                  if s.step == AudienceVote then AllIn(s.audiencePlayerIds, t.audienceVotes)
                  else AllIn(s.selectedPlayerIds, t.predictions))
  {
    var t := Apply(s, input);
    if t.step == Prediction && s.step == AudienceVote {
      assert s.selectedPlayerIds[0] in s.selectedPlayerIds && s.selectedPlayerIds[0] !in t.predictions;
    }
  }

  ghost predicate IsRun(s: State, inputs: seq<Input>)
    decreases |inputs|
  {
    inputs == [] || (Enabled(s, inputs[0]) && IsRun(Apply(s, inputs[0]), inputs[1..]))
  }

  function RunFrom(s: State, inputs: seq<Input>): State
    decreases |inputs|
  {
    if inputs == [] then s else RunFrom(Apply(s, inputs[0]), inputs[1..])
  }

  /** Over every run the result keeps adding up, and once voting is closed it no longer moves. */
  lemma {:induction false} ResultOverRuns(s: State, inputs: seq<Input>)
    requires Valid(s) && IsRun(s, inputs)
    ensures var t := RunFrom(s, inputs);
            && Valid(t)
            && Result(t).aVotes + Result(t).bVotes + Result(t).noVotes == |s.audiencePlayerIds|
            && 0 <= Result(t).noVotes
            && (s.step != AudienceVote ==> Result(t) == Result(s))
            && StepsLeft(t) <= StepsLeft(s)
    decreases |inputs|
  {
    hide Valid, Enabled, Apply, AllIn;
    if inputs == [] {
      VotesAccountedFor(s);
    } else {
      ApplyKeepsValid(s, inputs[0]);
      ResultOverRuns(Apply(s, inputs[0]), inputs[1..]);
    }
  }

  // ---- Whose votes they are -----------------------------------------------------------------------

  /** Who votes for this option in the course of a run. */
  function VotersIn(inputs: seq<Input>, choice: Choice): set<PlayerId> {
    set input | input in inputs && input.Act? && input.action == SubmitAudienceVote(choice) :: input.playerId
  }

  /** Who predicts this option in the course of a run. */
  function PredictorsIn(inputs: seq<Input>, choice: Choice): set<PlayerId> {
    set input | input in inputs && input.Act? && input.action == SubmitPrediction(choice) :: input.playerId
  }

  lemma FirstInput(inputs: seq<Input>, choice: Choice)
    requires inputs != []
    ensures VotersIn(inputs, choice) == VotersIn(inputs[..1], choice) + VotersIn(inputs[1..], choice)
    ensures PredictorsIn(inputs, choice) == PredictorsIn(inputs[..1], choice) + PredictorsIn(inputs[1..], choice)
  {
    assert inputs == inputs[..1] + inputs[1..];
    assert forall input :: input in inputs <==> input in inputs[..1] || input in inputs[1..];
  }

  lemma OneInputTallied(s: State, input: Input, choice: Choice)
    requires Valid(s) && Enabled(s, input)
    ensures var t := Apply(s, input);
            && VotersFor(t.audienceVotes, choice) == VotersFor(s.audienceVotes, choice) + VotersIn([input], choice)
            && VotersFor(t.predictions, choice) == VotersFor(s.predictions, choice) + PredictorsIn([input], choice)
  {
    hide AllIn;
    assert forall x: Input :: x in [input] <==> x == input;
  }

  lemma {:induction false} Tallied(s: State, inputs: seq<Input>, choice: Choice)
    requires Valid(s) && IsRun(s, inputs)
    ensures var t := RunFrom(s, inputs);
            && VotersFor(t.audienceVotes, choice) == VotersFor(s.audienceVotes, choice) + VotersIn(inputs, choice)
            && VotersFor(t.predictions, choice) == VotersFor(s.predictions, choice) + PredictorsIn(inputs, choice)
    decreases |inputs|
  {
    hide Valid, Enabled, Apply, VotersFor;
    if inputs == [] {
      assert VotersIn([], choice) == {} && PredictorsIn([], choice) == {};
    } else {
      hide VotersIn, PredictorsIn;
      FirstInput(inputs, choice);
      assert inputs[..1] == [inputs[0]];
      OneInputTallied(s, inputs[0], choice);
      ApplyKeepsValid(s, inputs[0]);
      Tallied(Apply(s, inputs[0]), inputs[1..], choice);
    }
  }

  /**
    The result is that of the votes cast: over any run of a started game the votes for an option, and the predictions of
    it, are those of the players who submitted it, and the majority is with the option more of them voted for.
   */
  lemma ResultIsTheVotes(participantIds: seq<PlayerId>, config: Config, inputs: seq<Input>)
    requires Start(participantIds, config).Some? && Valid(Start(participantIds, config).value)
    requires IsRun(Start(participantIds, config).value, inputs)
    ensures var t := RunFrom(Start(participantIds, config).value, inputs);
            && Result(t).aVotes == |VotersIn(inputs, A)| && Result(t).bVotes == |VotersIn(inputs, B)|
            && (Result(t).majority == ForA <==> |VotersIn(inputs, A)| > |VotersIn(inputs, B)|)
            && (Result(t).majority == ForB <==> |VotersIn(inputs, B)| > |VotersIn(inputs, A)|)
            && forall id, choice :: id in t.predictions && t.predictions[id] == choice <==> id in PredictorsIn(inputs, choice)
  {
    var s := Start(participantIds, config).value;
    hide Valid, IsRun, RunFrom, VotersIn, PredictorsIn;
    forall choice
      ensures var t := RunFrom(s, inputs);
              && VotersFor(t.audienceVotes, choice) == VotersIn(inputs, choice)
              && VotersFor(t.predictions, choice) == PredictorsIn(inputs, choice)
    {
      Tallied(s, inputs, choice);
      assert VotersFor(s.audienceVotes, choice) == {} && VotersFor(s.predictions, choice) == {};
    }
    var t := RunFrom(s, inputs);
    forall id, choice ensures id in t.predictions && t.predictions[id] == choice <==> id in PredictorsIn(inputs, choice) {
      assert id in VotersFor(t.predictions, choice) <==> id in t.predictions && t.predictions[id] == choice;
    }
  }

  // ---- Who may still submit -----------------------------------------------------------------------

  lemma {:induction false} VotingOpen(s: State, inputs: seq<Input>)
    requires Valid(s) && IsRun(s, inputs)
    ensures var t := RunFrom(s, inputs);
            && t.selectedPlayerIds == s.selectedPlayerIds && t.audiencePlayerIds == s.audiencePlayerIds
            && (t.step == AudienceVote <==>
                  s.step == AudienceVote && Timeout !in inputs && !AllIn(s.audiencePlayerIds, t.audienceVotes))
            && (t.step == Prediction ==> !AllIn(s.selectedPlayerIds, t.predictions))
    decreases |inputs|
  {
    hide AllIn;
    if inputs != [] {
      var t := Apply(s, inputs[0]);
      ApplyKeepsValid(s, inputs[0]);
      assert inputs == [inputs[0]] + inputs[1..];
      VotingOpen(t, inputs[1..]);
      VotesStay(t, inputs[1..]);
      hide Valid;
      if inputs[0].Act? && t.step != s.step && s.step == AudienceVote {
        AllStayIn(s.audiencePlayerIds, t.audienceVotes, RunFrom(s, inputs).audienceVotes);
      }
    }
  }

  lemma AllStayIn(ids: seq<PlayerId>, before: map<PlayerId, Choice>, after: map<PlayerId, Choice>)
    requires before.Keys <= after.Keys && AllIn(ids, before)
    ensures AllIn(ids, after)
  {
  }

  lemma {:induction false} VotesStay(s: State, inputs: seq<Input>)
    requires Valid(s) && IsRun(s, inputs)
    ensures s.audienceVotes.Keys <= RunFrom(s, inputs).audienceVotes.Keys
    decreases |inputs|
  {
    hide Valid, AllIn, Apply, Enabled;
    if inputs != [] {
      ApplyKeepsValid(s, inputs[0]);
      VotesStay(Apply(s, inputs[0]), inputs[1..]);
    }
  }

  /**
    At any moment of a started game: everybody who was not selected may vote once, until all have or a timer ended the
    voting; while predictions are open every selected player may make one.
   */
  lemma MaySubmit(participantIds: seq<PlayerId>, config: Config, inputs: seq<Input>, id: PlayerId, choice: Choice)
    requires Start(participantIds, config).Some? && Valid(Start(participantIds, config).value)
    requires IsRun(Start(participantIds, config).value, inputs)
    ensures var t := RunFrom(Start(participantIds, config).value, inputs);
            && (ValidateAction(t, id, SubmitAudienceVote(choice)) <==>
                  && id in participantIds && id !in config.selectedPlayerIds && Timeout !in inputs
                  && id !in VotersIn(inputs, A) && id !in VotersIn(inputs, B))
            && (ValidateAction(t, id, SubmitPrediction(choice)) <==>
                  && t.step == Prediction && id in config.selectedPlayerIds
                  && id !in PredictorsIn(inputs, A) && id !in PredictorsIn(inputs, B))
  {
    var s := Start(participantIds, config).value;
    var t := RunFrom(s, inputs);
    assert id in s.audiencePlayerIds <==> id in participantIds && id !in config.selectedPlayerIds;
    hide Valid, IsRun, RunFrom, VotersIn, PredictorsIn;
    VotingOpen(s, inputs);
    forall choice
      ensures id in VotersIn(inputs, choice) <==> id in t.audienceVotes && t.audienceVotes[id] == choice
      ensures id in PredictorsIn(inputs, choice) <==> id in t.predictions && t.predictions[id] == choice
    {
      Tallied(s, inputs, choice);
      assert VotersFor(s.audienceVotes, choice) == {} && VotersFor(s.predictions, choice) == {};
      assert id in VotersFor(t.predictions, choice) <==> id in t.predictions && t.predictions[id] == choice;
      assert id in VotersFor(t.audienceVotes, choice) <==> id in t.audienceVotes && t.audienceVotes[id] == choice;
    }
    assert id in t.audienceVotes <==> id in VotersIn(inputs, A) || id in VotersIn(inputs, B);
  }
}
