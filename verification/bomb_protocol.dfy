/** BOMB_PROTOCOL: one Operator defuses three modules in turn while Analysts hold the clues. */
module BombProtocol {
  import opened Collections
  import opened SpeakingOrder

  datatype Module = Symbols | Wires | CodeSequence
  datatype Status = Active | Success | Failure
  datatype Symbol = Triangle | Circle | Square | Star
  datatype Color = Red | Blue | Yellow
  datatype Wire = Wire(wireId: nat, color: Color, position: nat)

  /** One line of an Analyst's private instructions; positions count from 1. */
  datatype Clue =
    | SymbolAt(position: nat, symbol: Symbol)
    | TargetColor(color: Color)
    | CutAt(position: nat)
    | DigitAt(position: nat, digit: int)

  datatype Instructions = Instructions(symbols: seq<Clue>, wires: seq<Clue>, code: seq<Clue>)

  datatype Config = Config(
    operatorId: PlayerId, analystIds: seq<PlayerId>,
    visible: seq<Symbol>, solution: seq<Symbol>,
    board: seq<Wire>, correctWireId: nat,
    allowedValues: seq<int>, code: seq<int>,
    instructions: map<PlayerId, Instructions>)

  datatype State = State(
    participantIds: seq<PlayerId>, config: Config, currentModule: Module, status: Status, strikes: nat, progress: nat)

  const MAX_STRIKES := 3
  const DURATION_MS := 90_000

  // ---- Start ------------------------------------------------------------------------------------

  predicate ShapeFits(config: Config) {
    && 2 <= |config.analystIds| <= 4
    && |config.visible| == 4 && |config.solution| == 4
    && 2 <= |config.board| <= 6 && (forall i :: 0 <= i < |config.board| ==> config.board[i].position > 0)
    && 2 <= |config.allowedValues| <= 10 && |config.code| == 4
    && forall id :: id in config.instructions ==>
         && |config.instructions[id].symbols| <= 4
         && |config.instructions[id].wires| <= 2
         && |config.instructions[id].code| <= 4
  }

  predicate RolesFit(participantIds: seq<PlayerId>, config: Config) {
    && config.operatorId in participantIds
    && |config.analystIds| == |participantIds| - 1
    && Distinct([config.operatorId] + config.analystIds)
    && forall id :: id in config.analystIds ==> id in participantIds
  }

  predicate InstructionsFit(config: Config) {
    && |config.instructions| == |config.analystIds|
    && forall id :: id in config.analystIds ==> id in config.instructions
  }

  predicate Solvable(config: Config) {
    && (exists i :: 0 <= i < |config.board| && config.board[i].wireId == config.correctWireId)
    && (forall i :: 0 <= i < |config.code| ==> config.code[i] in config.allowedValues)
    && Distinct(config.visible) && |config.visible| == 4
    && (forall i :: 0 <= i < |config.solution| ==> config.solution[i] in config.visible)
  }

  /** `None` when the source throws: the participants or the puzzle do not fit together. */
  function Start(participantIds: seq<PlayerId>, config: Config): Option<State> {
    if |participantIds| < 3 || |participantIds| > 5 || !Distinct(participantIds) then None
    else if !ShapeFits(config) || !RolesFit(participantIds, config) || !InstructionsFit(config) || !Solvable(config) then None
    else Some(State(participantIds, config, Symbols, Active, 0, 0))
  }

  // ---- Actions ----------------------------------------------------------------------------------

  datatype Action = PressSymbol(symbol: Symbol) | CutWire(wireId: nat) | SubmitCode(digits: seq<int>) | Other

  predicate ValidateAction(s: State, playerId: PlayerId, action: Action) {
    && s.status == Active
    && playerId == s.config.operatorId
    && match action
       case PressSymbol(symbol) => s.currentModule == Symbols && symbol in s.config.visible
       case CutWire(wireId) =>
         s.currentModule == Wires && exists i :: 0 <= i < |s.config.board| && s.config.board[i].wireId == wireId
       case SubmitCode(digits) =>
         && s.currentModule == CodeSequence && |digits| == 4
         && forall i :: 0 <= i < |digits| ==> digits[i] in s.config.allowedValues
       case Other => false
  }

  function AddStrike(s: State): State {
    var strikes := Min(MAX_STRIKES, s.strikes + 1);
    s.(strikes := strikes, status := if strikes >= MAX_STRIKES then Failure else Active)
  }

  function HandleAction(s: State, action: Action): State {
    match action
    case PressSymbol(symbol) =>
      if s.progress >= |s.config.solution| || symbol != s.config.solution[s.progress] then AddStrike(s)
      else if s.progress + 1 == |s.config.solution| then s.(currentModule := Wires, progress := s.progress + 1)
      else s.(progress := s.progress + 1)
    case CutWire(wireId) =>
      if wireId == s.config.correctWireId then s.(currentModule := CodeSequence) else AddStrike(s)
    case SubmitCode(digits) =>
      if digits == s.config.code then s.(status := Success) else AddStrike(s)
    case Other => s
  }

  // ---- The run ledger -----------------------------------------------------------------------------

  const UNITS := 6

  /** The four symbols, the wire and the code, as far as they are solved. */
  function Solved(s: State): nat {
    s.progress + (if s.currentModule == CodeSequence then 1 else 0) + (if s.status == Success then 1 else 0)
  }

  ghost predicate Valid(s: State) {
    && |s.config.solution| == 4 && |s.config.code| == 4 && Solvable(s.config)
    && s.progress <= 4
    && (s.currentModule == Symbols <==> s.progress < 4)
    && s.strikes <= MAX_STRIKES
    && (s.status == Failure <==> s.strikes == MAX_STRIKES)
    && (s.status == Success ==> s.currentModule == CodeSequence)
  }

  /** Every validated action either solves the next unit or costs a strike, never both, never neither. */
  lemma ActionLedger(s: State, playerId: PlayerId, action: Action)
    requires Valid(s) && ValidateAction(s, playerId, action)
    ensures var t := HandleAction(s, action);
            && Valid(t) && t.config == s.config && t.participantIds == s.participantIds
            && Solved(t) + t.strikes == Solved(s) + s.strikes + 1
            && Solved(t) >= Solved(s) && t.strikes >= s.strikes
            && (t.status == Success <==> Solved(t) == UNITS)
            && (t.status == Failure <==> t.strikes == MAX_STRIKES)
  {
  }

  /** The action that the puzzle's solution has next: position by position, the one wire, digit by digit. */
  predicate IsNextRight(s: State, action: Action) {
    match action
    case PressSymbol(symbol) => s.currentModule == Symbols && s.progress < |s.config.solution| && symbol == s.config.solution[s.progress]
    case CutWire(wireId) => s.currentModule == Wires && wireId == s.config.correctWireId
    case SubmitCode(digits) =>
      && s.currentModule == CodeSequence && |digits| == |s.config.code|
      && forall i :: 0 <= i < |digits| ==> digits[i] == s.config.code[i]
    case Other => false
  }

  /**
    How an action is judged: the Operator's next right one solves its unit and opens the next module with the last of
    a module's units; any other costs exactly one strike, the third of them the game, and changes nothing else.
   */
  lemma ActionJudged(s: State, playerId: PlayerId, action: Action)
    requires Valid(s) && ValidateAction(s, playerId, action)
    ensures playerId == s.config.operatorId && s.status == Active
    ensures var t := HandleAction(s, action);
            if !IsNextRight(s, action) then
              t == s.(strikes := s.strikes + 1, status := if s.strikes == 2 then Failure else Active)
            else match s.currentModule
              case Symbols => t == s.(progress := s.progress + 1, currentModule := if s.progress == 3 then Wires else Symbols)
              case Wires => t == s.(currentModule := CodeSequence)
              case CodeSequence => t == s.(status := Success)
    ensures Solved(HandleAction(s, action)) == Solved(s) + 1 <==> IsNextRight(s, action)
    ensures HandleAction(s, action).strikes == s.strikes + 1 <==> !IsNextRight(s, action)
  {
    if action.SubmitCode? {
      assert action.digits == s.config.code <==> IsNextRight(s, action);
    }
  }

  ghost predicate IsRun(s: State, actions: seq<Action>)
    decreases |actions|
  {
    actions == [] || (ValidateAction(s, s.config.operatorId, actions[0]) && IsRun(HandleAction(s, actions[0]), actions[1..]))
  }

  function RunFrom(s: State, actions: seq<Action>): State
    decreases |actions|
  {
    if actions == [] then s else RunFrom(HandleAction(s, actions[0]), actions[1..])
  }

  lemma {:induction false} RunLedgerFrom(s: State, actions: seq<Action>)
    requires Valid(s) && IsRun(s, actions) && s.status == Active
    ensures var t := RunFrom(s, actions);
            && Valid(t) && t.config == s.config
            && Solved(t) + t.strikes == Solved(s) + s.strikes + |actions|
            && (t.status == Success <==> Solved(t) == UNITS)
    decreases |actions|
  {
    hide Solvable;
    if actions != [] {
      ActionLedger(s, s.config.operatorId, actions[0]);
      var t := HandleAction(s, actions[0]);
      if t.status == Active {
        RunLedgerFrom(t, actions[1..]);
      } else {
        assert actions[1..] == [];
      }
    }
  }

  /**
    Over every run of a started puzzle: actions taken are units solved plus strikes, success is
    exactly six units solved, failure exactly three strikes, and the run is over within 8 actions.
   */
  lemma RunLedger(participantIds: seq<PlayerId>, config: Config, actions: seq<Action>)
    requires Start(participantIds, config).Some? && IsRun(Start(participantIds, config).value, actions)
    ensures var t := RunFrom(Start(participantIds, config).value, actions);
            && |actions| == Solved(t) + t.strikes
            && (t.status == Success <==> Solved(t) == UNITS)
            && (t.status == Failure <==> t.strikes == MAX_STRIKES)
            && |actions| <= 8
            && (|actions| == 8 ==> t.status != Active)
  {
    RunLedgerFrom(Start(participantIds, config).value, actions);
  }

  /** The whole solution: the four symbols in order, the wire, the code. */
  function Script(config: Config): seq<Action> {
    seq(|config.solution|, i requires 0 <= i < |config.solution| => PressSymbol(config.solution[i]))
    + [CutWire(config.correctWireId), SubmitCode(config.code)]
  }

  /** The actions of a run that were right when they were made. */
  function RightOnes(s: State, actions: seq<Action>): seq<Action>
    decreases |actions|
  {
    if actions == [] then []
    else (if IsNextRight(s, actions[0]) then [actions[0]] else []) + RightOnes(HandleAction(s, actions[0]), actions[1..])
  }

  lemma NextOfScript(s: State, action: Action)
    requires Valid(s) && IsNextRight(s, action) && s.status == Active
    ensures Solved(s) < UNITS == |Script(s.config)| && Script(s.config)[Solved(s)] == action
  {
    if action.SubmitCode? {
      assert action.digits == s.config.code;
    }
  }

  lemma {:induction false} ScriptFollowed(s: State, actions: seq<Action>)
    requires Valid(s) && IsRun(s, actions) && s.status == Active
    ensures var t := RunFrom(s, actions);
            && Solved(s) <= Solved(t) <= UNITS == |Script(s.config)|
            && RightOnes(s, actions) == Script(s.config)[Solved(s)..Solved(t)]
            && t.strikes == s.strikes + |actions| - |RightOnes(s, actions)|
    decreases |actions|
  {
    hide Valid, HandleAction, IsNextRight, Script, Solved, ValidateAction;
    WithinScript(s);
    if actions != [] {
      ActionLedger(s, s.config.operatorId, actions[0]);
      ActionJudged(s, s.config.operatorId, actions[0]);
      var t := HandleAction(s, actions[0]);
      WithinScript(t);
      if IsNextRight(s, actions[0]) {
        NextOfScript(s, actions[0]);
      }
      if t.status == Active {
        ScriptFollowed(t, actions[1..]);
      } else {
        NothingAfter(t, actions[1..]);
      }
      if IsNextRight(s, actions[0]) {
        SliceFirst(Script(s.config), Solved(s), Solved(RunFrom(s, actions)));
      }
    }
  }

  lemma NothingAfter(s: State, actions: seq<Action>)
    requires s.status != Active && IsRun(s, actions)
    ensures actions == []
  {
  }

  lemma WithinScript(s: State)
    requires Valid(s)
    ensures Solved(s) <= UNITS == |Script(s.config)|
  {
    ScriptLength(s.config);
    hide Script, Solvable;
  }

  lemma SliceFirst<T>(s: seq<T>, i: nat, j: nat)
    requires i < j <= |s|
    ensures s[i..j] == [s[i]] + s[i + 1..j]
  {
  }

  lemma ScriptLength(config: Config)
    ensures |Script(config)| == |config.solution| + 2
  {
  }

  /**
    A bomb is defused by its solution only: at the end of any run of a started puzzle that ends in success the right
    actions, taken together, are the solution's symbols in order, the correct wire and the code, and every other
    action cost a strike.
   */
  lemma DefusedBySolution(participantIds: seq<PlayerId>, config: Config, actions: seq<Action>)
    requires Start(participantIds, config).Some? && IsRun(Start(participantIds, config).value, actions)
    ensures var s := Start(participantIds, config).value;
            var t := RunFrom(s, actions);
            && (t.status == Success <==> RightOnes(s, actions) == Script(config))
            && t.strikes == |actions| - |RightOnes(s, actions)|
            && (t.status == Failure <==> |actions| - |RightOnes(s, actions)| == 3)
  {
    var s := Start(participantIds, config).value;
    ScriptFollowed(s, actions);
    RunLedger(participantIds, config, actions);
    ScriptLength(config);
    hide Script, RightOnes, RunFrom, IsRun;
    assert Script(config)[0..UNITS] == Script(config);
    assert Solved(s) == 0;
  }

  /** The action that solves the next unit. */
  function NextRight(s: State): Action
    requires s.currentModule == Symbols ==> s.progress < |s.config.solution|
  {
    match s.currentModule
    case Symbols => PressSymbol(s.config.solution[s.progress])
    case Wires => CutWire(s.config.correctWireId)
    case CodeSequence => SubmitCode(s.config.code)
  }

  /** A puzzle still running can always be won, in exactly as many actions as units are unsolved. */
  lemma {:induction false} AlwaysWinnable(s: State) returns (actions: seq<Action>)
    requires Valid(s) && s.status == Active
    ensures IsRun(s, actions) && |actions| == UNITS - Solved(s)
    ensures RunFrom(s, actions).status == Success
    decreases UNITS - Solved(s)
  {
    var next := NextRight(s);
    ActionLedger(s, s.config.operatorId, next);
    var t := HandleAction(s, next);
    if t.status == Success {
      actions := [next];
    } else {
      var rest := AlwaysWinnable(t);
      actions := [next] + rest;
    }
  }
}
