/** Generation of a Bomb Protocol puzzle: a drawn solution, and clues dealt out to the Analysts in turn. */
module BombContent {
  import opened Collections
  import opened SpeakingOrder
  import opened Random
  import opened BombProtocol

  /** The random numbers of one generation, one stream for each use the source makes of them. */
  datatype BombRng = BombRng(
    operator: Stream, solution: Stream, board: Stream, wire: Stream, digits: nat -> Stream, visible: Stream)

  const SYMBOL_IDS: seq<Symbol> := [Triangle, Circle, Square, Star]
  const WIRE_TEMPLATE: seq<Wire> := [Wire(1, Red, 0), Wire(2, Blue, 0), Wire(3, Yellow, 0), Wire(4, Blue, 0)]
  const ALLOWED_VALUES: seq<int> := [0, 1, 2, 3, 4, 5]

  // ---- Dealing clues ------------------------------------------------------------------------------

  /** The clues that land on the analyst at index `k` of `n`, in order. */
  function Pile(clues: seq<Clue>, n: nat, k: nat): (pile: seq<Clue>)
    requires k < n
    ensures |pile| <= |clues|
  {
    if clues == [] then []
    else
      var last := |clues| - 1;
      Pile(clues[..last], n, k) + if last % n == k then [clues[last]] else []
  }

  function IndexOf(ids: seq<PlayerId>, id: PlayerId): (k: nat)
    requires id in ids
    ensures k < |ids| && ids[k] == id
  {
    if ids[0] == id then 0 else 1 + IndexOf(ids[1..], id)
  }

  lemma {:induction false} IndexOfDistinct(ids: seq<PlayerId>, k: nat)
    requires Distinct(ids) && k < |ids|
    ensures IndexOf(ids, ids[k]) == k
  {
    if k > 0 {
      assert ids[1..][k - 1] == ids[k] && ids[0] != ids[k];
      IndexOfDistinct(ids[1..], k - 1);
    }
  }

  function Part(instructions: Instructions, part: Module): seq<Clue> {
    match part
    case Symbols => instructions.symbols
    case Wires => instructions.wires
    case CodeSequence => instructions.code
  }

  function Push(instructions: Instructions, part: Module, clue: Clue): Instructions {
    match part
    case Symbols => instructions.(symbols := instructions.symbols + [clue])
    case Wires => instructions.(wires := instructions.wires + [clue])
    case CodeSequence => instructions.(code := instructions.code + [clue])
  }

  function PushAll(instructions: Instructions, part: Module, pile: seq<Clue>): Instructions {
    match part
    case Symbols => instructions.(symbols := instructions.symbols + pile)
    case Wires => instructions.(wires := instructions.wires + pile)
    case CodeSequence => instructions.(code := instructions.code + pile)
  }

  /** `dealt` is `instructions` after the clues went round the analysts; nobody else's instructions changed. */
  ghost predicate DealtRound(analystIds: seq<PlayerId>, part: Module, clues: seq<Clue>,
                             instructions: map<PlayerId, Instructions>, dealt: map<PlayerId, Instructions>)
    requires forall id :: id in analystIds ==> id in instructions
  {
    && dealt.Keys == instructions.Keys
    && (forall k {:trigger analystIds[k]} :: 0 <= k < |analystIds| ==>
          dealt[analystIds[k]] == PushAll(instructions[analystIds[k]], part, Pile(clues, |analystIds|, k)))
    && (forall id :: id in dealt && id !in analystIds ==> dealt[id] == instructions[id])
  }

  lemma DealNext(analystIds: seq<PlayerId>, part: Module, clues: seq<Clue>, clue: Clue,
                 instructions: map<PlayerId, Instructions>, dealt: map<PlayerId, Instructions>)
    requires analystIds != [] && Distinct(analystIds)
    requires forall id :: id in analystIds ==> id in instructions
    requires DealtRound(analystIds, part, clues, instructions, dealt)
    ensures var analyst := analystIds[|clues| % |analystIds|];
            analyst in dealt
            && DealtRound(analystIds, part, clues + [clue], instructions, dealt[analyst := Push(dealt[analyst], part, clue)])
  {
    var analyst := analystIds[|clues| % |analystIds|];
    assert (clues + [clue])[..|clues|] == clues;
    assert analyst in instructions;
    var next := dealt[analyst := Push(dealt[analyst], part, clue)];
    forall k | 0 <= k < |analystIds|
      ensures next[analystIds[k]] == PushAll(instructions[analystIds[k]], part, Pile(clues + [clue], |analystIds|, k))
    {
      PushOnto(instructions[analystIds[k]], part, Pile(clues, |analystIds|, k), clue);
      assert k != |clues| % |analystIds| ==> analystIds[k] != analyst;
    }
  }

  lemma PushOnto(instructions: Instructions, part: Module, pile: seq<Clue>, clue: Clue)
    ensures PushAll(instructions, part, pile + [clue]) == Push(PushAll(instructions, part, pile), part, clue)
    ensures PushAll(instructions, part, pile + []) == PushAll(instructions, part, pile)
  {
    assert instructions.symbols + (pile + [clue]) == (instructions.symbols + pile) + [clue];
    assert instructions.wires + (pile + [clue]) == (instructions.wires + pile) + [clue];
    assert instructions.code + (pile + [clue]) == (instructions.code + pile) + [clue];
    assert pile + [] == pile;
  }

  /** Pushes the clues one by one onto the analysts' instructions, going round the analysts. */
  method Distribute(analystIds: seq<PlayerId>, part: Module, clues: seq<Clue>,
                    instructions: map<PlayerId, Instructions>)
    returns (dealt: map<PlayerId, Instructions>)
    requires analystIds != [] && Distinct(analystIds)
    requires forall id :: id in analystIds ==> id in instructions
    ensures dealt.Keys == instructions.Keys
    ensures DealtRound(analystIds, part, clues, instructions, dealt)
  {
    hide PushAll, Push;
    dealt := instructions;
    forall k | 0 <= k < |analystIds|
      ensures dealt[analystIds[k]] == PushAll(instructions[analystIds[k]], part, Pile(clues[..0], |analystIds|, k))
    {
      NothingPushed(instructions[analystIds[k]], part);
    }
    for index := 0 to |clues|
      invariant DealtRound(analystIds, part, clues[..index], instructions, dealt)
    {
      DealNext(analystIds, part, clues[..index], clues[index], instructions, dealt);
      assert clues[..index + 1] == clues[..index] + [clues[index]];
      var analyst := analystIds[index % |analystIds|];
      dealt := dealt[analyst := Push(dealt[analyst], part, clues[index])];
    }
    assert clues[..|clues|] == clues;
  }

  lemma NothingPushed(instructions: Instructions, part: Module)
    ensures PushAll(instructions, part, []) == instructions
  {
    assert instructions.symbols + [] == instructions.symbols;
    assert instructions.wires + [] == instructions.wires;
    assert instructions.code + [] == instructions.code;
  }

  /** Clue `i` lies on the pile of the analyst `i` falls to, and distinct clues lie on no other. */
  lemma {:induction false} PileMembers(clues: seq<Clue>, n: nat, k: nat)
    requires k < n
    ensures forall clue :: clue in Pile(clues, n, k) <==> exists i :: 0 <= i < |clues| && clues[i] == clue && i % n == k
  {
    if clues != [] {
      var last := |clues| - 1;
      PileMembers(clues[..last], n, k);
      forall clue
        ensures clue in Pile(clues, n, k) <==> exists i :: 0 <= i < |clues| && clues[i] == clue && i % n == k
      {
        if i :| 0 <= i < |clues| && clues[i] == clue && i % n == k {
          if i < last {
            assert clues[..last][i] == clue;
          }
        }
        if clue in Pile(clues[..last], n, k) {
          var i :| 0 <= i < last && clues[..last][i] == clue && i % n == k;
          assert clues[i] == clue;
        }
      }
    }
  }

  lemma ExactlyOneAnalyst(clues: seq<Clue>, n: nat, i: nat, k: nat)
    requires Distinct(clues) && i < |clues| && k < n
    ensures clues[i] in Pile(clues, n, k) <==> k == i % n
  {
    PileMembers(clues, n, k);
  }

  function Share(total: nat, n: nat): nat
    requires n > 0
  {
    total / n
  }

  function Surplus(total: nat, n: nat): nat
    requires n > 0
  {
    total % n
  }

  /** What one more clue does to the pile it falls to and to no other. */
  lemma PileGrows(clues: seq<Clue>, n: nat, k: nat)
    requires k < n && clues != []
    ensures var last := |clues| - 1;
            |Pile(clues, n, k)| == |Pile(clues[..last], n, k)| + if k == Surplus(last, n) then 1 else 0
  {
  }

  lemma NextShare(last: nat, n: nat)
    requires n > 0
    ensures Surplus(last, n) < n
    ensures Share(last + 1, n) == Share(last, n) + if Surplus(last, n) == n - 1 then 1 else 0
    ensures Surplus(last + 1, n) == if Surplus(last, n) == n - 1 then 0 else Surplus(last, n) + 1
  {
    DivisionStep(last, n);
  }

  lemma {:induction false} PileCounts(clues: seq<Clue>, n: nat, k: nat)
    requires k < n
    ensures |Pile(clues, n, k)| == Share(|clues|, n) + if k < Surplus(|clues|, n) then 1 else 0
  {
    if clues == [] {
      NothingToShare(n);
    } else {
      hide Pile, Share, Surplus;
      var last := |clues| - 1;
      PileCounts(clues[..last], n, k);
      PileGrows(clues, n, k);
      NextShare(last, n);
    }
  }

  lemma NothingToShare(n: nat)
    requires n > 0
    ensures Share(0, n) == 0 && Surplus(0, n) == 0
  {
  }

  /** Loads differ by at most one, the surplus going to the first analysts. */
  lemma PileSizes(clues: seq<Clue>, n: nat, k: nat)
    requires k < n
    ensures |Pile(clues, n, k)| == |clues| / n + if k < |clues| % n then 1 else 0
  {
    hide Pile;
    PileCounts(clues, n, k);
  }

  lemma DivisionStep(last: nat, n: nat)
    requires n > 0
    ensures (last + 1) / n == last / n + if last % n == n - 1 then 1 else 0
    ensures (last + 1) % n == if last % n == n - 1 then 0 else last % n + 1
  {
    var q, r := last / n, last % n;
    assert last == q * n + r;
    if r == n - 1 {
      assert last + 1 == (q + 1) * n;
      DivModUnique(last + 1, n, q + 1, 0);
    } else {
      DivModUnique(last + 1, n, q, r + 1);
    }
  }

  lemma MultipleAtLeast(a: int, n: nat)
    requires a >= 1
    ensures a * n >= n
  {
  }

  lemma DivModUnique(x: nat, n: nat, q: nat, r: nat)
    requires 0 <= r < n && x == q * n + r
    ensures x / n == q && x % n == r
  {
    var q', r' := x / n, x % n;
    assert x == n * q' + r' && 0 <= r' < n;
    var gap := q - q';
    assert gap * n == q * n - q' * n;
    if gap >= 1 {
      MultipleAtLeast(gap, n);
    } else if gap <= -1 {
      MultipleAtLeast(-gap, n);
    }
  }

  // ---- The puzzle ---------------------------------------------------------------------------------

  function SymbolClues(solution: seq<Symbol>): (clues: seq<Clue>)
    ensures |clues| == |solution| && forall i :: 0 <= i < |clues| ==> clues[i] == SymbolAt(i + 1, solution[i])
  {
    seq(|solution|, i requires 0 <= i < |solution| => SymbolAt(i + 1, solution[i]))
  }

  function WireClues(wire: Wire): seq<Clue> {
    [TargetColor(wire.color), CutAt(wire.position)]
  }

  function CodeClues(code: seq<int>): (clues: seq<Clue>)
    ensures |clues| == |code| && forall i :: 0 <= i < |clues| ==> clues[i] == DigitAt(i + 1, code[i])
  {
    seq(|code|, i requires 0 <= i < |code| => DigitAt(i + 1, code[i]))
  }

  function Positioned(wires: seq<Wire>): (board: seq<Wire>)
    ensures |board| == |wires|
    ensures forall i :: 0 <= i < |board| ==> board[i] == wires[i].(position := i + 1)
  {
    seq(|wires|, i requires 0 <= i < |wires| => wires[i].(position := i + 1))
  }

  function Analysts(participantIds: seq<PlayerId>, operatorId: PlayerId): seq<PlayerId> {
    Filter(participantIds, (id: PlayerId) => id != operatorId)
  }

  function Board(rng: Stream): (board: seq<Wire>)
    ensures |board| == 4
    ensures forall i :: 0 <= i < 4 ==> board[i].position == i + 1
  {
    Positioned(Shuffle(WIRE_TEMPLATE, rng))
  }

  function BlueWires(board: seq<Wire>): seq<Wire> {
    Filter(board, (wire: Wire) => wire.color == Blue)
  }

  /** Blue wires are on the template, so every arrangement of it has one to choose. */
  lemma BlueWireExists(rng: Stream)
    ensures BlueWires(Board(rng)) != []
  {
    var wires := Shuffle(WIRE_TEMPLATE, rng);
    hide Permutation, Shuffle;
    assert WIRE_TEMPLATE[1] in wires;
    var i :| 0 <= i < |wires| && wires[i] == WIRE_TEMPLATE[1];
    assert Board(rng)[i] in BlueWires(Board(rng));
  }

  function CorrectWire(rng: BombRng): (wire: Wire)
    ensures wire in Board(rng.board) && wire.color == Blue
  {
    BlueWireExists(rng.board);
    RandomChoice(BlueWires(Board(rng.board)), rng.wire)
  }

  function CodeSolution(rng: nat -> Stream): (code: seq<int>)
    ensures |code| == 4 && forall i :: 0 <= i < 4 ==> code[i] in ALLOWED_VALUES
  {
    [RandomChoice(ALLOWED_VALUES, rng(0)), RandomChoice(ALLOWED_VALUES, rng(1)),
     RandomChoice(ALLOWED_VALUES, rng(2)), RandomChoice(ALLOWED_VALUES, rng(3))]
  }

  function Dealt(analystIds: seq<PlayerId>, solution: seq<Symbol>, wire: Wire, code: seq<int>): map<PlayerId,
                 Instructions> {
    map id | id in analystIds ::
      Instructions(Pile(SymbolClues(solution), |analystIds|, IndexOf(analystIds, id)),
                   Pile(WireClues(wire), |analystIds|, IndexOf(analystIds, id)),
                   Pile(CodeClues(code), |analystIds|, IndexOf(analystIds, id)))
  }

  /** `None` when the source throws, on fewer than three or more than five participants. */
  function CreateConfig(participantIds: seq<PlayerId>, rng: BombRng): Option<Config> {
    if |participantIds| < 3 || |participantIds| > 5 then None
    else
      var operatorId := RandomChoice(participantIds, rng.operator);
      var analystIds := Analysts(participantIds, operatorId);
      var solution := Shuffle(SYMBOL_IDS, rng.solution);
      var wire := CorrectWire(rng);
      var code := CodeSolution(rng.digits);
      Some(Config(operatorId, analystIds, Shuffle(SYMBOL_IDS, rng.visible), solution,
                  Board(rng.board), wire.wireId, ALLOWED_VALUES, code, Dealt(analystIds, solution, wire, code)))
  }

  /** Pushes each module's clues onto instructions that start out empty. */
  method DealInstructions(analystIds: seq<PlayerId>, solution: seq<Symbol>, wire: Wire, code: seq<int>)
    returns (instructions: map<PlayerId, Instructions>)
    requires analystIds != [] && Distinct(analystIds)
    ensures instructions == Dealt(analystIds, solution, wire, code)
  {
    hide DealtRound, Pile, Dealt, Distinct;
    var empty := map id | id in analystIds :: Instructions([], [], []);
    var withSymbols := Distribute(analystIds, Symbols, SymbolClues(solution), empty);
    var withWires := Distribute(analystIds, Wires, WireClues(wire), withSymbols);
    instructions := Distribute(analystIds, CodeSequence, CodeClues(code), withWires);
    DealtInThreeRounds(analystIds, solution, wire, code, empty, withSymbols, withWires, instructions);
  }

  /** Builds the puzzle in the order the source draws its parts. */
  method GenerateConfig(participantIds: seq<PlayerId>, rng: BombRng) returns (config: Option<Config>)
    requires Distinct(participantIds)
    ensures config == CreateConfig(participantIds, rng)
  {
    hide Shuffle, Permutation, Dealt, Board, CodeSolution, Analysts, CorrectWire, RandomChoice;
    if |participantIds| < 3 || |participantIds| > 5 {
      return None;
    }
    var operatorId := RandomChoice(participantIds, rng.operator);
    var analystIds := Analysts(participantIds, operatorId);
    WithoutOne(participantIds, operatorId);
    TailDistinct(operatorId, analystIds);
    hide Distinct;
    var solution := Shuffle(SYMBOL_IDS, rng.solution);
    var wire := CorrectWire(rng);
    var code := CodeSolution(rng.digits);
    var instructions := DealInstructions(analystIds, solution, wire, code);
    config := Some(Config(operatorId, analystIds, Shuffle(SYMBOL_IDS, rng.visible), solution,
                          Board(rng.board), wire.wireId, ALLOWED_VALUES, code, instructions));
  }

  lemma TailDistinct(first: PlayerId, rest: seq<PlayerId>)
    requires Distinct([first] + rest)
    ensures Distinct(rest)
  {
    var all := [first] + rest;
    forall i, j | 0 <= i < j < |rest| ensures rest[i] != rest[j] {
      assert all[i + 1] == rest[i] && all[j + 1] == rest[j];
    }
  }

  lemma DealtInThreeRounds(
    analystIds: seq<PlayerId>, solution: seq<Symbol>, wire: Wire, code: seq<int>, empty: map<PlayerId, Instructions>,
    withSymbols: map<PlayerId, Instructions>, withWires: map<PlayerId, Instructions>, dealt: map<PlayerId, Instructions>)
    requires Distinct(analystIds)
    requires empty == map id | id in analystIds :: Instructions([], [], [])
    requires withSymbols.Keys == empty.Keys && withWires.Keys == empty.Keys && dealt.Keys == empty.Keys
    requires DealtRound(analystIds, Symbols, SymbolClues(solution), empty, withSymbols)
    requires DealtRound(analystIds, Wires, WireClues(wire), withSymbols, withWires)
    requires DealtRound(analystIds, CodeSequence, CodeClues(code), withWires, dealt)
    ensures dealt == Dealt(analystIds, solution, wire, code)
  {
    hide DealtRound, Pile, Distinct, SymbolClues, WireClues, CodeClues, IndexOf, PushAll;
    forall id | id in analystIds
      ensures dealt[id] == Instructions(Pile(SymbolClues(solution), |analystIds|, IndexOf(analystIds, id)),
                                        Pile(WireClues(wire), |analystIds|, IndexOf(analystIds, id)),
                                        Pile(CodeClues(code), |analystIds|, IndexOf(analystIds, id)))
    {
      RoundAt(analystIds, Symbols, SymbolClues(solution), empty, withSymbols, id);
      RoundAt(analystIds, Wires, WireClues(wire), withSymbols, withWires, id);
      RoundAt(analystIds, CodeSequence, CodeClues(code), withWires, dealt, id);
      PushedInTurn(Pile(SymbolClues(solution), |analystIds|, IndexOf(analystIds, id)),
                   Pile(WireClues(wire), |analystIds|, IndexOf(analystIds, id)),
                   Pile(CodeClues(code), |analystIds|, IndexOf(analystIds, id)));
    }
  }

  lemma PushedInTurn(symbols: seq<Clue>, wires: seq<Clue>, code: seq<Clue>)
    ensures PushAll(PushAll(PushAll(Instructions([], [], []), Symbols, symbols), Wires, wires), CodeSequence, code)
         == Instructions(symbols, wires, code)
  {
    assert [] + symbols == symbols && [] + wires == wires && [] + code == code;
  }

  lemma RoundAt(analystIds: seq<PlayerId>, part: Module, clues: seq<Clue>,
                before: map<PlayerId, Instructions>, after: map<PlayerId, Instructions>, id: PlayerId)
    requires forall id :: id in analystIds ==> id in before
    requires DealtRound(analystIds, part, clues, before, after) && id in analystIds
    ensures id in after
    ensures after[id] == PushAll(before[id], part, Pile(clues, |analystIds|, IndexOf(analystIds, id)))
  {
    assert analystIds[IndexOf(analystIds, id)] == id;
  }

  lemma {:induction false} WithoutOne(ids: seq<PlayerId>, id: PlayerId)
    requires Distinct(ids) && id in ids
    ensures |Analysts(ids, id)| == |ids| - 1
    ensures Distinct([id] + Analysts(ids, id))
  {
    var keep := (other: PlayerId) => other != id;
    FilterDistinct(ids, keep);
    if ids[0] == id {
      assert forall other :: other in ids[1..] ==> other != id;
      FilterAll(ids[1..], keep);
    } else {
      WithoutOne(ids[1..], id);
    }
  }

  /** What a generated puzzle is made of, whatever the random numbers. */
  ghost predicate Generated(participantIds: seq<PlayerId>, rng: BombRng, config: Config) {
    && config.operatorId in participantIds && config.analystIds == Analysts(participantIds, config.operatorId)
    && Permutation(config.visible, SYMBOL_IDS) && Permutation(config.solution, SYMBOL_IDS)
    && config.board == Board(rng.board) && config.correctWireId == CorrectWire(rng).wireId
    && config.allowedValues == ALLOWED_VALUES && config.code == CodeSolution(rng.digits)
    && config.instructions == Dealt(config.analystIds, config.solution, CorrectWire(rng), config.code)
  }

  lemma ConfigGenerated(participantIds: seq<PlayerId>, rng: BombRng)
    requires 3 <= |participantIds| <= 5
    ensures CreateConfig(participantIds, rng).Some?
    ensures Generated(participantIds, rng, CreateConfig(participantIds, rng).value)
  {
    hide Analysts, Permutation, Board, CorrectWire, CodeSolution, Dealt, Shuffle;
  }

  /** The generated puzzle passes every check made when the special game starts, for any random numbers. */
  lemma GeneratedConfigStarts(participantIds: seq<PlayerId>, rng: BombRng)
    requires Distinct(participantIds) && 3 <= |participantIds| <= 5
    ensures CreateConfig(participantIds, rng).Some?
    ensures Start(participantIds, CreateConfig(participantIds, rng).value).Some?
    ensures Valid(Start(participantIds, CreateConfig(participantIds, rng).value).value)
  {
    ConfigGenerated(participantIds, rng);
    hide *;
    var config := CreateConfig(participantIds, rng).value;
    RolesGenerated(participantIds, rng, config);
    GeneratedSolvable(participantIds, rng, config);
    GeneratedShape(participantIds, rng, config);
    FittingConfigStarts(participantIds, config);
  }

  lemma FittingConfigStarts(participantIds: seq<PlayerId>, config: Config)
    requires Distinct(participantIds) && 3 <= |participantIds| <= 5
    requires ShapeFits(config) && RolesFit(participantIds, config) && InstructionsFit(config) && Solvable(config)
    ensures Start(participantIds, config).Some?
    ensures Valid(Start(participantIds, config).value)
  {
    assert |config.solution| == 4 && |config.code| == 4;
    hide ShapeFits, RolesFit, InstructionsFit, Solvable;
  }

  lemma RolesGenerated(participantIds: seq<PlayerId>, rng: BombRng, config: Config)
    requires Distinct(participantIds) && 3 <= |participantIds| <= 5 && Generated(participantIds, rng, config)
    ensures RolesFit(participantIds, config)
  {
    hide Dealt, CorrectWire, CodeSolution, Board, Permutation;
    WithoutOne(participantIds, config.operatorId);
  }

  lemma GeneratedShape(participantIds: seq<PlayerId>, rng: BombRng, config: Config)
    requires Generated(participantIds, rng, config) && RolesFit(participantIds, config) && 3 <= |participantIds| <= 5
    ensures ShapeFits(config) && InstructionsFit(config)
    ensures |config.solution| == 4 && |config.code| == 4
  {
    hide Dealt, CorrectWire, Analysts, InstructionsFit, Distinct, Permutation, CodeSolution, Positioned, Shuffle;
    PermutationLength(config.visible, SYMBOL_IDS);
    PermutationLength(config.solution, SYMBOL_IDS);
    assert 2 <= |config.analystIds| <= 4;
    hide RolesFit;
    InstructionsCover(config, CorrectWire(rng));
  }

  lemma InstructionsCover(config: Config, wire: Wire)
    requires Distinct([config.operatorId] + config.analystIds)
    requires config.instructions == Dealt(config.analystIds, config.solution, wire, config.code)
    requires |config.solution| == 4 && |config.code| == 4
    ensures InstructionsFit(config)
    ensures forall id :: id in config.instructions ==>
              && |config.instructions[id].symbols| <= 4
              && |config.instructions[id].wires| <= 2
              && |config.instructions[id].code| <= 4
  {
    TailDistinct(config.operatorId, config.analystIds);
    DistinctCounts(config.analystIds);
    hide Distinct;
    assert config.instructions.Keys == Elements(config.analystIds);
    assert |config.instructions| == |config.instructions.Keys|;
  }

  lemma GeneratedSolvable(participantIds: seq<PlayerId>, rng: BombRng, config: Config)
    requires Generated(participantIds, rng, config)
    ensures Solvable(config)
  {
    hide Dealt, Analysts, Permutation, Board, CorrectWire, CodeSolution, Elements;
    assert Distinct(SYMBOL_IDS);
    PermutationDistinct(config.visible, SYMBOL_IDS);
    PermutationMembers(config.visible, SYMBOL_IDS);
    PermutationMembers(config.solution, SYMBOL_IDS);
    assert SYMBOL_IDS[0] == Triangle && SYMBOL_IDS[1] == Circle && SYMBOL_IDS[2] == Square && SYMBOL_IDS[3] == Star;
    PermutationLength(config.visible, SYMBOL_IDS);
    var i :| 0 <= i < |config.board| && config.board[i] == CorrectWire(rng);
    assert config.board[i].wireId == config.correctWireId;
  }

  // ---- The clues determine the solution -------------------------------------------------------------

  /** A full answer to a puzzle: the symbol order, the wire on the board and the code. */
  datatype Answer = Answer(symbols: seq<Symbol>, wire: Wire, code: seq<int>)

  ghost predicate Fits(clue: Clue, answer: Answer) {
    match clue
    case SymbolAt(position, symbol) => 1 <= position <= |answer.symbols| && answer.symbols[position - 1] == symbol
    case TargetColor(color) => answer.wire.color == color
    case CutAt(position) => answer.wire.position == position
    case DigitAt(position, digit) => 1 <= position <= |answer.code| && answer.code[position - 1] == digit
  }

  /** Some analyst holds the clue. */
  ghost predicate Held(clue: Clue, instructions: map<PlayerId, Instructions>) {
    exists id, part :: id in instructions && clue in Part(instructions[id], part)
  }

  ghost predicate FitsAll(answer: Answer, instructions: map<PlayerId, Instructions>) {
    forall clue :: Held(clue, instructions) ==> Fits(clue, answer)
  }

  lemma DealtHeld(config: Config, wire: Wire, clues: seq<Clue>, i: nat, part: Module)
    requires Distinct(config.analystIds) && config.analystIds != []
    requires config.instructions == Dealt(config.analystIds, config.solution, wire, config.code)
    requires clues == match part
             case Symbols => SymbolClues(config.solution)
             case Wires => WireClues(wire)
             case CodeSequence => CodeClues(config.code)
    requires i < |clues|
    ensures Held(clues[i], config.instructions)
  {
    var n := |config.analystIds|;
    var k := i % n;
    PileMembers(clues, n, k);
    IndexOfDistinct(config.analystIds, k);
    var id := config.analystIds[k];
    assert clues[i] in Part(config.instructions[id], part);
  }

  lemma HeldWasDealt(config: Config, wire: Wire, clue: Clue)
    requires config.instructions == Dealt(config.analystIds, config.solution, wire, config.code)
    requires Held(clue, config.instructions)
    ensures clue in SymbolClues(config.solution) || clue in WireClues(wire) || clue in CodeClues(config.code)
  {
    var id, part :| id in config.instructions && clue in Part(config.instructions[id], part);
    var n, k := |config.analystIds|, IndexOf(config.analystIds, id);
    PileMembers(SymbolClues(config.solution), n, k);
    PileMembers(WireClues(wire), n, k);
    PileMembers(CodeClues(config.code), n, k);
  }

  lemma FittingAnswerIsSolution(config: Config, wire: Wire, answer: Answer)
    requires Distinct(config.analystIds) && config.analystIds != []
    requires config.instructions == Dealt(config.analystIds, config.solution, wire, config.code)
    requires |answer.symbols| == |config.solution| && |answer.code| == |config.code|
    requires FitsAll(answer, config.instructions)
    ensures answer.symbols == config.solution && answer.code == config.code && answer.wire.position == wire.position
  {
    hide Dealt, Held;
    forall i | 0 <= i < |config.solution| ensures answer.symbols[i] == config.solution[i] {
      DealtHeld(config, wire, SymbolClues(config.solution), i, Symbols);
      assert Fits(SymbolAt(i + 1, config.solution[i]), answer);
    }
    DealtHeld(config, wire, WireClues(wire), 1, Wires);
    assert Fits(CutAt(wire.position), answer);
    forall i | 0 <= i < |config.code| ensures answer.code[i] == config.code[i] {
      DealtHeld(config, wire, CodeClues(config.code), i, CodeSequence);
      assert Fits(DigitAt(i + 1, config.code[i]), answer);
    }
  }

  lemma SolutionFits(config: Config, wire: Wire)
    requires config.instructions == Dealt(config.analystIds, config.solution, wire, config.code)
    ensures FitsAll(Answer(config.solution, wire, config.code), config.instructions)
  {
    hide Dealt, Held;
    forall clue | Held(clue, config.instructions) ensures Fits(clue, Answer(config.solution, wire, config.code)) {
      HeldWasDealt(config, wire, clue);
    }
  }

  /**
    What the Analysts hold between them is neither too little nor too much: an answer on this board
    agrees with every clue exactly when it is the solution.
   */
  lemma CluesDetermineSolution(participantIds: seq<PlayerId>, rng: BombRng, answer: Answer)
    requires Distinct(participantIds) && 3 <= |participantIds| <= 5
    requires |answer.symbols| == 4 && |answer.code| == 4 && answer.wire in Board(rng.board)
    ensures CreateConfig(participantIds, rng).Some?
    ensures var config := CreateConfig(participantIds, rng).value;
            FitsAll(answer, config.instructions) <==> answer == Answer(config.solution, CorrectWire(rng), config.code)
    ensures CreateConfig(participantIds, rng).value.correctWireId == CorrectWire(rng).wireId
  {
    ConfigGenerated(participantIds, rng);
    var config := CreateConfig(participantIds, rng).value;
    var wire := CorrectWire(rng);
    RolesGenerated(participantIds, rng, config);
    GeneratedShape(participantIds, rng, config);
    TailDistinct(config.operatorId, config.analystIds);
    SolutionFits(config, wire);
    hide CreateConfig, Dealt, CorrectWire, FitsAll, CodeSolution, ShapeFits, InstructionsFit;
    if FitsAll(answer, config.instructions) {
      FittingAnswerIsSolution(config, wire, answer);
      SamePosition(rng.board, answer.wire, wire);
    }
  }

  lemma SamePosition(rng: Stream, wire: Wire, other: Wire)
    requires wire in Board(rng) && other in Board(rng) && wire.position == other.position
    ensures wire == other
  {
  }

  // ---- Which puzzles there are ------------------------------------------------------------------------

  /** The wires of a board before they were given their places. */
  function Loose(board: seq<Wire>): seq<Wire> {
    seq(|board|, i requires 0 <= i < |board| => board[i].(position := 0))
  }

  /** Everybody but the participant at one index, in the order of the participants. */
  function Without(ids: seq<PlayerId>, i: nat): seq<PlayerId>
    requires i < |ids|
  {
    ids[..i] + ids[i + 1..]
  }

  ghost predicate RolesDrawn(participantIds: seq<PlayerId>, operatorId: PlayerId, analystIds: seq<PlayerId>) {
    exists i :: 0 <= i < |participantIds| && operatorId == participantIds[i] && analystIds == Without(participantIds, i)
  }

  /**
    Somebody operates and the others are Analysts; the four symbols are to be pressed in some order and are shown in
    some order; a red, a yellow and two blue wires lie in some order and a blue one is right; the code is any four digits
    up to five.
   */
  ghost predicate Puzzle(participantIds: seq<PlayerId>, c: Config) {
    && RolesDrawn(participantIds, c.operatorId, c.analystIds)
    && Permutation(c.solution, [Triangle, Circle, Square, Star]) && Permutation(c.visible, [Triangle, Circle, Square, Star])
    && Permutation(Loose(c.board), [Wire(1, Red, 0), Wire(2, Blue, 0), Wire(3, Yellow, 0), Wire(4, Blue, 0)])
    && (forall i :: 0 <= i < |c.board| ==> c.board[i].position == i + 1)
    && (c.correctWireId == 2 || c.correctWireId == 4)
    && c.allowedValues == [0, 1, 2, 3, 4, 5]
    && |c.code| == 4 && forall i :: 0 <= i < |c.code| ==> 0 <= c.code[i] <= 5
  }

  lemma {:induction false} WithoutIs(ids: seq<PlayerId>, i: nat)
    requires Distinct(ids) && i < |ids|
    ensures Analysts(ids, ids[i]) == Without(ids, i)
  {
    var keep := (other: PlayerId) => other != ids[i];
    if i == 0 {
      assert forall other :: other in ids[1..] ==> other != ids[0];
      FilterAll(ids[1..], keep);
    } else {
      TailDistinct(ids[0], ids[1..]) by {
        assert [ids[0]] + ids[1..] == ids;
      }
      assert ids[1..][i - 1] == ids[i];
      WithoutIs(ids[1..], i - 1);
      assert [ids[0]] + Without(ids[1..], i - 1) == Without(ids, i);
    }
  }

  lemma WiresOf(t: seq<Wire>)
    requires Permutation(t, WIRE_TEMPLATE)
    ensures Loose(Positioned(t)) == t
    ensures forall wire :: wire in Positioned(t) && wire.color == Blue ==> wire.wireId == 2 || wire.wireId == 4
  {
    PermutationMembers(t, WIRE_TEMPLATE);
    hide Permutation;
    forall i | 0 <= i < |t| ensures t[i].position == 0 && (t[i].color == Blue ==> t[i].wireId == 2 || t[i].wireId == 4) {
      assert t[i] in WIRE_TEMPLATE;
    }
  }

  lemma BoardDrawn(rng: BombRng)
    ensures Permutation(Loose(Board(rng.board)), WIRE_TEMPLATE)
    ensures CorrectWire(rng).wireId == 2 || CorrectWire(rng).wireId == 4
  {
    hide Permutation, Shuffle, Loose, CorrectWire, Positioned;
    WiresOf(Shuffle(WIRE_TEMPLATE, rng.board));
  }

  lemma RolesAreDrawn(participantIds: seq<PlayerId>, operatorId: PlayerId)
    requires Distinct(participantIds) && operatorId in participantIds
    ensures RolesDrawn(participantIds, operatorId, Analysts(participantIds, operatorId))
  {
    hide Analysts, Without, Distinct;
    var i :| 0 <= i < |participantIds| && participantIds[i] == operatorId;
    WithoutIs(participantIds, i);
  }

  lemma DigitsDrawn(rng: nat -> Stream)
    ensures forall i :: 0 <= i < 4 ==> 0 <= CodeSolution(rng)[i] <= 5
  {
    hide CodeSolution;
    assert ALLOWED_VALUES == [0, 1, 2, 3, 4, 5];
    forall i | 0 <= i < 4 ensures 0 <= CodeSolution(rng)[i] <= 5 {
      assert CodeSolution(rng)[i] in ALLOWED_VALUES;
    }
  }

  lemma GeneratedIsPuzzle(participantIds: seq<PlayerId>, rng: BombRng, c: Config)
    requires Distinct(participantIds) && Generated(participantIds, rng, c)
    ensures Puzzle(participantIds, c)
  {
    hide Dealt, Permutation, Shuffle, CorrectWire, CodeSolution, Analysts, Distinct, Without, Board, Loose, RolesDrawn;
    RolesAreDrawn(participantIds, c.operatorId);
    BoardDrawn(rng);
    DigitsDrawn(rng.digits);
  }

  /** Exactly the groups of three to five get a puzzle, and it is one of those described. */
  lemma GeneratesPuzzle(participantIds: seq<PlayerId>, rng: BombRng)
    requires Distinct(participantIds)
    ensures CreateConfig(participantIds, rng).Some? <==> 3 <= |participantIds| <= 5
    ensures CreateConfig(participantIds, rng).Some? ==> Puzzle(participantIds, CreateConfig(participantIds, rng).value)
  {
    if 3 <= |participantIds| <= 5 {
      ConfigGenerated(participantIds, rng);
      hide CreateConfig, Generated, Puzzle, Distinct;
      GeneratedIsPuzzle(participantIds, rng, CreateConfig(participantIds, rng).value);
    }
  }

  /** In such a puzzle the Operator alone may act: press any of the four symbols, cut any of the four wires, enter any code. */
  lemma MayAct(s: State, playerId: PlayerId, action: Action)
    requires Puzzle(s.participantIds, s.config)
    ensures ValidateAction(s, playerId, action) <==>
              && s.status == Active && playerId == s.config.operatorId
              && match action
                 case PressSymbol(symbol) => s.currentModule == Symbols
                 case CutWire(wireId) => s.currentModule == Wires && 1 <= wireId <= 4
                 case SubmitCode(digits) =>
                   s.currentModule == CodeSequence && |digits| == 4 && forall digit :: digit in digits ==> 0 <= digit <= 5
                 case Other => false
  {
    hide RolesDrawn, Permutation;
    assert WIRE_TEMPLATE == [Wire(1, Red, 0), Wire(2, Blue, 0), Wire(3, Yellow, 0), Wire(4, Blue, 0)];
    ShownAndLaid(s.config, if action.CutWire? then action.wireId else 0);
    var values := s.config.allowedValues;
    forall digit: int ensures digit in values <==> 0 <= digit <= 5 {
      assert 0 <= digit <= 5 ==> values[digit] == digit;
    }
    hide Puzzle;
    match action
    case PressSymbol(symbol) =>
      assert symbol in s.config.visible;
    case CutWire(wireId) =>
    case SubmitCode(digits) =>
      if forall i :: 0 <= i < |digits| ==> digits[i] in values {
        assert forall digit :: digit in digits ==> digit in values;
      }
      if forall digit :: digit in digits ==> 0 <= digit <= 5 {
        assert forall i :: 0 <= i < |digits| ==> digits[i] in digits;
        assert forall i :: 0 <= i < |digits| ==> digits[i] in values;
      }
    case Other =>
  }

  /** Every symbol is shown, and the board has the wires one to four. */
  lemma ShownAndLaid(c: Config, wireId: nat)
    requires Permutation(c.visible, [Triangle, Circle, Square, Star]) && Permutation(Loose(c.board), WIRE_TEMPLATE)
    ensures forall symbol: Symbol :: symbol in c.visible
    ensures (exists i :: 0 <= i < |c.board| && c.board[i].wireId == wireId) <==> 1 <= wireId <= 4
  {
    PermutationMembers(c.visible, [Triangle, Circle, Square, Star]);
    PermutationMembers(Loose(c.board), WIRE_TEMPLATE);
    hide Permutation;
    forall symbol: Symbol ensures symbol in c.visible {
      assert [Triangle, Circle, Square, Star][match symbol case Triangle => 0 case Circle => 1 case Square => 2 case Star => 3] == symbol;
    }
    forall i | 0 <= i < |c.board| ensures 1 <= c.board[i].wireId <= 4 {
      assert Loose(c.board)[i] in WIRE_TEMPLATE;
    }
    if 1 <= wireId <= 4 {
      assert WIRE_TEMPLATE[wireId - 1] in Loose(c.board);
      var i :| 0 <= i < |c.board| && Loose(c.board)[i] == WIRE_TEMPLATE[wireId - 1];
      assert c.board[i].wireId == wireId;
    }
  }

  // ---- Every one of them can come up --------------------------------------------------------------------

  lemma BoardReaches(board: seq<Wire>) returns (rng: Stream)
    requires Permutation(Loose(board), WIRE_TEMPLATE) && forall i :: 0 <= i < |board| ==> board[i].position == i + 1
    ensures Board(rng) == board
  {
    hide Permutation, Shuffle;
    rng := ShuffleReaches(WIRE_TEMPLATE, Loose(board));
    assert Positioned(Loose(board)) == board;
  }

  lemma BlueReaches(board: seq<Wire>, wireId: nat) returns (wire: Wire, rng: Stream)
    requires Permutation(Loose(board), WIRE_TEMPLATE) && (wireId == 2 || wireId == 4)
    ensures wire.wireId == wireId && wire in BlueWires(board) && RandomChoice(BlueWires(board), rng) == wire
  {
    PermutationMembers(Loose(board), WIRE_TEMPLATE);
    hide Permutation;
    assert WIRE_TEMPLATE[wireId - 1] in Loose(board);
    var i :| 0 <= i < |board| && Loose(board)[i] == WIRE_TEMPLATE[wireId - 1];
    wire := board[i];
    assert wire in BlueWires(board);
    rng := ChoiceReaches(BlueWires(board), wire);
  }

  lemma CodeReaches(code: seq<int>) returns (rng: nat -> Stream)
    requires |code| == 4 && forall i :: 0 <= i < |code| ==> 0 <= code[i] <= 5
    ensures CodeSolution(rng) == code
  {
    hide RandomChoice;
    forall i | 0 <= i < 4 ensures code[i] in ALLOWED_VALUES {
      assert ALLOWED_VALUES[code[i]] == code[i];
    }
    var first := ChoiceReaches(ALLOWED_VALUES, code[0]);
    var second := ChoiceReaches(ALLOWED_VALUES, code[1]);
    var third := ChoiceReaches(ALLOWED_VALUES, code[2]);
    var fourth := ChoiceReaches(ALLOWED_VALUES, code[3]);
    rng := (i: nat) => if i == 0 then first else if i == 1 then second else if i == 2 then third else fourth;
    assert code == [code[0], code[1], code[2], code[3]];
  }

  /** Whatever group there is, every such puzzle comes up for some random numbers: nothing is out of the draw's reach. */
  lemma EveryPuzzleComesUp(participantIds: seq<PlayerId>, c: Config)
    requires Distinct(participantIds) && 3 <= |participantIds| <= 5 && Puzzle(participantIds, c)
    ensures exists rng: BombRng ::
              && CreateConfig(participantIds, rng).Some?
              && CreateConfig(participantIds, rng).value == c.(instructions := CreateConfig(participantIds, rng).value.instructions)
  {
    hide Distinct, Permutation, Shuffle, Board, CodeSolution, Loose, RandomChoice, Analysts, BlueWires, Without, Dealt;
    var i :| 0 <= i < |participantIds| && c.operatorId == participantIds[i] && c.analystIds == Without(participantIds, i);
    WithoutIs(participantIds, i);
    var operator := ChoiceReaches(participantIds, c.operatorId);
    var solution := ShuffleReaches(SYMBOL_IDS, c.solution);
    var visible := ShuffleReaches(SYMBOL_IDS, c.visible);
    var board := BoardReaches(c.board);
    var wire, blue := BlueReaches(c.board, c.correctWireId);
    var digits := CodeReaches(c.code);
    var rng := BombRng(operator, solution, board, blue, digits, visible);
    assert CorrectWire(rng) == wire;
    hide CorrectWire;
    assert CreateConfig(participantIds, rng).value == c.(instructions := CreateConfig(participantIds, rng).value.instructions);
  }
}
