/** The per-frame update of the falling piece and the frame loop around it.
    The keyboard read is replaced by an input character handed to each frame;
    drawing and pacing are left out. */
module Game {
  import opened Pieces

  /** Board size in cells; the piece's x wraps within [0, BlockWidth] and its
      y is reset once it passes BlockHeight. */
  const BlockWidth: int := 10
  const BlockHeight: int := 22

  /** Gravity moves the piece down one row on every frame whose number is a
      multiple of this. */
  const GravityPeriod: nat := 30

  /** The program's global state: the falling piece, the quit flag, the frame
      counter and the last key read. */
  datatype GameState = GameState(piece: Tetrimino, endGame: bool, totalTime: nat, lastInput: char)

  /** The state the program starts in: an L piece at (5, 0), angle 0. */
  const Initial: GameState := GameState(Tetrimino(5, 0, 0, 'L'), false, 0, 'l')

  /** The piece keeps to the ranges the update wraps it into. */
  predicate InBounds(p: Tetrimino) {
    0 <= p.x <= BlockWidth && 0 <= p.y <= BlockHeight
  }

  /** The move a key asks for: h left, l right, j down; other keys none. */
  function KeyMove(p: Tetrimino, input: char): (r: Tetrimino)
    ensures r.angle == p.angle && r.kind == p.kind
    ensures r.x - p.x == (if input == 'h' then -1 else if input == 'l' then 1 else 0)
    ensures r.y - p.y == (if input == 'j' then 1 else 0)
  {
    if input == 'h' then p.(x := p.x - 1)
    else if input == 'l' then p.(x := p.x + 1)
    else if input == 'j' then p.(y := p.y + 1)
    else p
  }

  /** Gravity: one row down on every GravityPeriod-th frame. */
  function Gravity(p: Tetrimino, totalTime: nat): (r: Tetrimino)
    ensures r.x == p.x && r.angle == p.angle && r.kind == p.kind
    ensures r.y - p.y == (if totalTime % GravityPeriod == 0 then 1 else 0)
  {
    if totalTime % GravityPeriod == 0 then p.(y := p.y + 1) else p
  }

  /** Column wrap: past the right edge to 0, past the left edge to BlockWidth. */
  function WrapX(x: int): (r: int)
    ensures 0 <= r <= BlockWidth
    ensures 0 <= x <= BlockWidth ==> r == x
    ensures x > BlockWidth ==> r == 0
    ensures x < 0 ==> r == BlockWidth
  {
    if x > BlockWidth then 0 else if x < 0 then BlockWidth else x
  }

  /** Row reset: past the bottom back to the top. */
  function ResetY(y: int): (r: int)
    ensures r <= BlockHeight
    ensures y <= BlockHeight ==> r == y
    ensures 0 <= y ==> 0 <= r
    ensures y > BlockHeight ==> r == 0
  {
    if y > BlockHeight then 0 else y
  }

  /** One call of the update: apply the key, then gravity, then reset y and wrap x. */
  function Step(s: GameState, input: char): (r: GameState)
    ensures 0 <= r.piece.x <= BlockWidth
    ensures r.piece.y <= BlockHeight && (0 <= s.piece.y ==> 0 <= r.piece.y)
    ensures r.piece.angle == s.piece.angle && r.piece.kind == s.piece.kind
    ensures r.endGame <==> s.endGame || input == 'q'
    ensures r.totalTime == s.totalTime && r.lastInput == input
  {
    var moved := Gravity(KeyMove(s.piece, input), s.totalTime);
    var p := moved.(x := WrapX(moved.x), y := ResetY(moved.y));
    GameState(p, s.endGame || input == 'q', s.totalTime, input)
  }

  /** One iteration of the frame loop: update, then count the frame. */
  function Tick(s: GameState, input: char): (r: GameState)
    ensures r.totalTime == s.totalTime + 1
    ensures r.piece == Step(s, input).piece && r.endGame == Step(s, input).endGame
  {
    var u := Step(s, input);
    u.(totalTime := u.totalTime + 1)
  }

  /** The frame loop fed with a finite stream of keys: it runs while the quit
      flag is clear, one key per frame, and stops early if the keys run out. */
  function Play(s: GameState, inputs: seq<char>): (r: GameState)
    ensures s.totalTime <= r.totalTime <= s.totalTime + |inputs|
    ensures r.piece.angle == s.piece.angle && r.piece.kind == s.piece.kind
    ensures InBounds(s.piece) ==> InBounds(r.piece)
    ensures s.endGame ==> r.endGame
    decreases |inputs|
  {
    if s.endGame || |inputs| == 0 then s else Play(Tick(s, inputs[0]), inputs[1..])
  }

  /** The position of the first occurrence of c in keys. */
  function FirstIndex(keys: seq<char>, c: char): (i: nat)
    requires c in keys
    ensures i < |keys| && keys[i] == c && c !in keys[..i]
  {
    if keys[0] == c then 0
    else
      assert c in keys[1..];
      1 + FirstIndex(keys[1..], c)
  }

  /** h moves the piece one column left and l one column right, wrapping
      between 0 and BlockWidth; every other key leaves its column alone. */
  lemma HorizontalKeys(s: GameState, input: char)
    requires 0 <= s.piece.x <= BlockWidth
    ensures var x := Step(s, input).piece.x;
      (input == 'h' ==> x == if s.piece.x == 0 then BlockWidth else s.piece.x - 1) &&
      (input == 'l' ==> x == if s.piece.x == BlockWidth then 0 else s.piece.x + 1) &&
      (input != 'h' && input != 'l' ==> x == s.piece.x)
  {
  }

  /** The piece moves down by one row for j and one for gravity, at most two
      rows a frame, and returns to row 0 once it passes BlockHeight; the row
      stays the same exactly when neither j nor gravity applies. */
  lemma VerticalMotion(s: GameState, input: char)
    requires 0 <= s.piece.y <= BlockHeight
    ensures var y := Step(s, input).piece.y;
      var down := (if input == 'j' then 1 else 0) + (if s.totalTime % GravityPeriod == 0 then 1 else 0);
      0 <= y <= BlockHeight &&
      (y == s.piece.y <==> down == 0) &&
      (s.piece.y + down <= BlockHeight ==> y == s.piece.y + down) &&
      (s.piece.y + down > BlockHeight ==> y == 0)
  {
  }

  /** On a gravity frame a key other than j moves the piece exactly one row
      down (or back to the top from the last row); off a gravity frame only j
      changes its row. */
  lemma GravityRule(s: GameState, input: char)
    requires 0 <= s.piece.y <= BlockHeight && input != 'j'
    ensures s.totalTime % GravityPeriod == 0 ==>
      Step(s, input).piece.y == if s.piece.y == BlockHeight then 0 else s.piece.y + 1
    ensures s.totalTime % GravityPeriod != 0 ==> Step(s, input).piece.y == s.piece.y
  {
  }

  /** A key other than h, l, j and q leaves the column and the quit flag as they
      were and moves the piece only through gravity. */
  lemma OtherKeys(s: GameState, input: char)
    requires InBounds(s.piece)
    requires input != 'h' && input != 'l' && input != 'j' && input != 'q'
    ensures var r := Step(s, input);
      r.piece.x == s.piece.x && r.endGame == s.endGame &&
      r.piece == Gravity(s.piece, s.totalTime).(y := ResetY(Gravity(s.piece, s.totalTime).y))
  {
  }

  /** Fed from a running state, the loop sets the quit flag exactly when q is
      among the keys, and then it stops right after the frame that read the
      first q; otherwise it uses up every key. */
  lemma {:induction false} PlayStopsAfterFirstQuit(s: GameState, inputs: seq<char>)
    requires !s.endGame
    ensures Play(s, inputs).endGame <==> 'q' in inputs
    ensures Play(s, inputs).totalTime - s.totalTime ==
      if 'q' in inputs then FirstIndex(inputs, 'q') + 1 else |inputs|
    decreases |inputs|
  {
    if |inputs| > 0 {
      var t := Tick(s, inputs[0]);
      if inputs[0] == 'q' {
        assert t.endGame;
      } else {
        assert inputs == [inputs[0]] + inputs[1..];
        assert 'q' in inputs <==> 'q' in inputs[1..];
        PlayStopsAfterFirstQuit(t, inputs[1..]);
      }
    }
  }

  /** Every state the loop reaches from the initial state holds an L piece at
      angle 0 with its anchor within [0, BlockWidth] x [0, BlockHeight]. */
  lemma ReachableStates(inputs: seq<char>)
    ensures var r := Play(Initial, inputs);
      InBounds(r.piece) && r.piece.angle == 0 && r.piece.kind == 'L'
  {
  }

  /** The L piece of a reachable state is drawn within columns
      [0, BlockWidth + 1] and rows [0, BlockHeight + 2]. This is one column and
      two rows beyond the BlockWidth x BlockHeight board. */
  lemma ReachableDrawnCells(inputs: seq<char>)
    ensures var r := Play(Initial, inputs);
      PieceCells(r.piece).Drawn? &&
      forall c :: c in PieceCells(r.piece).cells ==>
        0 <= c.0 <= BlockWidth + 1 && 0 <= c.1 <= BlockHeight + 2
  {
  }

  /** Five presses of l from the start, with gravity on frame 0, put the anchor
      at column BlockWidth. The foot of the L is then drawn in column 11, which
      is outside the 10-column board. */
  lemma PieceLeavesBoard()
    ensures Play(Initial, "lllll").piece == Tetrimino(BlockWidth, 1, 0, 'L')
    ensures (BlockWidth + 1, 3) in PieceCells(Play(Initial, "lllll").piece).cells
  {
  }

  /** The program's globals, updated in place by each frame. */
  class Game {
    var current: Tetrimino
    var endGame: bool
    var totalTime: nat
    var lastInput: char

    /** The globals as one value. */
    function State(): GameState
      reads this
    {
      GameState(current, endGame, totalTime, lastInput)
    }

    /** The start of the program: the initial values of the globals and the
        first piece. */
    constructor ()
      ensures State() == Initial
    {
      current := Tetrimino(5, 0, 0, 'L');
      endGame := false;
      totalTime := 0;
      lastInput := 'l';
    }

    /** The per-frame update with the key read as its argument. */
    method Update(input: char)
      modifies this
      ensures State() == Step(old(State()), input)
      ensures 0 <= current.x <= BlockWidth && current.y <= BlockHeight
    {
      lastInput := input;
      if input == 'h' {
        current := current.(x := current.x - 1);
      } else if input == 'l' {
        current := current.(x := current.x + 1);
      } else if input == 'j' {
        current := current.(y := current.y + 1);
      } else if input == 'q' {
        endGame := true;
      }

      if totalTime % GravityPeriod == 0 {
        current := current.(y := current.y + 1);
      }

      if current.y > BlockHeight {
        current := current.(y := 0);
      }

      if current.x > BlockWidth {
        current := current.(x := 0);
      } else if current.x < 0 {
        current := current.(x := BlockWidth);
      }
    }

    /** The frame loop: update and count frames until the quit flag is set,
        reading one key per frame, or until the keys run out. Returns the
        number of frames run. */
    method Run(inputs: seq<char>) returns (frames: nat)
      modifies this
      ensures State() == Play(old(State()), inputs)
      ensures frames == totalTime - old(totalTime) && frames <= |inputs|
    {
      frames := 0;
      while !endGame && frames < |inputs|
        invariant frames <= |inputs|
        invariant totalTime == old(totalTime) + frames
        invariant Play(State(), inputs[frames..]) == Play(old(State()), inputs)
      {
        Update(inputs[frames]);
        totalTime := totalTime + 1;
        frames := frames + 1;
      }
    }
  }
}
