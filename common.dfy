/** Values shared by the review screens: optional values, the two sides of the board,
    the move-classification taxonomy and the comma-joined form of a move history. */
module Common {

  datatype Option<+T> = None | Some(value: T)

  /** What a `catch` clause receives: an `Error` instance with its message, or any other
      thrown value. */
  datatype Thrown = ErrorInstance(message: string) | NonError

  /** The outcome of a call that may throw. */
  datatype Attempt<+T> = Done(value: T) | Threw(thrown: Thrown)

  /** The error text the dialogs show for a thrown value: the message followed by " !"
      for an `Error`, the dialog's own fallback text otherwise. */
  function ErrorText(t: Thrown, fallback: string): (text: string)
    ensures t.ErrorInstance? ==> text == t.message + " !"
    ensures t.NonError? ==> text == fallback
  {
    match t
    case ErrorInstance(m) => m + " !"
    case NonError => fallback
  }

  /** The side of the board (`Color` in the application). chess.js answers `turn()` with
      'w' or 'b'; both are represented by this type. */
  datatype Color = White | Black

  function Opponent(c: Color): (r: Color)
    ensures r != c
  {
    if c == White then Black else White
  }

  /** The ten labels of `MoveClassification`, plus `Other` for a label outside the enum
      (the `default` branch of the label switch). */
  datatype MoveClassification =
    | Blunder | Mistake | Inaccuracy | Okay | Excellent
    | Best | Forced | Opening | Perfect | Splendid
    | Other

  /** `Object.values(MoveClassification)`: every enum member once, in declaration order. */
  const EnumMembers: seq<MoveClassification> :=
    [Blunder, Mistake, Inaccuracy, Okay, Excellent, Best, Forced, Opening, Perfect, Splendid]

  predicate IsEnumMember(c: MoveClassification) {
    !c.Other?
  }

  lemma EnumMembersExact(c: MoveClassification)
    ensures c in EnumMembers <==> IsEnumMember(c)
  {
  }

  /** The six "important" classifications, in the order the summary and the navigation
      buttons use. */
  const ImportantOrder: seq<MoveClassification> :=
    [Splendid, Perfect, Best, Mistake, Inaccuracy, Blunder]

  predicate IsImportant(c: MoveClassification) {
    c in ImportantOrder
  }

  /** One evaluated position of the game, as far as the review screens look at it. */
  datatype PositionEval = PositionEval(moveClassification: Option<MoveClassification>)

  datatype Accuracy = Accuracy(white: real, black: real)
  datatype EstimatedElo = EstimatedElo(white: real, black: real)

  /** The engine's result for a whole game (`gameEval`), produced outside this model. */
  datatype GameEval = GameEval(
    positions: seq<PositionEval>,
    accuracy: Accuracy,
    estimatedElo: Option<EstimatedElo>)

  /** A move as reported by chess.js's verbose history: its SAN text and the FEN after it. */
  datatype GameMove = GameMove(san: string, after: string)

  /** A PGN comment attached to the position with the given FEN. */
  datatype Comment = Comment(fen: string, comment: string)

  /** The loaded game (`gameAtom`): its moves in order and its comments. */
  datatype Game = Game(moves: seq<GameMove>, comments: seq<Comment>)

  /** chess.js `history()`: the SAN text of every move. */
  function History(g: Game): (h: seq<string>)
    ensures |h| == |g.moves|
    ensures forall i :: 0 <= i < |h| ==> h[i] == g.moves[i].san
  {
    seq(|g.moves|, i requires 0 <= i < |g.moves| => g.moves[i].san)
  }

  /** A SAN move token is never empty and never contains a comma. */
  predicate SanToken(s: string) {
    |s| > 0 && ',' !in s
  }

  predicate SanTokens(h: seq<string>) {
    forall i :: 0 <= i < |h| ==> SanToken(h[i])
  }

  /** JavaScript's `Array.prototype.join()` with its default separator ",". */
  function Join(h: seq<string>): string {
    if |h| == 0 then ""
    else if |h| == 1 then h[0]
    else h[0] + "," + Join(h[1..])
  }

  /** The text of a string up to (not including) its first comma. */
  function FirstToken(s: string): string {
    if s == [] || s[0] == ',' then [] else [s[0]] + FirstToken(s[1..])
  }

  lemma {:induction false} FirstTokenAfter(a: string, rest: string)
    requires ',' !in a
    ensures FirstToken(a + rest) == a + FirstToken(rest)
  {
    if a != [] {
      assert (a + rest)[1..] == a[1..] + rest;
      assert (a + rest)[0] == a[0] != ',';
      FirstTokenAfter(a[1..], rest);
      assert a + FirstToken(rest) == [a[0]] + (a[1..] + FirstToken(rest));
    } else {
      assert a + rest == rest;
    }
  }

  /** Reading the joined text up to its first comma gives back the first token. */
  lemma FirstTokenOfJoin(h: seq<string>)
    requires SanTokens(h) && |h| > 0
    ensures FirstToken(Join(h)) == h[0]
  {
    assert SanToken(h[0]);
    if |h| == 1 {
      FirstTokenAfter(h[0], []);
      assert h[0] + [] == h[0];
    } else {
      FirstTokenAfter(h[0], "," + Join(h[1..]));
      assert h[0] + "," + Join(h[1..]) == h[0] + ("," + Join(h[1..]));
    }
  }

  /** The joined text is empty exactly for the empty history. */
  lemma JoinEmptyIff(h: seq<string>)
    requires SanTokens(h)
    ensures Join(h) == [] <==> |h| == 0
  {
    if |h| > 1 {
      assert |Join(h)| >= |h[0]|;
    }
  }

  /** The joined text holds a comma exactly when more than one token was joined. */
  lemma CommaIff(h: seq<string>)
    requires SanTokens(h) && |h| > 0
    ensures ',' in Join(h) <==> |h| > 1
  {
    if |h| > 1 {
      assert Join(h)[|h[0]|] == ',';
    } else {
      assert SanToken(h[0]);
    }
  }

  /** Joining is injective on SAN tokens, so the application's comparison of joined
      histories is a comparison of the histories themselves. */
  lemma {:induction false} JoinInjective(xs: seq<string>, ys: seq<string>)
    requires SanTokens(xs) && SanTokens(ys)
    requires Join(xs) == Join(ys)
    ensures xs == ys
  {
    JoinEmptyIff(xs);
    JoinEmptyIff(ys);
    if |xs| > 0 {
      FirstTokenOfJoin(xs);
      FirstTokenOfJoin(ys);
      CommaIff(xs);
      CommaIff(ys);
      if |xs| > 1 {
        var n := |xs[0]| + 1;
        assert Join(xs)[n..] == Join(xs[1..]);
        assert Join(ys)[n..] == Join(ys[1..]);
        JoinInjective(xs[1..], ys[1..]);
        assert xs == [xs[0]] + xs[1..] && ys == [ys[0]] + ys[1..];
      }
    }
  }

  /** Equal histories always join to equal text. */
  lemma JoinEquality(xs: seq<string>, ys: seq<string>)
    requires SanTokens(xs) && SanTokens(ys)
    ensures Join(xs) == Join(ys) <==> xs == ys
  {
    if Join(xs) == Join(ys) { JoinInjective(xs, ys); }
  }
}
