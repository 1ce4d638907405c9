/** The game-analysis modal (src/components/GameAnalysisModal.tsx): the label of each move
    classification, the per-side tally of classified moves, the rows of the summary and the
    flags around one analysis run. */
module AnalysisModal {
  import opened Common

  /** Icon name, colour and label shown for a classification. */
  datatype IconData = IconData(icon: string, color: string, text: string)

  /** The name of each enum member as written in `MoveClassification`; `Other` stands for
      any value outside the enum. */
  function MemberName(c: MoveClassification): string {
    match c
    case Blunder => "Blunder"
    case Mistake => "Mistake"
    case Inaccuracy => "Inaccuracy"
    case Okay => "Okay"
    case Excellent => "Excellent"
    case Best => "Best"
    case Forced => "Forced"
    case Opening => "Opening"
    case Perfect => "Perfect"
    case Splendid => "Splendid"
    case Other => "Other"
  }

  /** `getMoveClassificationIcon`: total over classifications, `default` included. */
  function ClassificationIcon(c: MoveClassification): (d: IconData)
    ensures |d.text| > 0
  {
    match c
    case Splendid => IconData("mdi:star", "#00bcd4", "Brilliant")
    case Perfect => IconData("mdi:exclamation", "#2196f3", "Great")
    case Best => IconData("mdi:check", "#4caf50", "Best")
    case Excellent => IconData("mdi:thumb-up", "#66bb6a", "Excellent")
    case Okay => IconData("mdi:circle", "#9ccc65", "Good")
    case Inaccuracy => IconData("mdi:help", "#ffb74d", "Inaccuracy")
    case Mistake => IconData("mdi:close", "#f57c00", "Mistake")
    case Blunder => IconData("mdi:close-circle", "#e53935", "Blunder")
    case Opening => IconData("mdi:book-open", "#78909c", "Book")
    case Forced => IconData("mdi:lock", "#90a4ae", "Forced")
    case _ => IconData("mdi:circle", "#9e9e9e", "Other")
  }

  /** Four members are shown under a chess-site name (Splendid as "Brilliant", Perfect as
      "Great", Okay as "Good", Opening as "Book"); every other classification, the
      fallback included, is shown under its own name. No two classifications share a
      label. */
  lemma LabelsAreRenamedMemberNames(c: MoveClassification, c2: MoveClassification)
    ensures c == Splendid ==> ClassificationIcon(c).text == "Brilliant"
    ensures c == Perfect ==> ClassificationIcon(c).text == "Great"
    ensures c == Okay ==> ClassificationIcon(c).text == "Good"
    ensures c == Opening ==> ClassificationIcon(c).text == "Book"
    ensures c !in {Splendid, Perfect, Okay, Opening} ==>
              ClassificationIcon(c).text == MemberName(c)
    ensures ClassificationIcon(c).text == ClassificationIcon(c2).text ==> c == c2
  {
  }

  /** One row of the summary: a classification with its white and black counts. */
  datatype MoveStat = MoveStat(kind: MoveClassification, icon: IconData, whiteCount: nat, blackCount: nat)

  function ZeroStat(c: MoveClassification): MoveStat {
    MoveStat(c, ClassificationIcon(c), 0, 0)
  }

  /** Whether the position at index `i` is tallied for classification `c` on the given
      side: never the starting position, only a label that is an enum member (the lookup in
      the tally map fails for any other value), White for odd indices, Black for even. */
  predicate TalliedAs(ps: seq<PositionEval>, i: nat, c: MoveClassification, white: bool)
    requires i < |ps|
  {
    i > 0 && ps[i].moveClassification == Some(c) && IsEnumMember(c) && (i % 2 == 1) == white
  }

  /** Number of positions among the first `n` tallied for `c` on the given side. */
  function SideCount(ps: seq<PositionEval>, n: nat, c: MoveClassification, white: bool): (k: nat)
    requires n <= |ps|
    ensures k <= n
  {
    if n == 0 then 0
    else SideCount(ps, n - 1, c, white) + (if TalliedAs(ps, n - 1, c, white) then 1 else 0)
  }

  function StatOf(ps: seq<PositionEval>, c: MoveClassification): MoveStat {
    MoveStat(c, ClassificationIcon(c), SideCount(ps, |ps|, c, true), SideCount(ps, |ps|, c, false))
  }

  predicate Nonzero(s: MoveStat) {
    s.whiteCount > 0 || s.blackCount > 0
  }

  /** The rows kept for the given classifications, in their order, with zero rows
      dropped. */
  function StatsOf(ps: seq<PositionEval>, kinds: seq<MoveClassification>): seq<MoveStat> {
    if kinds == [] then []
    else
      var last := StatOf(ps, kinds[|kinds| - 1]);
      StatsOf(ps, kinds[..|kinds| - 1]) + (if Nonzero(last) then [last] else [])
  }

  /** The positions of a possibly missing evaluation: none when it is missing. */
  function PositionsOf(gameEval: Option<GameEval>): seq<PositionEval> {
    if gameEval.Some? then gameEval.value.positions else []
  }

  /** `moveStats`: the nonzero rows over every enum member, in enum order. */
  function MoveStats(gameEval: Option<GameEval>): seq<MoveStat> {
    StatsOf(PositionsOf(gameEval), EnumMembers)
  }

  /** The tally as the modal computes it: a map from each enum member to its row, filled
      in enum order, updated once per classified position, then read out in insertion
      order keeping the nonzero rows. */
  method TallyMoveStats(gameEval: Option<GameEval>) returns (stats: seq<MoveStat>)
    ensures stats == MoveStats(gameEval)
  {
    if gameEval.None? || |gameEval.value.positions| == 0 {
      assert PositionsOf(gameEval) == [];
      EmptyTally(EnumMembers);
      return [];
    }
    var ps := gameEval.value.positions;
    var table := NewTable();
    table := CountPositions(ps, table);
    stats := ReadOut(ps, table);
  }

  /** Every row of the table holds its classification's counts over the first `n`
      positions. */
  ghost predicate TableAt(ps: seq<PositionEval>, n: nat, table: map<MoveClassification, MoveStat>)
    requires n <= |ps|
  {
    (forall c :: c in table <==> IsEnumMember(c)) &&
    forall c :: c in table ==>
      table[c] == MoveStat(c, ClassificationIcon(c), SideCount(ps, n, c, true), SideCount(ps, n, c, false))
  }

  /** The map filled with a zero row for every enum member. */
  method NewTable() returns (table: map<MoveClassification, MoveStat>)
    ensures forall ps: seq<PositionEval> :: TableAt(ps, 0, table)
  {
    table := map[];
    for k := 0 to |EnumMembers|
      invariant forall c :: c in table <==> c in EnumMembers[..k]
      invariant forall c :: c in table ==> table[c] == ZeroStat(c)
    {
      var c := EnumMembers[k];
      table := table[c := ZeroStat(c)];
    }
    assert EnumMembers[..|EnumMembers|] == EnumMembers;
    forall c ensures c in table <==> IsEnumMember(c) {
      EnumMembersExact(c);
    }
  }

  /** The pass over the positions: a classified position after the first adds one to the
      White count of its row when its index is odd, to the Black count otherwise. */
  method CountPositions(ps: seq<PositionEval>, table0: map<MoveClassification, MoveStat>)
    returns (table: map<MoveClassification, MoveStat>)
    requires TableAt(ps, 0, table0)
    ensures TableAt(ps, |ps|, table)
  {
    table := table0;
    var i := 0;
    while i < |ps|
      invariant 0 <= i <= |ps|
      invariant TableAt(ps, i, table)
    {
      var cls := ps[i].moveClassification;
      if cls.Some? && i > 0 {
        var isWhiteMove := i % 2 == 1;
        if cls.value in table {
          var stat := table[cls.value];
          if isWhiteMove {
            table := table[cls.value := stat.(whiteCount := stat.whiteCount + 1)];
          } else {
            table := table[cls.value := stat.(blackCount := stat.blackCount + 1)];
          }
        }
      }
      i := i + 1;
    }
  }

  /** `Array.from(stats.values()).filter(...)`: the rows in insertion order, nonzero ones
      only. */
  method ReadOut(ps: seq<PositionEval>, table: map<MoveClassification, MoveStat>)
    returns (stats: seq<MoveStat>)
    requires TableAt(ps, |ps|, table)
    ensures stats == StatsOf(ps, EnumMembers)
  {
    stats := [];
    for k := 0 to |EnumMembers|
      invariant stats == StatsOf(ps, EnumMembers[..k])
    {
      var c := EnumMembers[k];
      assert EnumMembers[..k + 1][..k] == EnumMembers[..k];
      var stat := table[c];
      if stat.whiteCount > 0 || stat.blackCount > 0 {
        stats := stats + [stat];
      }
    }
    assert EnumMembers[..|EnumMembers|] == EnumMembers;
  }

  lemma {:induction false} EmptyTally(kinds: seq<MoveClassification>)
    ensures StatsOf([], kinds) == []
  {
    if kinds != [] {
      EmptyTally(kinds[..|kinds| - 1]);
    }
  }

  /** Every row of the tally has a nonzero count, belongs to one of the given
      classifications and carries exactly that classification's counts; and every given
      classification with a nonzero count has a row. */
  lemma {:induction false} StatsOfRows(ps: seq<PositionEval>, kinds: seq<MoveClassification>)
    ensures forall s :: s in StatsOf(ps, kinds) <==> s.kind in kinds && s == StatOf(ps, s.kind) && Nonzero(s)
  {
    if kinds != [] {
      var init := kinds[..|kinds| - 1];
      StatsOfRows(ps, init);
      assert kinds == init + [kinds[|kinds| - 1]];
    }
  }

  /** `moveStats` holds a row for a classification exactly when that classification was
      tallied at least once, and the row's counts are the number of White moves (odd
      indices) and Black moves (even indices above 0) with that label. It is empty without
      an evaluation or without positions. */
  lemma MoveStatsRows(gameEval: Option<GameEval>)
    ensures gameEval.None? || gameEval.value.positions == [] ==> MoveStats(gameEval) == []
    ensures forall s :: s in MoveStats(gameEval) ==>
      IsEnumMember(s.kind) && s.whiteCount + s.blackCount > 0 &&
      s.whiteCount == SideCount(PositionsOf(gameEval), |PositionsOf(gameEval)|, s.kind, true) &&
      s.blackCount == SideCount(PositionsOf(gameEval), |PositionsOf(gameEval)|, s.kind, false)
    ensures forall c :: IsEnumMember(c) && Nonzero(StatOf(PositionsOf(gameEval), c)) ==>
      StatOf(PositionsOf(gameEval), c) in MoveStats(gameEval)
  {
    var ps := PositionsOf(gameEval);
    if gameEval.None? || gameEval.value.positions == [] {
      EmptyTally(EnumMembers);
    }
    StatsOfRows(ps, EnumMembers);
    forall c | IsEnumMember(c) ensures c in EnumMembers {
      EnumMembersExact(c);
    }
  }

  // ---- The sum of the counts -------------------------------------------------------

  /** Number of positions among the first `n` that carry an enum classification and are
      not the starting position. */
  function ClassifiedCount(ps: seq<PositionEval>, n: nat): (k: nat)
    requires n <= |ps|
    ensures k <= n
  {
    if n == 0 then 0
    else
      var p := ps[n - 1].moveClassification;
      ClassifiedCount(ps, n - 1) + (if n - 1 > 0 && p.Some? && IsEnumMember(p.value) then 1 else 0)
  }

  function CountSum(ps: seq<PositionEval>, n: nat, kinds: seq<MoveClassification>): nat
    requires n <= |ps|
  {
    if kinds == [] then 0
    else
      var c := kinds[|kinds| - 1];
      CountSum(ps, n, kinds[..|kinds| - 1]) + SideCount(ps, n, c, true) + SideCount(ps, n, c, false)
  }

  function RowSum(stats: seq<MoveStat>): nat {
    if stats == [] then 0
    else RowSum(stats[..|stats| - 1]) + stats[|stats| - 1].whiteCount + stats[|stats| - 1].blackCount
  }

  lemma {:induction false} RowSumAppend(a: seq<MoveStat>, b: seq<MoveStat>)
    ensures RowSum(a + b) == RowSum(a) + RowSum(b)
  {
    if b != [] {
      assert (a + b)[..|a + b| - 1] == a + b[..|b| - 1];
      RowSumAppend(a, b[..|b| - 1]);
    } else {
      assert a + b == a;
    }
  }

  predicate Distinct(kinds: seq<MoveClassification>) {
    forall i, j :: 0 <= i < j < |kinds| ==> kinds[i] != kinds[j]
  }

  /** Dropping the zero rows does not change the total. */
  lemma {:induction false} RowSumOfStats(ps: seq<PositionEval>, kinds: seq<MoveClassification>)
    ensures RowSum(StatsOf(ps, kinds)) == CountSum(ps, |ps|, kinds)
  {
    if kinds != [] {
      var init := kinds[..|kinds| - 1];
      var last := StatOf(ps, kinds[|kinds| - 1]);
      RowSumOfStats(ps, init);
      RowSumAppend(StatsOf(ps, init), if Nonzero(last) then [last] else []);
      assert RowSum([last]) == last.whiteCount + last.blackCount by {
        assert [last][..0] == [];
      }
    }
  }

  /** Position `n` adds one to the sum over distinct classifications exactly when its label
      is one of them. */
  lemma {:induction false} CountSumStep(ps: seq<PositionEval>, n: nat, kinds: seq<MoveClassification>)
    requires n < |ps| && Distinct(kinds)
    ensures CountSum(ps, n + 1, kinds) == CountSum(ps, n, kinds) +
      (if n > 0 && ps[n].moveClassification.Some? && IsEnumMember(ps[n].moveClassification.value)
          && ps[n].moveClassification.value in kinds then 1 else 0)
  {
    if kinds != [] {
      var init := kinds[..|kinds| - 1];
      CountSumStep(ps, n, init);
      assert kinds == init + [kinds[|kinds| - 1]];
    }
  }

  /** Summed over every enum member, the counts give the number of classified positions. */
  lemma {:induction false} CountSumIsClassified(ps: seq<PositionEval>, n: nat)
    requires n <= |ps|
    ensures CountSum(ps, n, EnumMembers) == ClassifiedCount(ps, n)
  {
    if n == 0 {
      ZeroCounts(ps, EnumMembers);
    } else {
      CountSumIsClassified(ps, n - 1);
      CountSumStep(ps, n - 1, EnumMembers);
      var p := ps[n - 1].moveClassification;
      if p.Some? { EnumMembersExact(p.value); }
    }
  }

  lemma {:induction false} ZeroCounts(ps: seq<PositionEval>, kinds: seq<MoveClassification>)
    ensures CountSum(ps, 0, kinds) == 0
  {
    if kinds != [] { ZeroCounts(ps, kinds[..|kinds| - 1]); }
  }

  /** The counts of all rows of `moveStats` add up to the number of positions after the
      first whose classification is an enum member. */
  lemma MoveStatsTotal(gameEval: Option<GameEval>)
    ensures RowSum(MoveStats(gameEval)) ==
      ClassifiedCount(PositionsOf(gameEval), |PositionsOf(gameEval)|)
  {
    var ps := PositionsOf(gameEval);
    RowSumOfStats(ps, EnumMembers);
    CountSumIsClassified(ps, |ps|);
  }

  // ---- The rows on display -----------------------------------------------------------

  /** `new Map(moveStats.map(s => [s.type, s]))`: a later row with the same classification
      replaces an earlier one. */
  function ByType(stats: seq<MoveStat>): (m: map<MoveClassification, MoveStat>)
    ensures forall c :: c in m <==> exists s :: s in stats && s.kind == c
    ensures forall c :: c in m ==> m[c] in stats && m[c].kind == c
  {
    if stats == [] then map[]
    else
      var last := stats[|stats| - 1];
      var m := ByType(stats[..|stats| - 1]);
      assert forall s :: s in stats <==> s in stats[..|stats| - 1] || s == last by {
        assert stats == stats[..|stats| - 1] + [last];
      }
      m[last.kind := last]
  }

  /** One of the six fixed rows: the existing row of `moveStats`, or a zero row. */
  function FixedRow(stats: seq<MoveStat>, c: MoveClassification): MoveStat {
    var byType := ByType(stats);
    if c in byType then byType[c] else ZeroStat(c)
  }

  /** `moveStats.filter(...)` keeping the rows whose classification is not one of the
      six. */
  function OtherStats(stats: seq<MoveStat>): seq<MoveStat> {
    if stats == [] then []
    else
      var last := stats[|stats| - 1];
      OtherStats(stats[..|stats| - 1]) + (if IsImportant(last.kind) then [] else [last])
  }

  /** The rows kept are exactly the rows of the other classifications. */
  lemma {:induction false} OtherStatsMembers(stats: seq<MoveStat>)
    ensures forall s :: s in OtherStats(stats) <==> s in stats && !IsImportant(s.kind)
  {
    if stats != [] {
      OtherStatsMembers(stats[..|stats| - 1]);
      assert stats == stats[..|stats| - 1] + [stats[|stats| - 1]];
    }
  }

  /** Filtering a concatenation filters each part and keeps them in order. */
  lemma {:induction false} OtherStatsAppend(a: seq<MoveStat>, b: seq<MoveStat>)
    ensures OtherStats(a + b) == OtherStats(a) + OtherStats(b)
  {
    if b == [] {
      assert a + b == a;
    } else {
      var front, last := b[..|b| - 1], b[|b| - 1];
      OtherStatsAppend(a, front);
      var ab := a + b;
      assert ab[..|ab| - 1] == a + front && ab[|ab| - 1] == last;
    }
  }

  /** A single row is kept exactly when its classification is not one of the six. */
  lemma OtherStatsSingle(s: MoveStat)
    ensures OtherStats([s]) == if IsImportant(s.kind) then [] else [s]
  {
    assert [s][..0] == [];
  }

  /** `getDisplayStats`: always the six important classifications in fixed order, then,
      with `showMore`, the remaining rows of `moveStats` in their order. */
  function DisplayStats(stats: seq<MoveStat>, showMore: bool): (r: seq<MoveStat>)
    ensures |r| >= 6
    ensures forall i :: 0 <= i < 6 ==> r[i].kind == ImportantOrder[i]
    ensures forall i :: 0 <= i < 6 ==>
      (if exists s :: s in stats && s.kind == ImportantOrder[i] then r[i] in stats
       else r[i] == ZeroStat(ImportantOrder[i]))
    ensures showMore ==> r[6..] == OtherStats(stats)
    ensures !showMore ==> |r| == 6
  {
    var fixed := seq(6, i requires 0 <= i < 6 => FixedRow(stats, ImportantOrder[i]));
    if showMore then fixed + OtherStats(stats) else fixed
  }

  /** Applied to the tally, the six fixed rows report exactly the per-side counts of their
      classification, zero when it was never tallied; the rows after them are the tallied
      rows of the other classifications. */
  lemma DisplayOfTally(gameEval: Option<GameEval>, showMore: bool, i: nat)
    requires i < 6
    ensures var ps := PositionsOf(gameEval);
      var row := DisplayStats(MoveStats(gameEval), showMore)[i];
      row.kind == ImportantOrder[i] &&
      row.whiteCount == SideCount(ps, |ps|, ImportantOrder[i], true) &&
      row.blackCount == SideCount(ps, |ps|, ImportantOrder[i], false)
    ensures forall s :: s in DisplayStats(MoveStats(gameEval), showMore)[6..] ==>
      s in MoveStats(gameEval) && !IsImportant(s.kind)
  {
    var ps := PositionsOf(gameEval);
    var stats := MoveStats(gameEval);
    var c := ImportantOrder[i];
    MoveStatsRows(gameEval);
    StatsOfRows(ps, EnumMembers);
    OtherStatsMembers(stats);
    var row := DisplayStats(stats, showMore)[i];
    if !(exists s :: s in stats && s.kind == c) {
      EnumMembersExact(c);
      assert !Nonzero(StatOf(ps, c));
    }
  }

  /** The button that reveals the other rows is shown only when `moveStats` has more than
      six rows. */
  predicate ShowMoreButton(stats: seq<MoveStat>) {
    |stats| > 6
  }

  /** The number of the six important classifications among `kinds`. */
  function ImportantCount(kinds: seq<MoveClassification>): nat {
    if kinds == [] then 0
    else ImportantCount(kinds[..|kinds| - 1]) + (if IsImportant(kinds[|kinds| - 1]) then 1 else 0)
  }

  /** Rows beyond the important classifications listed are rows `OtherStats` keeps. */
  lemma {:induction false} RowsBeyondImportant(ps: seq<PositionEval>, kinds: seq<MoveClassification>)
    ensures |StatsOf(ps, kinds)| <= |OtherStats(StatsOf(ps, kinds))| + ImportantCount(kinds)
  {
    if kinds != [] {
      var front := kinds[..|kinds| - 1];
      var last := StatOf(ps, kinds[|kinds| - 1]);
      RowsBeyondImportant(ps, front);
      if Nonzero(last) {
        OtherStatsAppend(StatsOf(ps, front), [last]);
        OtherStatsSingle(last);
      } else {
        assert StatsOf(ps, kinds) == StatsOf(ps, front) + [] == StatsOf(ps, front);
        assert ImportantCount(kinds) >= ImportantCount(front);
      }
    }
  }

  /** Six of the ten enum members are important. */
  lemma EnumImportantCount()
    ensures ImportantCount(EnumMembers) == 6
  {
    var e := EnumMembers;
    assert e[..0] == [];
    assert ImportantCount(e[..1]) == 1 by { assert e[..1][..0] == e[..0]; }
    assert ImportantCount(e[..2]) == 2 by { assert e[..2][..1] == e[..1]; }
    assert ImportantCount(e[..3]) == 3 by { assert e[..3][..2] == e[..2]; }
    assert ImportantCount(e[..4]) == 3 by { assert e[..4][..3] == e[..3]; }
    assert ImportantCount(e[..5]) == 3 by { assert e[..5][..4] == e[..4]; }
    assert ImportantCount(e[..6]) == 4 by { assert e[..6][..5] == e[..5]; }
    assert ImportantCount(e[..7]) == 4 by { assert e[..7][..6] == e[..6]; }
    assert ImportantCount(e[..8]) == 4 by { assert e[..8][..7] == e[..7]; }
    assert ImportantCount(e[..9]) == 5 by { assert e[..9][..8] == e[..8]; }
    assert ImportantCount(e) == 6 by { assert e[..9] == e[..|e| - 1]; }
  }

  /** Whenever the button is shown, showing more does reveal at least one row. */
  lemma ShowMoreRevealsRows(gameEval: Option<GameEval>)
    ensures ShowMoreButton(MoveStats(gameEval)) ==> OtherStats(MoveStats(gameEval)) != []
  {
    RowsBeyondImportant(PositionsOf(gameEval), EnumMembers);
    EnumImportantCount();
  }

  /** The positions of a game whose only move is classified Excellent. */
  const OneExcellent: seq<PositionEval> := [PositionEval(None), PositionEval(Some(Excellent))]

  /** In that game only Excellent has a nonzero row: one White move. */
  lemma OneExcellentStatOf(c: MoveClassification)
    ensures StatOf(OneExcellent, c) ==
      if c == Excellent then MoveStat(Excellent, ClassificationIcon(Excellent), 1, 0) else ZeroStat(c)
  {
    var ps := OneExcellent;
    assert SideCount(ps, 1, c, true) == 0 && SideCount(ps, 1, c, false) == 0;
  }

  /** The rows for a concatenation of classification lists are the rows of each list, in
      order. */
  lemma {:induction false} StatsOfAppend(ps: seq<PositionEval>, a: seq<MoveClassification>, b: seq<MoveClassification>)
    ensures StatsOf(ps, a + b) == StatsOf(ps, a) + StatsOf(ps, b)
  {
    if b == [] {
      assert a + b == a;
    } else {
      var front := b[..|b| - 1];
      StatsOfAppend(ps, a, front);
      var ab := a + b;
      assert ab[..|ab| - 1] == a + front && ab[|ab| - 1] == b[|b| - 1];
    }
  }

  /** Classifications never tallied give no rows. */
  lemma {:induction false} StatsOfZero(ps: seq<PositionEval>, kinds: seq<MoveClassification>)
    requires forall i :: 0 <= i < |kinds| ==> !Nonzero(StatOf(ps, kinds[i]))
    ensures StatsOf(ps, kinds) == []
  {
    if kinds != [] {
      StatsOfZero(ps, kinds[..|kinds| - 1]);
    }
  }

  lemma OneExcellentMoveStats()
    ensures StatsOf(OneExcellent, EnumMembers) == [StatOf(OneExcellent, Excellent)]
  {
    var ps := OneExcellent;
    var before, after := [Blunder, Mistake, Inaccuracy, Okay], [Best, Forced, Opening, Perfect, Splendid];
    assert EnumMembers == before + [Excellent] + after;
    forall i | 0 <= i < |before| ensures !Nonzero(StatOf(ps, before[i])) {
      OneExcellentStatOf(before[i]);
    }
    forall i | 0 <= i < |after| ensures !Nonzero(StatOf(ps, after[i])) {
      OneExcellentStatOf(after[i]);
    }
    StatsOfZero(ps, before);
    StatsOfZero(ps, after);
    OneExcellentStatOf(Excellent);
    assert StatsOf(ps, [Excellent]) == [StatOf(ps, Excellent)] by { assert [Excellent][..0] == []; }
    StatsOfAppend(ps, before, [Excellent]);
    StatsOfAppend(ps, before + [Excellent], after);
  }

  /** The converse fails: a game whose only classified move is one Excellent move has a
      single row, of a classification outside the six, and no button to reveal it. */
  lemma OtherRowWithoutButton()
    ensures var g := Some(GameEval(OneExcellent, Accuracy(0.0, 0.0), None));
      MoveStats(g) == [MoveStat(Excellent, ClassificationIcon(Excellent), 1, 0)] &&
      OtherStats(MoveStats(g)) == MoveStats(g) && !ShowMoreButton(MoveStats(g))
  {
    OneExcellentMoveStats();
    OneExcellentStatOf(Excellent);
    OtherStatsSingle(StatOf(OneExcellent, Excellent));
  }

  // ---- One analysis run --------------------------------------------------------------

  /** What the modal shows: the progress bar while analysing, the summary once the run is
      complete and an evaluation exists, nothing otherwise. */
  datatype ModalBody = Progress | Summary | Blank

  /** The modal's state and the two shared cells it writes (`gameEvalAtom`,
      `evaluationProgressAtom`). `engineCalls` counts the calls made to the engine. */
  class GameAnalysisModal {
    var open: bool
    var isAnalyzing: bool
    var analysisComplete: bool
    var showMore: bool
    var gameEval: Option<GameEval>
    var evaluationProgress: real
    var engineCalls: nat

    constructor (isOpen: bool, currentEval: Option<GameEval>, progress: real)
      ensures open == isOpen && !isAnalyzing && !analysisComplete && !showMore
      ensures gameEval == currentEval && evaluationProgress == progress && engineCalls == 0
    {
      open := isOpen;
      isAnalyzing, analysisComplete, showMore := false, false, false;
      gameEval, evaluationProgress, engineCalls := currentEval, progress, 0;
    }

    /** A change of `open` and the effect keyed on it: opening a closed modal clears the
        run flags and `showMore`; closing it, or setting `open` to the value it already
        has, leaves them as they are. */
    method SetOpen(isOpen: bool)
      modifies this
      ensures open == isOpen
      ensures isOpen && !old(open) ==> !isAnalyzing && !analysisComplete && !showMore
      ensures !(isOpen && !old(open)) ==>
        isAnalyzing == old(isAnalyzing) && analysisComplete == old(analysisComplete) && showMore == old(showMore)
      ensures gameEval == old(gameEval) && evaluationProgress == old(evaluationProgress)
      ensures engineCalls == old(engineCalls)
    {
      if isOpen && !open {
        isAnalyzing, analysisComplete, showMore := false, false, false;
      }
      open := isOpen;
    }

    /** The effect that starts a run: only while open, for a game with moves, and when no
        run is in progress or complete. */
    method TryStart(historyLength: nat) returns (started: bool)
      modifies this
      ensures started == (open && historyLength > 0 && !old(isAnalyzing) && !old(analysisComplete))
      ensures isAnalyzing == (old(isAnalyzing) || started)
      ensures analysisComplete == old(analysisComplete) && showMore == old(showMore) && open == old(open)
      ensures gameEval == old(gameEval) && evaluationProgress == old(evaluationProgress)
      ensures engineCalls == old(engineCalls)
    {
      started := open && historyLength > 0 && !isAnalyzing && !analysisComplete;
      if started {
        isAnalyzing := true;
      }
    }

    /** The body of the started run, once the engine is ready. `fens` is the number of
        positions `getEvaluateGameParams` produced (`None` if it threw); `result` is what
        the engine returned (`None` if it threw). Whatever happens the run ends not
        analysing and complete; only a successful engine call stores the evaluation and
        resets the progress; without positions the engine is not called. */
    method FinishRun(fens: Option<nat>, result: Option<GameEval>)
      modifies this
      ensures !isAnalyzing && analysisComplete
      ensures engineCalls == old(engineCalls) + (if fens.Some? && fens.value > 0 then 1 else 0)
      ensures fens.Some? && fens.value > 0 && result.Some? ==>
                gameEval == result && evaluationProgress == 0.0
      ensures !(fens.Some? && fens.value > 0 && result.Some?) ==>
                gameEval == old(gameEval) && evaluationProgress == old(evaluationProgress)
      ensures open == old(open) && showMore == old(showMore)
    {
      if fens.None? {
        // getEvaluateGameParams threw: caught like an engine failure
        isAnalyzing, analysisComplete := false, true;
        return;
      }
      if fens.value == 0 {
        isAnalyzing, analysisComplete := false, true;
        return;
      }
      engineCalls := engineCalls + 1;
      if result.None? {
        isAnalyzing, analysisComplete := false, true;
        return;
      }
      gameEval := result;
      evaluationProgress := 0.0;
      isAnalyzing, analysisComplete := false, true;
    }

    /** The show-more button, which exists only in the summary and only when `moveStats`
        has more than six rows, flips `showMore`. */
    method ToggleShowMore()
      requires Body() == Summary && ShowMoreButton(MoveStats(gameEval))
      modifies this`showMore
      ensures showMore == !old(showMore)
    {
      showMore := !showMore;
    }

    /** The body of the modal. */
    function Body(): (b: ModalBody)
      reads this
      ensures b == Progress <==> isAnalyzing
      ensures b == Summary <==> !isAnalyzing && analysisComplete && gameEval.Some?
    {
      if isAnalyzing then Progress
      else if analysisComplete && gameEval.Some? then Summary
      else Blank
    }

    /** The "Start Review" button is shown once the run is complete. */
    predicate StartReviewShown()
      reads this
    {
      analysisComplete
    }

    /** The rows the summary shows for the current evaluation and `showMore`. */
    function Rows(): (r: seq<MoveStat>)
      reads this
      ensures |r| == 6 <==> !showMore || OtherStats(MoveStats(gameEval)) == []
    {
      DisplayStats(MoveStats(gameEval), showMore)
    }
  }

  /** A closed modal opened on a game with moves runs the analysis once: the run always
      ends complete, and a second start attempt then does nothing. */
  method RunOnce(m: GameAnalysisModal, historyLength: nat, fens: Option<nat>, result: Option<GameEval>)
    returns (startedAgain: bool)
    requires !m.open && historyLength > 0
    modifies m
    ensures m.analysisComplete && !m.isAnalyzing && m.StartReviewShown()
    ensures !startedAgain
  {
    m.SetOpen(true);
    var started := m.TryStart(historyLength);
    assert started;
    m.FinishRun(fens, result);
    startedAgain := m.TryStart(historyLength);
  }
}
