/** One game session: the body of the game's main loop as a state machine.
    A session holds the board, the reveal grid, the pending first selection,
    the score, the streak and the countdown. A click on a box and the expiry
    of the countdown are the two events that change it. */
module Game {
  import opened Config
  import opened Wrappers
  import opened Icons
  import opened Grid
  import opened Generator
  import opened Geometry
  import opened Scoring

  /** What a click did: nothing, a first selection, or the evaluation of a
      pair (a mismatch, a match, or the match that wins, with the score the
      end screen is shown). */
  datatype ClickEvent =
    | Ignored
    | Selected(cell: Cell)
    | Mismatched(first: Cell, second: Cell)
    | Matched(first: Cell, second: Cell)
    | Won(first: Cell, second: Cell, finalScore: int)
  {
    predicate IsPair() { Mismatched? || Matched? || Won? }
  }

  /// The pending selection, if any, is a revealed box.
  ghost predicate SelectionRevealed(revealed: seq<seq<bool>>, first: Option<Cell>)
    requires IsGrid(revealed)
  {
    first.Some? ==> InBoard(first.value) && At(revealed, first.value)
  }

  /// Another revealed box, not the pending selection, shows the icon of box `c`.
  ghost predicate HasRevealedPartner(board: seq<seq<Icon>>, revealed: seq<seq<bool>>, first: Option<Cell>, c: Cell)
    requires IsGrid(board) && IsGrid(revealed) && InBoard(c)
  {
    exists d :: InBoard(d) && d != c && At(revealed, d) && first != Some(d) && At(board, d) == At(board, c)
  }

  /** Apart from the pending selection, the revealed boxes are found pairs:
      each has a revealed partner with the same icon. */
  ghost predicate PairsClosed(board: seq<seq<Icon>>, revealed: seq<seq<bool>>, first: Option<Cell>)
    requires IsGrid(board) && IsGrid(revealed)
  {
    forall c {:trigger HasRevealedPartner(board, revealed, first, c)} ::
      InBoard(c) && At(revealed, c) && first != Some(c) ==> HasRevealedPartner(board, revealed, first, c)
  }

  lemma NothingRevealedIsClosed(board: seq<seq<Icon>>, first: Option<Cell>)
    requires IsGrid(board)
    ensures IsGrid(Filled(false)) && PairsClosed(board, Filled(false), first)
  {
  }

  /// Revealing a first selection keeps the found pairs closed.
  lemma {:induction false} FirstSelectionKeepsPairs(board: seq<seq<Icon>>, revealed: seq<seq<bool>>, c: Cell)
    requires IsGrid(board) && IsGrid(revealed) && InBoard(c) && !At(revealed, c)
    requires PairsClosed(board, revealed, None)
    ensures PairsClosed(board, Update(revealed, c, true), Some(c))
  {
    var r := Update(revealed, c, true);
    forall d | InBoard(d) && At(r, d) && Some(c) != Some(d) ensures HasRevealedPartner(board, r, Some(c), d) {
      assert HasRevealedPartner(board, revealed, None, d);
      var e :| InBoard(e) && e != d && At(revealed, e) && None != Some(e) && At(board, e) == At(board, d);
      assert At(r, e) && Some(c) != Some(e);
    }
  }

  /// Re-covering a mismatched pair keeps the found pairs closed.
  lemma {:induction false} MismatchKeepsPairs(board: seq<seq<Icon>>, revealed: seq<seq<bool>>, c1: Cell, c2: Cell)
    requires IsGrid(board) && IsGrid(revealed) && InBoard(c1) && InBoard(c2) && !At(revealed, c2)
    requires PairsClosed(board, revealed, Some(c1))
    ensures PairsClosed(board, Update(Update(revealed, c1, false), c2, false), None)
  {
    var r := Update(Update(revealed, c1, false), c2, false);
    forall d | InBoard(d) && At(r, d) && None != Some(d) ensures HasRevealedPartner(board, r, None, d) {
      assert HasRevealedPartner(board, revealed, Some(c1), d);
      var e :| InBoard(e) && e != d && At(revealed, e) && Some(c1) != Some(e) && At(board, e) == At(board, d);
      assert At(r, e);
    }
  }

  /// Keeping a matched pair revealed closes it.
  lemma {:induction false} MatchKeepsPairs(board: seq<seq<Icon>>, revealed: seq<seq<bool>>, c1: Cell, c2: Cell)
    requires IsGrid(board) && IsGrid(revealed) && InBoard(c1) && InBoard(c2)
    requires At(revealed, c1) && !At(revealed, c2) && At(board, c1) == At(board, c2)
    requires PairsClosed(board, revealed, Some(c1))
    ensures PairsClosed(board, Update(revealed, c2, true), None)
  {
    var r := Update(revealed, c2, true);
    forall d | InBoard(d) && At(r, d) && None != Some(d) ensures HasRevealedPartner(board, r, None, d) {
      if d == c1 {
        assert At(r, c2) && c2 != c1;
      } else if d == c2 {
        assert At(r, c1);
      } else {
        assert HasRevealedPartner(board, revealed, Some(c1), d);
        var e :| InBoard(e) && e != d && At(revealed, e) && Some(c1) != Some(e) && At(board, e) == At(board, d);
        assert At(r, e);
      }
    }
  }

  /** On a paired board with the found pairs closed, the last hidden box is
      the partner of the pending selection: choosing it is always a match,
      and that match reveals the whole board. */
  lemma {:induction false} LastBoxCompletesPair(board: seq<seq<Icon>>, revealed: seq<seq<bool>>, c1: Cell, c2: Cell)
    requires IsGrid(board) && Paired(board) && IsGrid(revealed) && InBoard(c1) && InBoard(c2)
    requires At(revealed, c1) && !At(revealed, c2)
    requires forall d :: InBoard(d) && d != c2 ==> At(revealed, d)
    requires PairsClosed(board, revealed, Some(c1))
    ensures At(board, c1) == At(board, c2)
    ensures AllRevealed(Update(revealed, c2, true))
  {
    assert HasPartnerBox(board, c1);
    var p :| InBoard(p) && p != c1 && At(board, p) == At(board, c1);
    assert p != c2 ==> HasRevealedPartner(board, revealed, Some(c1), p);
    if p != c2 {
      assert false;
    }
    var r := Update(revealed, c2, true);
    WonIffEveryCell(r);
  }

  /** Box `o` is stranded: it is revealed and not the pending selection, but
      every other box with its icon is hidden or is the pending selection. */
  ghost predicate Orphan(board: seq<seq<Icon>>, revealed: seq<seq<bool>>, first: Option<Cell>, o: Cell)
    requires IsGrid(board) && IsGrid(revealed)
  {
    && InBoard(o) && At(revealed, o) && first != Some(o)
    && forall p :: InBoard(p) && p != o && At(board, p) == At(board, o) ==> !At(revealed, p) || first == Some(p)
  }

  /// Some box of the board is stranded.
  ghost predicate HasOrphan(board: seq<seq<Icon>>, revealed: seq<seq<bool>>, first: Option<Cell>)
    requires IsGrid(board) && IsGrid(revealed)
  {
    exists o :: Orphan(board, revealed, first, o)
  }

  /** With a stranded box on a paired board, a match never reveals the whole
      board: the stranded box's partner is the pending box or still hidden. */
  lemma {:induction false} OrphanBlocksWin(board: seq<seq<Icon>>, revealed: seq<seq<bool>>, c1: Cell, c2: Cell, o: Cell)
    requires IsGrid(board) && Paired(board) && IsGrid(revealed) && InBoard(c1) && InBoard(c2)
    requires At(revealed, c1) && !At(revealed, c2) && At(board, c1) == At(board, c2)
    requires Orphan(board, revealed, Some(c1), o)
    ensures !AllRevealed(Update(revealed, c2, true))
  {
    var r := Update(revealed, c2, true);
    WonIffEveryCell(r);
    assert HasPartnerBox(board, o);
    var p :| InBoard(p) && p != o && At(board, p) == At(board, o);
    assert AllRevealed(r) ==> p == c1 || p == c2;
    assert At(board, o) != At(board, c1);
  }

  /// A first selection leaves a stranded box stranded.
  lemma {:induction false} OrphanAfterSelection(board: seq<seq<Icon>>, revealed: seq<seq<bool>>, c: Cell, o: Cell)
    requires IsGrid(board) && IsGrid(revealed) && InBoard(c) && !At(revealed, c)
    requires Orphan(board, revealed, None, o)
    ensures Orphan(board, Update(revealed, c, true), Some(c), o)
  {
    var r := Update(revealed, c, true);
    forall p | InBoard(p) && p != o && At(board, p) == At(board, o) ensures !At(r, p) || Some(c) == Some(p) {
      assert p != c ==> At(r, p) == At(revealed, p);
    }
  }

  /// A mismatch leaves a stranded box stranded.
  lemma {:induction false} OrphanAfterMismatch(board: seq<seq<Icon>>, revealed: seq<seq<bool>>, c1: Cell, c2: Cell, o: Cell)
    requires IsGrid(board) && IsGrid(revealed) && InBoard(c1) && InBoard(c2) && !At(revealed, c2)
    requires Orphan(board, revealed, Some(c1), o)
    ensures Orphan(board, Update(Update(revealed, c1, false), c2, false), None, o)
  {
    var r := Update(Update(revealed, c1, false), c2, false);
    assert At(r, o);
    forall p | InBoard(p) && p != o && At(board, p) == At(board, o) ensures !At(r, p) {
      assert p != c1 && p != c2 ==> At(r, p) == At(revealed, p);
    }
  }

  /** A match on a paired board leaves a stranded box stranded: neither box of
      the pair can be its partner, or three boxes would share an icon. */
  lemma {:induction false} OrphanAfterMatch(board: seq<seq<Icon>>, revealed: seq<seq<bool>>, c1: Cell, c2: Cell, o: Cell)
    requires IsGrid(board) && Paired(board) && IsGrid(revealed) && InBoard(c1) && InBoard(c2)
    requires At(revealed, c1) && !At(revealed, c2) && At(board, c1) == At(board, c2)
    requires Orphan(board, revealed, Some(c1), o)
    ensures Orphan(board, Update(revealed, c2, true), None, o)
  {
    var r := Update(revealed, c2, true);
    assert At(board, o) != At(board, c1);
    forall p | InBoard(p) && p != o && At(board, p) == At(board, o) ensures !At(r, p) {
      assert p != c2 ==> At(r, p) == At(revealed, p);
    }
  }

  class Session {
    var board: seq<seq<Icon>>
    var revealed: seq<seq<bool>>
    var firstSelection: Option<Cell>
    var score: int
    var streak: int
    /** The countdown as the resets set it. Its per-frame decrease runs on a
        floating-point clock and is not modelled; expiry is the Timeout event. */
    var time: int

    /// The shapes of the state and the ranges its counters keep.
    ghost predicate Valid()
      reads this
    {
      && IsGrid(board) && Paired(board) && IsGrid(revealed)
      && (firstSelection.Some? ==> InBoard(firstSelection.value))
      && 0 <= streak <= MaxStreak && score >= 0
    }

    /** Valid, and the reveal grid agrees with the turn: the pending selection
        is revealed and every other revealed box belongs to a found pair. */
    ghost predicate Consistent()
      reads this
    {
      Valid() && SelectionRevealed(revealed, firstSelection) && PairsClosed(board, revealed, firstSelection)
    }

    /** Valid, the pending selection is revealed, and some revealed box is
        stranded: its partner can only be hidden or pending. */
    ghost predicate Stranded()
      reads this
    {
      Valid() && SelectionRevealed(revealed, firstSelection) && HasOrphan(board, revealed, firstSelection)
    }

    /// A new session: a fresh board, nothing revealed, no selection, no points, the full time.
    constructor (p1: seq<int>, p2: seq<int>)
      requires IsPermutation(p1, |Catalogue()|) && IsPermutation(p2, BoardWidth * BoardHeight)
      ensures Valid() && Consistent()
      ensures board == DealtBoard(p1, p2) && revealed == Filled(false)
      ensures firstSelection == None && score == 0 && streak == 0 && time == Runtime
    {
      var newBoard := GetRandomizedBoard(p1, p2);
      var newRevealed := GenerateRevealedBoxesData(false);
      board, revealed := newBoard, newRevealed;
      firstSelection := None;
      score := 0;
      streak := 0;
      time := Runtime;
      NothingRevealedIsClosed(newBoard, None);
    }

    /** A mouse click at pixel (mousex, mousey). The permutations are the two
        shuffles of the board that a winning match deals for the next session. */
    method Click(mousex: int, mousey: int, p1: seq<int>, p2: seq<int>) returns (ev: ClickEvent)
      requires Valid()
      requires IsPermutation(p1, |Catalogue()|) && IsPermutation(p2, BoardWidth * BoardHeight)
      modifies this
      ensures Valid()
      ensures old(Consistent()) ==> Consistent()
      // A click off every box, or on a revealed box, changes nothing.
      ensures ev.Ignored? <==> BoxAt(mousex, mousey).None? || At(old(revealed), BoxAt(mousex, mousey).value)
      ensures ev.Ignored? ==>
        && board == old(board) && revealed == old(revealed) && firstSelection == old(firstSelection)
        && score == old(score) && streak == old(streak) && time == old(time)
      // The first selection of a pair is revealed and remembered.
      ensures ev.Selected? ==>
        && old(firstSelection) == None && BoxAt(mousex, mousey) == Some(ev.cell)
        && board == old(board) && revealed == Update(old(revealed), ev.cell, true)
        && firstSelection == Some(ev.cell) && score == old(score) && streak == old(streak) && time == old(time)
      // A second selection evaluates the pair and clears the selection.
      ensures ev.IsPair() ==>
        && old(firstSelection) == Some(ev.first) && BoxAt(mousex, mousey) == Some(ev.second)
        && firstSelection == None
        && (old(SelectionRevealed(revealed, firstSelection)) ==> ev.first != ev.second)
      // In a consistent session, the pair that uncovers the last hidden box wins.
      ensures ev.IsPair() && old(Consistent()) && (forall d :: InBoard(d) && d != ev.second ==> At(old(revealed), d))
        ==> ev.Won?
      // A stranded box stays stranded, and no click wins while it does.
      ensures old(Stranded()) ==> !ev.Won? && Stranded()
      // A mismatch hides both boxes again, resets the streak and takes up to two points.
      ensures ev.Mismatched? ==>
        && At(old(board), ev.first) != At(old(board), ev.second)
        && board == old(board) && revealed == Update(Update(old(revealed), ev.first, false), ev.second, false)
        && streak == 0 && score == Max(old(score) - 2, 0) && time == old(time)
      // A match that leaves boxes hidden raises the streak, then scores five times it.
      ensures ev.Matched? ==>
        && At(old(board), ev.first) == At(old(board), ev.second)
        && !AllRevealed(Update(old(revealed), ev.second, true))
        && board == old(board) && revealed == Update(old(revealed), ev.second, true)
        && streak == Min(old(streak) + 1, MaxStreak) && score == old(score) + 5 * streak && time == old(time)
      // The winning match scores with the streak as it was, then a new session starts.
      ensures ev.Won? ==>
        && At(old(board), ev.first) == At(old(board), ev.second)
        && AllRevealed(Update(old(revealed), ev.second, true))
        && ev.finalScore == old(score) + 5 * Max(old(streak), 1)
        && board == DealtBoard(p1, p2) && revealed == Filled(false)
        && score == 0 && streak == 0 && time == Runtime
    {
      var box := GetBoxAtPixel(mousex, mousey);
      if box.None? {
        return Ignored;
      }
      var (boxx, boxy) := box.value;
      if revealed[boxx][boxy] {
        return Ignored;
      }
      ghost var before := revealed;
      revealed := Update(revealed, (boxx, boxy), true);
      if firstSelection.None? {
        FirstSelectionPreserves(before, (boxx, boxy));
        firstSelection := Some((boxx, boxy));
        return Selected((boxx, boxy));
      }
      ev := ResolvePair(firstSelection.value, (boxx, boxy), before, p1, p2);
    }

    /** The second selection of a pair, once box `second` is revealed on top of
        the grid `before`: compare the two icons, then re-cover, score, or win. */
    method ResolvePair(first: Cell, second: Cell, ghost before: seq<seq<bool>>, p1: seq<int>, p2: seq<int>)
      returns (ev: ClickEvent)
      requires Valid() && IsGrid(before) && InBoard(second) && !At(before, second)
      requires firstSelection == Some(first) && revealed == Update(before, second, true)
      requires IsPermutation(p1, |Catalogue()|) && IsPermutation(p2, BoardWidth * BoardHeight)
      modifies this
      ensures Valid()
      ensures SelectionRevealed(before, Some(first)) && PairsClosed(old(board), before, Some(first)) ==> Consistent()
      ensures ev.IsPair() && ev.first == first && ev.second == second && firstSelection == None
      ensures
        && SelectionRevealed(before, Some(first)) && PairsClosed(old(board), before, Some(first))
        && (forall d :: InBoard(d) && d != second ==> At(before, d))
        ==> ev.Won?
      ensures SelectionRevealed(before, Some(first)) && HasOrphan(old(board), before, Some(first)) ==> !ev.Won? && Stranded()
      ensures ev.Mismatched? ==>
        && At(old(board), first) != At(old(board), second)
        && board == old(board) && revealed == Update(Update(before, first, false), second, false)
        && streak == 0 && score == Max(old(score) - 2, 0) && time == old(time)
      ensures ev.Matched? ==>
        && At(old(board), first) == At(old(board), second) && !AllRevealed(old(revealed))
        && board == old(board) && revealed == old(revealed)
        && streak == Min(old(streak) + 1, MaxStreak) && score == old(score) + 5 * streak && time == old(time)
      ensures ev.Won? ==>
        && At(old(board), first) == At(old(board), second) && AllRevealed(old(revealed))
        && ev.finalScore == old(score) + 5 * Max(old(streak), 1)
        && board == DealtBoard(p1, p2) && revealed == Filled(false)
        && score == 0 && streak == 0 && time == Runtime
    {
      LastBoxWins(before, first, second);
      StrandedNeverWins(before, first, second);
      var (icon1shape, icon1color) := GetShapeAndColor(board, first.0, first.1);
      var (icon2shape, icon2color) := GetShapeAndColor(board, second.0, second.1);
      if icon1shape != icon2shape || icon1color != icon2color {
        revealed := Update(revealed, first, false);
        revealed := Update(revealed, second, false);
        GridsEqual(revealed, Update(Update(before, first, false), second, false));
        score := ScoreAfterMismatch(score);
        streak := 0;
        ev := Mismatched(first, second);
        MismatchPreserves(before, first, second);
      } else {
        var won := HasWon(revealed);
        if !won {
          streak := StreakAfterMatch(streak);
          score := score + MatchPoints(streak);
          ev := Matched(first, second);
          MatchPreserves(before, first, second);
        } else {
          score := score + MatchPoints(streak);
          ev := Won(first, second, score);
          board := GetRandomizedBoard(p1, p2);
          revealed := GenerateRevealedBoxesData(false);
          NothingRevealedIsClosed(board, None);
          score := 0;
          streak := 0;
          time := Runtime;
        }
      }
      firstSelection := None;
    }

    /// Proof step of Click: the last hidden box completes the pending pair.
    lemma LastBoxWins(before: seq<seq<bool>>, c1: Cell, c2: Cell)
      requires Valid() && IsGrid(before) && InBoard(c1) && InBoard(c2) && !At(before, c2)
      requires revealed == Update(before, c2, true)
      ensures
        && SelectionRevealed(before, Some(c1)) && PairsClosed(board, before, Some(c1))
        && (forall d :: InBoard(d) && d != c2 ==> At(before, d))
        ==> At(board, c1) == At(board, c2) && AllRevealed(revealed)
    {
      if && SelectionRevealed(before, Some(c1)) && PairsClosed(board, before, Some(c1))
         && (forall d :: InBoard(d) && d != c2 ==> At(before, d))
      {
        LastBoxCompletesPair(board, before, c1, c2);
      }
    }

    /// Proof step of Click: a stranded box blocks the win.
    lemma StrandedNeverWins(before: seq<seq<bool>>, c1: Cell, c2: Cell)
      requires Valid() && IsGrid(before) && InBoard(c1) && InBoard(c2) && !At(before, c2)
      requires revealed == Update(before, c2, true)
      ensures
        && SelectionRevealed(before, Some(c1)) && HasOrphan(board, before, Some(c1))
        && At(board, c1) == At(board, c2)
        ==> !AllRevealed(revealed)
    {
      if SelectionRevealed(before, Some(c1)) && HasOrphan(board, before, Some(c1)) && At(board, c1) == At(board, c2) {
        var o :| Orphan(board, before, Some(c1), o);
        OrphanBlocksWin(board, before, c1, c2, o);
      }
    }

    /// Proof step of Click: the first selection keeps the session consistent, and stranded.
    lemma FirstSelectionPreserves(before: seq<seq<bool>>, c: Cell)
      requires Valid() && IsGrid(before) && InBoard(c) && !At(before, c)
      requires firstSelection == None && revealed == Update(before, c, true)
      ensures PairsClosed(board, before, None) ==> PairsClosed(board, revealed, Some(c))
      ensures HasOrphan(board, before, None) ==> HasOrphan(board, revealed, Some(c))
    {
      if PairsClosed(board, before, None) {
        FirstSelectionKeepsPairs(board, before, c);
      }
      if HasOrphan(board, before, None) {
        var o :| Orphan(board, before, None, o);
        OrphanAfterSelection(board, before, c, o);
      }
    }

    /// Proof step of Click: a mismatch keeps the session consistent.
    lemma MismatchPreserves(before: seq<seq<bool>>, c1: Cell, c2: Cell)
      requires IsGrid(board) && IsGrid(before) && InBoard(c1) && InBoard(c2) && !At(before, c2)
      requires revealed == Update(Update(before, c1, false), c2, false)
      ensures PairsClosed(board, before, Some(c1)) ==> PairsClosed(board, revealed, None)
      ensures HasOrphan(board, before, Some(c1)) ==> HasOrphan(board, revealed, None)
    {
      if PairsClosed(board, before, Some(c1)) {
        MismatchKeepsPairs(board, before, c1, c2);
      }
      if HasOrphan(board, before, Some(c1)) {
        var o :| Orphan(board, before, Some(c1), o);
        OrphanAfterMismatch(board, before, c1, c2, o);
      }
    }

    /// Proof step of Click: a match keeps the session consistent.
    lemma MatchPreserves(before: seq<seq<bool>>, c1: Cell, c2: Cell)
      requires IsGrid(board) && IsGrid(before) && InBoard(c1) && InBoard(c2) && !At(before, c2)
      requires At(board, c1) == At(board, c2) && revealed == Update(before, c2, true)
      ensures PairsClosed(board, before, Some(c1)) && At(before, c1) ==> PairsClosed(board, revealed, None)
      ensures Paired(board) && HasOrphan(board, before, Some(c1)) && At(before, c1) ==> HasOrphan(board, revealed, None)
    {
      if PairsClosed(board, before, Some(c1)) && At(before, c1) {
        MatchKeepsPairs(board, before, c1, c2);
      }
      if Paired(board) && HasOrphan(board, before, Some(c1)) && At(before, c1) {
        var o :| Orphan(board, before, Some(c1), o);
        OrphanAfterMatch(board, before, c1, c2, o);
      }
    }

    /** The countdown expired, as the game handles it: the end screen is shown
        the score (returned here), then a fresh board, nothing revealed, no
        points and the full time; the streak and the pending selection stay. */
    method Timeout(p1: seq<int>, p2: seq<int>) returns (finalScore: int)
      requires Valid()
      requires IsPermutation(p1, |Catalogue()|) && IsPermutation(p2, BoardWidth * BoardHeight)
      modifies this
      ensures Valid()
      ensures finalScore == old(score)
      ensures board == DealtBoard(p1, p2) && revealed == Filled(false)
      ensures score == 0 && time == Runtime
      ensures streak == old(streak) && firstSelection == old(firstSelection)
    {
      finalScore := score;
      board := GetRandomizedBoard(p1, p2);
      revealed := GenerateRevealedBoxesData(false);
      score := 0;
      time := Runtime;
    }

    /** The expiry of the countdown with the pending selection discarded as
        well: this resets to a consistent session. */
    method TimeoutDiscardingSelection(p1: seq<int>, p2: seq<int>) returns (finalScore: int)
      requires Valid()
      requires IsPermutation(p1, |Catalogue()|) && IsPermutation(p2, BoardWidth * BoardHeight)
      modifies this
      ensures Valid() && Consistent()
      ensures finalScore == old(score)
      ensures board == DealtBoard(p1, p2) && revealed == Filled(false)
      ensures score == 0 && time == Runtime
      ensures streak == old(streak) && firstSelection == None
    {
      finalScore := score;
      board := GetRandomizedBoard(p1, p2);
      revealed := GenerateRevealedBoxesData(false);
      NothingRevealedIsClosed(board, None);
      score := 0;
      time := Runtime;
      firstSelection := None;
    }
  }
}
