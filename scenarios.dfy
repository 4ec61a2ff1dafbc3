/** Concrete sessions, played on the board that the identity shuffles deal:
    there box (x, y) holds catalogue icon (x * 6 + y) mod 24, so boxes (k, y)
    and (k + 4, y) form a pair. */
module Scenarios {
  import opened Config
  import opened Wrappers
  import opened Icons
  import opened Grid
  import opened Generator
  import opened Geometry
  import opened Game

  /// Clicks the top-left pixel of box `c`.
  method ClickBox(s: Session, c: Cell) returns (ev: ClickEvent)
    requires s.Valid() && InBoard(c)
    modifies s
    ensures s.Valid()
    ensures BoxAt(LeftTopCoordsOfBox(c.0, c.1).0, LeftTopCoordsOfBox(c.0, c.1).1) == Some(c)
    ensures ev.Ignored? <==> At(old(s.revealed), c)
    ensures ev.Ignored? ==>
      && s.board == old(s.board) && s.revealed == old(s.revealed)
      && s.firstSelection == old(s.firstSelection) && s.score == old(s.score) && s.streak == old(s.streak)
    ensures ev.Selected? ==>
      && old(s.firstSelection) == None && ev.cell == c && s.board == old(s.board)
      && s.revealed == Update(old(s.revealed), c, true) && s.firstSelection == Some(c)
      && s.score == old(s.score) && s.streak == old(s.streak)
    ensures ev.IsPair() ==> old(s.firstSelection) == Some(ev.first) && ev.second == c && s.firstSelection == None
    ensures ev.Mismatched? ==>
      && At(old(s.board), ev.first) != At(old(s.board), c) && s.board == old(s.board)
      && s.revealed == Update(Update(old(s.revealed), ev.first, false), c, false)
      && s.streak == 0 && s.score == Scoring.Max(old(s.score) - 2, 0)
    ensures ev.Matched? ==>
      && At(old(s.board), ev.first) == At(old(s.board), c)
      && !AllRevealed(Update(old(s.revealed), c, true))
      && s.board == old(s.board) && s.revealed == Update(old(s.revealed), c, true)
      && s.streak == Scoring.Min(old(s.streak) + 1, Scoring.MaxStreak) && s.score == old(s.score) + 5 * s.streak
    ensures ev.Won? ==> At(old(s.board), ev.first) == At(old(s.board), c) && AllRevealed(Update(old(s.revealed), c, true))
    ensures old(s.Stranded()) ==> !ev.Won? && s.Stranded()
  {
    PixelRoundTrip(c);
    var (x, y) := LeftTopCoordsOfBox(c.0, c.1);
    ev := s.Click(x, y, Identity(|Catalogue()|), Identity(BoardWidth * BoardHeight));
  }

  /// The icon of box `c` on the board dealt by the identity shuffles.
  lemma IdentityBoardAt(c: Cell)
    requires InBoard(c)
    ensures var board := DealtBoard(Identity(|Catalogue()|), Identity(BoardWidth * BoardHeight));
            At(board, c) == Catalogue()[if Flat(c) < NumIconsUsed then Flat(c) else Flat(c) - NumIconsUsed]
  {
    var p1, p2 := Identity(|Catalogue()|), Identity(BoardWidth * BoardHeight);
    var chosen := Shuffled(Catalogue(), p1)[..NumIconsUsed];
    var k := Flat(c);
    assert 0 <= k < BoardWidth * BoardHeight;
    assert At(DealtBoard(p1, p2), c) == Deck(p1, p2)[k];
    assert Deck(p1, p2)[k] == (chosen + chosen)[k];
    var j := if k < NumIconsUsed then k else k - NumIconsUsed;
    assert (chosen + chosen)[k] == chosen[j];
    assert chosen[j] == Catalogue()[j];
  }

  /// The boxes of the first `k` rows of columns 0 and 4 are revealed, and only they.
  ghost predicate FirstRowsOfPairsRevealed(revealed: seq<seq<bool>>, k: int)
  {
    IsGrid(revealed) && forall c :: InBoard(c) ==> At(revealed, c) == ((c.0 == 0 || c.0 == 4) && c.1 < k)
  }

  /// Plays the pair of row k: box (0, k), then its partner (4, k).
  method PlayMatchingPair(s: Session, k: int)
    requires s.Valid() && 0 <= k < 3
    requires s.board == DealtBoard(Identity(|Catalogue()|), Identity(BoardWidth * BoardHeight))
    requires s.firstSelection == None && s.streak == k && FirstRowsOfPairsRevealed(s.revealed, k)
    modifies s
    ensures s.Valid() && s.board == old(s.board) && s.firstSelection == None
    ensures s.streak == k + 1 && s.score == old(s.score) + 5 * (k + 1)
    ensures FirstRowsOfPairsRevealed(s.revealed, k + 1)
  {
    IdentityBoardAt((0, k));
    IdentityBoardAt((4, k));
    var first := ClickBox(s, (0, k));
    assert first.Selected? && s.firstSelection == Some((0, k));
    ghost var mid := s.revealed;
    assert !At(mid, (7, 5)) && !At(mid, (4, k));
    var second := ClickBox(s, (4, k));
    assert !second.Ignored? && !second.Selected? && !second.Mismatched?;
    assert !AllRevealed(Update(mid, (4, k), true)) by {
      assert At(Update(mid, (4, k), true), (7, 5)) == At(mid, (7, 5));
    }
    assert second.Matched?;
    assert FirstRowsOfPairsRevealed(s.revealed, k + 1) by {
      forall c | InBoard(c) ensures At(s.revealed, c) == ((c.0 == 0 || c.0 == 4) && c.1 < k + 1) {
        assert c != (4, k) ==> At(s.revealed, c) == At(mid, c);
      }
    }
  }

  /** Three matches in a row from a new session score 5, 15 and 30 points; a
      mismatch after them resets the streak and leaves 28. */
  method ScoringSequence() returns (scores: seq<int>)
    ensures scores == [5, 15, 30, 28]
  {
    var p1, p2 := Identity(|Catalogue()|), Identity(BoardWidth * BoardHeight);
    var s := new Session(p1, p2);
    scores := [];
    var k := 0;
    while k < 3
      invariant 0 <= k <= 3 && s.Valid()
      invariant s.board == DealtBoard(p1, p2) && s.firstSelection == None
      invariant s.streak == k && s.score == [0, 5, 15, 30][k]
      invariant FirstRowsOfPairsRevealed(s.revealed, k)
      invariant scores == [5, 15, 30][..k]
      modifies s
    {
      PlayMatchingPair(s, k);
      scores := scores + [s.score];
      k := k + 1;
    }
    IdentityBoardAt((0, 3));
    IdentityBoardAt((0, 4));
    assert Catalogue()[3] == Icon(Lines, Red) && Catalogue()[4] == Icon(Oval, Red);
    var first := ClickBox(s, (0, 3));
    assert first.Selected? && !At(s.revealed, (0, 4));
    assert At(s.board, (0, 3)) != At(s.board, (0, 4));
    var second := ClickBox(s, (0, 4));
    assert second.Mismatched?;
    scores := scores + [s.score];
  }

  /** The timeout keeps the pending selection while it hides every box. Then
      a click on the selected box again is compared with itself: a match of one
      box, after which that box is revealed without its partner. The session is
      then stranded, so by the contract of Click no later click wins this board. */
  method SelfMatchAfterTimeout() returns (ev: ClickEvent, ghost consistentAfter: bool, ghost strandedAfter: bool)
    ensures ev == Matched((0, 0), (0, 0))
    ensures !consistentAfter && strandedAfter
  {
    var p1, p2 := Identity(|Catalogue()|), Identity(BoardWidth * BoardHeight);
    var s := new Session(p1, p2);
    var first := ClickBox(s, (0, 0));
    var finalScore := s.Timeout(p1, p2);
    assert !At(s.revealed, (7, 5));
    ev := ClickBox(s, (0, 0));
    assert At(s.revealed, (0, 0)) && s.firstSelection == None;
    assert !HasRevealedPartner(s.board, s.revealed, None, (0, 0));
    consistentAfter := s.Consistent();
    assert Orphan(s.board, s.revealed, None, (0, 0));
    strandedAfter := s.Stranded();
  }
}
