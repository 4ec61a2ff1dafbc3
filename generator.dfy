/** Board generation. The game shuffles twice with the random-number
    generator; here each shuffle is an arbitrary permutation given by the
    caller, so the facts below hold for every outcome of the shuffles. */
module Generator {
  import opened Config
  import opened Icons
  import opened Grid

  /** `p` lists every index below `n` exactly once: `Shuffled(s, p)` puts
      `s[p[i]]` at position i. */
  predicate IsPermutation(p: seq<int>, n: int) {
    && |p| == n
    && (forall i :: 0 <= i < |p| ==> 0 <= p[i] < n)
    && (forall i, j :: 0 <= i < j < |p| ==> p[i] != p[j])
    && (forall v :: 0 <= v < n ==> v in p)
  }

  function Shuffled<T>(s: seq<T>, p: seq<int>): seq<T>
    requires IsPermutation(p, |s|)
  {
    seq(|s|, i requires 0 <= i < |s| => s[p[i]])
  }

  /// The identity permutation: a shuffle that leaves the list as it is.
  function Identity(n: nat): (p: seq<int>)
    ensures IsPermutation(p, n)
  {
    var p := seq(n, i => i);
    forall v | 0 <= v < n ensures v in p {
      assert p[v] == v;
    }
    p
  }

  /// No value occurs twice in `s`.
  predicate Distinct<T(==)>(s: seq<T>) {
    forall i, j :: 0 <= i < j < |s| ==> s[i] != s[j]
  }

  /// Some other position of `s` holds the same value as position i.
  predicate HasPartner<T(==)>(s: seq<T>, i: int)
    requires 0 <= i < |s|
  {
    exists j :: 0 <= j < |s| && j != i && s[j] == s[i]
  }

  /** Each entry of `s` equals exactly one other entry: it has a partner, and
      no three positions hold the same value. */
  predicate EachTwice<T(==)>(s: seq<T>) {
    && (forall i :: 0 <= i < |s| ==> HasPartner(s, i))
    && (forall i, j, k :: 0 <= i < j < k < |s| ==> !(s[i] == s[j] && s[j] == s[k]))
  }

  /** In a list of distinct values doubled, two positions hold the same value
      exactly when they are equal or half the list apart. */
  lemma DoubledSameValue<T>(s: seq<T>, a: int, b: int)
    requires Distinct(s)
    requires 0 <= a < 2 * |s| && 0 <= b < 2 * |s|
    ensures (s + s)[a] == (s + s)[b] <==> a == b || a == b + |s| || b == a + |s|
  {
    var a' := if a < |s| then a else a - |s|;
    var b' := if b < |s| then b else b - |s|;
    assert (s + s)[a] == s[a'] && (s + s)[b] == s[b'];
  }

  /// Shuffling a doubled list of distinct values leaves every value on exactly two positions.
  lemma {:induction false} ShuffledDoubleEachTwice<T>(s: seq<T>, p: seq<int>)
    requires Distinct(s)
    requires IsPermutation(p, 2 * |s|)
    ensures EachTwice(Shuffled(s + s, p))
  {
    var d := Shuffled(s + s, p);
    var n := 2 * |s|;
    assert |d| == n;
    forall i | 0 <= i < n ensures HasPartner(d, i) {
      var v := p[i];
      var w := if v < |s| then v + |s| else v - |s|;
      assert w in p;
      var j :| 0 <= j < n && p[j] == w;
      DoubledSameValue(s, v, w);
      assert d[j] == d[i];
    }
    forall i, j, k | 0 <= i < j < k < n ensures !(d[i] == d[j] && d[j] == d[k]) {
      if d[i] == d[j] && d[j] == d[k] {
        DoubledSameValue(s, p[i], p[j]);
        DoubledSameValue(s, p[j], p[k]);
        assert false;
      }
    }
  }

  /// Half the number of cells: how many distinct icons a board uses.
  const NumIconsUsed: int := BoardWidth * BoardHeight / 2

  /// The icons picked from the shuffled catalogue are all different.
  lemma ChosenDistinct(p1: seq<int>)
    requires IsPermutation(p1, |Catalogue()|)
    ensures NumIconsUsed <= |Catalogue()|
    ensures Distinct(Shuffled(Catalogue(), p1)[..NumIconsUsed])
  {
    var chosen := Shuffled(Catalogue(), p1)[..NumIconsUsed];
    forall a, b | 0 <= a < b < |chosen| ensures chosen[a] != chosen[b] {
      if chosen[a] == chosen[b] {
        CatalogueDistinct(p1[a], p1[b]);
      }
    }
  }

  /** The list the board is dealt from: the first NumIconsUsed icons of the
      shuffled catalogue, the list doubled, and the result shuffled again. */
  function Deck(p1: seq<int>, p2: seq<int>): (deck: seq<Icon>)
    requires IsPermutation(p1, |Catalogue()|)
    requires IsPermutation(p2, BoardWidth * BoardHeight)
    ensures |deck| == BoardWidth * BoardHeight
    ensures EachTwice(deck)
  {
    ChosenDistinct(p1);
    var chosen := Shuffled(Catalogue(), p1)[..NumIconsUsed];
    ShuffledDoubleEachTwice(chosen, p2);
    Shuffled(chosen + chosen, p2)
  }

  /// Column-major position of a box in the deck.
  function Flat(c: Cell): int {
    c.0 * BoardHeight + c.1
  }

  lemma FlatInjective(a: Cell, b: Cell)
    requires InBoard(a) && InBoard(b)
    ensures 0 <= Flat(a) < BoardWidth * BoardHeight
    ensures Flat(a) == Flat(b) ==> a == b
  {
  }

  lemma FlatOnto(k: int)
    requires 0 <= k < BoardWidth * BoardHeight
    ensures InBoard((k / BoardHeight, k % BoardHeight)) && Flat((k / BoardHeight, k % BoardHeight)) == k
  {
  }

  /// The board dealt from a list column by column: box (x, y) gets entry x * BoardHeight + y.
  function Deal<T>(deck: seq<T>): (board: seq<seq<T>>)
    requires |deck| == BoardWidth * BoardHeight
  {
    seq(BoardWidth, x requires 0 <= x < BoardWidth =>
      seq(BoardHeight, y requires 0 <= y < BoardHeight => deck[x * BoardHeight + y]))
  }

  lemma DealAt<T>(deck: seq<T>, c: Cell)
    requires |deck| == BoardWidth * BoardHeight && InBoard(c)
    ensures IsGrid(Deal(deck)) && 0 <= Flat(c) < |deck| && At(Deal(deck), c) == deck[Flat(c)]
  {
  }

  /// Some other box of the board holds the same icon as box `c`.
  ghost predicate HasPartnerBox(board: seq<seq<Icon>>, c: Cell)
    requires IsGrid(board) && InBoard(c)
  {
    exists d :: InBoard(d) && d != c && At(board, d) == At(board, c)
  }

  /** Every icon on the board occurs in exactly two boxes: each box has a
      different box with the same icon, and no three boxes share one. */
  ghost predicate Paired(board: seq<seq<Icon>>)
    requires IsGrid(board)
  {
    && (forall c {:trigger HasPartnerBox(board, c)} :: InBoard(c) ==> HasPartnerBox(board, c))
    && (forall a, b, c {:trigger At(board, a), At(board, b), At(board, c)} :: InBoard(a) && InBoard(b) && InBoard(c) && a != b && b != c && a != c ==>
          !(At(board, a) == At(board, b) && At(board, b) == At(board, c)))
  }

  /// In the dealt board every box has a partner box with the same icon.
  lemma {:induction false} DealHasPartners(deck: seq<Icon>, c: Cell)
    requires |deck| == BoardWidth * BoardHeight && EachTwice(deck) && InBoard(c)
    ensures IsGrid(Deal(deck))
    ensures HasPartnerBox(Deal(deck), c)
  {
    DealAt(deck, c);
    assert HasPartner(deck, Flat(c));
    var j :| 0 <= j < |deck| && j != Flat(c) && deck[j] == deck[Flat(c)];
    var d := (j / BoardHeight, j % BoardHeight);
    FlatOnto(j);
    DealAt(deck, d);
  }

  /// In the dealt board no three boxes hold the same icon.
  lemma {:induction false} DealNoTriple(deck: seq<Icon>, a: Cell, b: Cell, c: Cell)
    requires |deck| == BoardWidth * BoardHeight && EachTwice(deck)
    requires InBoard(a) && InBoard(b) && InBoard(c) && a != b && b != c && a != c
    ensures IsGrid(Deal(deck))
    ensures !(At(Deal(deck), a) == At(Deal(deck), b) && At(Deal(deck), b) == At(Deal(deck), c))
  {
    FlatInjective(a, b);
    FlatInjective(b, c);
    FlatInjective(a, c);
    DealAt(deck, a);
    DealAt(deck, b);
    DealAt(deck, c);
    var i, j, k := Flat(a), Flat(b), Flat(c);
    if i < j < k {} else if i < k < j {} else if j < i < k {}
    else if j < k < i {} else if k < i < j {} else {}
  }

  /// Dealing a list in which every icon occurs twice gives a paired board.
  lemma {:induction false} DealPaired(deck: seq<Icon>)
    requires |deck| == BoardWidth * BoardHeight && EachTwice(deck)
    ensures IsGrid(Deal(deck)) && Paired(Deal(deck))
  {
    DealAt(deck, (0, 0));
    forall c | InBoard(c) ensures HasPartnerBox(Deal(deck), c) {
      DealHasPartners(deck, c);
    }
    forall a, b, c | InBoard(a) && InBoard(b) && InBoard(c) && a != b && b != c && a != c
      ensures !(At(Deal(deck), a) == At(Deal(deck), b) && At(Deal(deck), b) == At(Deal(deck), c))
    {
      DealNoTriple(deck, a, b, c);
    }
  }

  /** The board the generator deals for the two shuffles: BoardWidth columns
      of BoardHeight boxes in which every icon is paired. */
  function DealtBoard(p1: seq<int>, p2: seq<int>): (board: seq<seq<Icon>>)
    requires IsPermutation(p1, |Catalogue()|)
    requires IsPermutation(p2, BoardWidth * BoardHeight)
    ensures IsGrid(board) && Paired(board)
    ensures forall c :: InBoard(c) ==> At(board, c) == Deck(p1, p2)[Flat(c)]
  {
    var deck := Deck(p1, p2);
    DealPaired(deck);
    assert forall c :: InBoard(c) ==> At(Deal(deck), c) == deck[Flat(c)] by {
      forall c | InBoard(c) ensures At(Deal(deck), c) == deck[Flat(c)] { DealAt(deck, c); }
    }
    Deal(deck)
  }

  /** Builds the board as the game does: the catalogue, a shuffle, the first
      half-board of icons doubled, a second shuffle, then the columns filled
      one box at a time from the front of the list. */
  method GetRandomizedBoard(p1: seq<int>, p2: seq<int>) returns (board: seq<seq<Icon>>)
    requires IsPermutation(p1, |Catalogue()|)
    requires IsPermutation(p2, BoardWidth * BoardHeight)
    ensures board == DealtBoard(p1, p2)
    ensures IsGrid(board) && Paired(board)
  {
    var icons := BuildCatalogue();
    icons := Shuffled(icons, p1);
    var numIconsUsed := BoardWidth * BoardHeight / 2;
    icons := icons[..numIconsUsed] + icons[..numIconsUsed];
    icons := Shuffled(icons, p2);
    ghost var deck := icons;
    assert deck == Deck(p1, p2);
    board := [];
    var x := 0;
    while x < BoardWidth
      invariant 0 <= x <= BoardWidth
      invariant icons == deck[x * BoardHeight..]
      invariant board == Deal(deck)[..x]
    {
      var column := [];
      var y := 0;
      while y < BoardHeight
        invariant 0 <= y <= BoardHeight
        invariant icons == deck[x * BoardHeight + y..]
        invariant column == Deal(deck)[x][..y]
      {
        column := column + [icons[0]];
        icons := icons[1..];
        y := y + 1;
      }
      assert column == Deal(deck)[x];
      board := board + [column];
      x := x + 1;
    }
    assert board == Deal(deck);
  }
}
