/**
 * The board logic of the MiniChess sketch (MiniChess.h, MiniChess.cpp):
 * an 8x8 board of bytes, a cursor moved with the arrow keys, a selected
 * square, the player to move, the move itself with castling and promotion
 * to a queen.  No chess rule is checked: any own piece may go anywhere.
 *
 * A square holds a byte: the piece in the low three bits, the colour in
 * bit 3.  The board is indexed `board[x, y]`, x the column 0..7 (A..H) and
 * y the row 0..7 from the top (rank 8 down to rank 1).  Drawing on the
 * Minitel is not modelled; the keys come from a scripted queue.
 */
module Echecs {

  // ---------------------------------------------------------------------
  // Pieces and colours

  const COLOR_MASK: bv8 := 0x08
  const PIECE_MASK: bv8 := 0x07

  const VOID: bv8 := 0
  const PAWN: bv8 := 1
  const ROOK: bv8 := 2
  const KNIGHT: bv8 := 3
  const BISHOP: bv8 := 4
  const QUEEN: bv8 := 5
  const KING: bv8 := 6

  const BLACK: bv8 := 0x00
  const WHITE: bv8 := 0x08

  /** The mask the castling test of `makeMove` is written with: seven bits instead of PIECE_MASK. */
  const MASQUE_ROQUE_ECRIT: bv8 := 0x7F

  /** The two masks are disjoint and together cover the four bits of a square. */
  lemma Masques()
    ensures COLOR_MASK & PIECE_MASK == 0 && COLOR_MASK | PIECE_MASK == 0x0F
    ensures BLACK == 0 && WHITE == COLOR_MASK
  {
  }

  /**
   * A piece code VOID..KING plus a colour is read back as that piece and that
   * colour; an empty square (VOID + BLACK = 0) reads as a black one.
   */
  lemma Decompose(piece: bv8, couleur: bv8)
    requires piece <= KING && (couleur == BLACK || couleur == WHITE)
    ensures (piece + couleur) & PIECE_MASK == piece
    ensures (piece + couleur) & COLOR_MASK == couleur
    ensures piece & PIECE_MASK == piece
  {
  }

  /**
   * The glyphs of the pieces: for each piece VOID..KING, its 3x3
   * semigraphic characters in reading order, each a 6-bit mosaic.
   */
  const PIECE_WIDTH := 3
  const PIECE_HEIGHT := 3

  const PIECES: seq<seq<bv8>> := [
    [0x00, 0x00, 0x00, 0x00, 0x00, 0x00, 0x00, 0x00, 0x00],
    [0x00, 0x00, 0x00, 0x05, 0x2F, 0x00, 0x04, 0x2C, 0x00],
    [0x02, 0x02, 0x02, 0x35, 0x3D, 0x20, 0x1C, 0x1C, 0x08],
    [0x00, 0x07, 0x02, 0x1E, 0x1D, 0x2A, 0x0C, 0x3C, 0x08],
    [0x01, 0x0B, 0x00, 0x3F, 0x2F, 0x2A, 0x1C, 0x3C, 0x08],
    [0x09, 0x03, 0x08, 0x07, 0x2F, 0x02, 0x3C, 0x1C, 0x28],
    [0x01, 0x0B, 0x00, 0x07, 0x2F, 0x02, 0x3C, 0x1C, 0x28]
  ]

  /** One glyph per piece code, of PIECE_WIDTH*PIECE_HEIGHT mosaics of six bits; the empty square's is blank. */
  lemma Glyphes()
    ensures |PIECES| == KING as int + 1
    ensures forall p | 0 <= p < |PIECES| :: |PIECES[p]| == PIECE_WIDTH * PIECE_HEIGHT
    ensures forall p, k | 0 <= p < |PIECES| && 0 <= k < |PIECES[p]| :: PIECES[p][k] < 0x40
    ensures forall k | 0 <= k < |PIECES[VOID]| :: PIECES[VOID][k] == 0
  {
  }

  /** The other player. */
  function Adversaire(joueur: bv8): (r: bv8)
    ensures joueur == WHITE ==> r == BLACK
    ensures joueur != WHITE ==> r == WHITE
  {
    if joueur == WHITE then BLACK else WHITE
  }

  /** Two changes of player give the turn back. */
  lemma AdversaireInvolutif(joueur: bv8)
    requires joueur == WHITE || joueur == BLACK
    ensures Adversaire(Adversaire(joueur)) == joueur && Adversaire(joueur) != joueur
  {
  }

  // ---------------------------------------------------------------------
  // The board as a value

  /** The contents of the board, `p[x][y]` for column x and row y. */
  type Plateau = seq<seq<bv8>>

  predicate Forme(p: Plateau)
  {
    |p| == 8 && forall x | 0 <= x < 8 :: |p[x]| == 8
  }

  predicate Case(x: int, y: int)
  {
    0 <= x < 8 && 0 <= y < 8
  }

  /** The board with square (x, y) set to v. */
  function Ecrit(p: Plateau, x: int, y: int, v: bv8): (r: Plateau)
    requires Forme(p) && Case(x, y)
    ensures Forme(r)
  {
    p[x := p[x][y := v]]
  }

  /** Writing a square changes that square and no other. */
  lemma EcritCases(p: Plateau, x: int, y: int, v: bv8)
    requires Forme(p) && Case(x, y)
    ensures forall i, j | Case(i, j) :: Ecrit(p, x, y, v)[i][j] == if i == x && j == y then v else p[i][j]
  {
  }

  /**
   * `drawMove` on values: the piece of square (sx, sy) is put on (x, y) and
   * (sx, sy) is emptied.
   */
  function Deplace(p: Plateau, sx: int, sy: int, x: int, y: int): (r: Plateau)
    requires Forme(p) && Case(sx, sy) && Case(x, y)
    ensures Forme(r)
  {
    Ecrit(Ecrit(p, x, y, p[sx][sy]), sx, sy, VOID)
  }

  /** The moving piece lands on the destination, the origin is empty, and every other square is unchanged. */
  lemma DeplaceCases(p: Plateau, sx: int, sy: int, x: int, y: int)
    requires Forme(p) && Case(sx, sy) && Case(x, y) && (sx, sy) != (x, y)
    ensures var r := Deplace(p, sx, sy, x, y);
      r[x][y] == p[sx][sy] && r[sx][sy] == VOID &&
      forall i, j | Case(i, j) && (i, j) != (sx, sy) && (i, j) != (x, y) :: r[i][j] == p[i][j]
  {
    EcritCases(p, x, y, p[sx][sy]);
    EcritCases(Ecrit(p, x, y, p[sx][sy]), sx, sy, VOID);
  }

  // ---------------------------------------------------------------------
  // The starting position

  /** The back rank from column 0: the piece codes i+2 then 9-i, that is R N B Q K B N R. */
  function Rangee(i: int): bv8
    requires 0 <= i < 8
  {
    if i < 5 then (i + 2) as bv8 else (9 - i) as bv8
  }

  /** What `initPiecesPosition` puts on square (i, j). */
  function Initiale(i: int, j: int): bv8
    requires Case(i, j)
  {
    if j == 0 then Rangee(i) + BLACK
    else if j == 1 then PAWN + BLACK
    else if j < 6 then VOID
    else if j == 6 then PAWN + WHITE
    else Rangee(i) + WHITE
  }

  /**
   * The starting position: black rook, knight, bishop, queen, king, bishop,
   * knight, rook on row 0 and black pawns on row 1, four empty rows, white
   * pawns on row 6 and the white pieces on row 7 in the same order; the
   * kings start on column 4.
   */
  lemma Ouverture(i: int)
    requires 0 <= i < 8
    ensures var ordre := [ROOK, KNIGHT, BISHOP, QUEEN, KING, BISHOP, KNIGHT, ROOK];
      Initiale(i, 0) == ordre[i] + BLACK && Initiale(i, 1) == PAWN + BLACK &&
      Initiale(i, 2) == Initiale(i, 3) == Initiale(i, 4) == Initiale(i, 5) == VOID &&
      Initiale(i, 6) == PAWN + WHITE && Initiale(i, 7) == ordre[i] + WHITE
    ensures Initiale(4, 0) == KING + BLACK && Initiale(4, 7) == KING + WHITE
  {
  }

  // ---------------------------------------------------------------------
  // Keys

  /**
   * The keys `getKeyCode` can return.  Their codes belong to the Minitel
   * library and are not modelled: only their being different matters.
   * `Aucune` is the 0 of no key; CR and CAN are the keys sending those codes.
   */
  datatype Touche =
    | Aucune
    | FlecheHaut | FlecheBas | FlecheGauche | FlecheDroite
    | Correction | Annulation | Retour | Echap | Del
    | Envoi | Espace
    | ConnexionFin | Sommaire | Repetition | Guide | Suite
    | ToucheCR | ToucheCAN
    | Autre(code: nat)

  /**
   * `getKeyboardInput`: the cancelling keys become CAN, ENVOI and the space
   * become CR, the inhibited keys become 0, any other key is returned as is.
   */
  function Commande(t: Touche): (c: Touche)
    ensures c in {Aucune, FlecheHaut, FlecheBas, FlecheGauche, FlecheDroite, ToucheCR, ToucheCAN} || c.Autre?
  {
    match t
    case Correction | Annulation | Retour | Echap | Del => ToucheCAN
    case Envoi | Espace => ToucheCR
    case ConnexionFin | Sommaire | Repetition | Guide | Suite => Aucune
    case _ => t
  }

  /** Filtering a filtered key changes nothing; the inhibited keys do nothing at all. */
  lemma CommandeIdempotente(t: Touche)
    ensures Commande(Commande(t)) == Commande(t)
    ensures t in {ConnexionFin, Sommaire, Repetition, Guide, Suite} <==> t != Aucune && Commande(t) == Aucune
  {
  }

  // ---------------------------------------------------------------------
  // The cursor and the selection

  /** The cursor (cx, cy) and the selected square (scx, scy), (-1, -1) when there is none. */
  datatype Curseur = Curseur(cx: int, cy: int, scx: int, scy: int)

  /** The cursor is on the board, and the selection is either none or a square of the board. */
  predicate Bien(e: Curseur)
  {
    Case(e.cx, e.cy) && ((e.scx == -1 && e.scy == -1) || Case(e.scx, e.scy))
  }

  /** `validateSelection`'s test: a piece, of the player's colour. */
  predicate Selectionnable(b: bv8, joueur: bv8)
  {
    b & PIECE_MASK != VOID && b & COLOR_MASK == joueur
  }

  /**
   * One turn of the loop of `getMove` with key `c` already filtered: the
   * new cursor and selection, and whether the move is complete.
   */
  function Pas(p: Plateau, joueur: bv8, e: Curseur, c: Touche): (r: (Curseur, bool))
    requires Forme(p) && Bien(e)
    ensures Bien(r.0)
  {
    match c
    case FlecheHaut => (if e.cy > 0 then e.(cy := e.cy - 1) else e, false)
    case FlecheBas => (if e.cy < 7 then e.(cy := e.cy + 1) else e, false)
    case FlecheGauche => (if e.cx > 0 then e.(cx := e.cx - 1) else e, false)
    case FlecheDroite => (if e.cx < 7 then e.(cx := e.cx + 1) else e, false)
    case ToucheCR =>
      if e.scx == -1 then
        (if Selectionnable(p[e.cx][e.cy], joueur) then e.(scx := e.cx, scy := e.cy) else e, false)
      else
        (e, !(e.cx == e.scx && e.cy == e.scy))
    case ToucheCAN => (if e.scx != -1 then e.(scx := -1, scy := -1) else e, false)
    case _ => (e, false)
  }

  /** The selection, when there is one, holds one of the player's pieces. */
  predicate Tenue(p: Plateau, joueur: bv8, e: Curseur)
    requires Forme(p) && Bien(e)
  {
    e.scx != -1 ==> Selectionnable(p[e.scx][e.scy], joueur)
  }

  /**
   * A turn keeps the cursor on the board and the selection well formed and
   * holding one of the player's pieces; it ends the move only on a second
   * CR, on a square other than the selected one.
   */
  lemma PasBien(p: Plateau, joueur: bv8, e: Curseur, c: Touche)
    requires Forme(p) && Bien(e) && Tenue(p, joueur, e)
    ensures var (f, fini) := Pas(p, joueur, e, c);
      Bien(f) && Tenue(p, joueur, f) &&
      (fini <==> c == ToucheCR && e.scx != -1 && (e.cx, e.cy) != (e.scx, e.scy))
  {
  }

  /** The arrows stop at the edge of the board: there they change nothing. */
  lemma FlechesBord(p: Plateau, joueur: bv8, e: Curseur)
    requires Forme(p) && Bien(e)
    ensures e.cy == 0 ==> Pas(p, joueur, e, FlecheHaut) == (e, false)
    ensures e.cy == 7 ==> Pas(p, joueur, e, FlecheBas) == (e, false)
    ensures e.cx == 0 ==> Pas(p, joueur, e, FlecheGauche) == (e, false)
    ensures e.cx == 7 ==> Pas(p, joueur, e, FlecheDroite) == (e, false)
  {
  }

  /** An arrow and the opposite arrow, away from the edge, bring the cursor back. */
  lemma FlechesRetour(p: Plateau, joueur: bv8, e: Curseur)
    requires Forme(p) && Bien(e)
    ensures e.cy > 0 ==> Pas(p, joueur, Pas(p, joueur, e, FlecheHaut).0, FlecheBas).0 == e
    ensures e.cx > 0 ==> Pas(p, joueur, Pas(p, joueur, e, FlecheGauche).0, FlecheDroite).0 == e
  {
  }

  /** CAN drops the selection and leaves the cursor where it is. */
  lemma Annule(p: Plateau, joueur: bv8, e: Curseur)
    requires Forme(p) && Bien(e)
    ensures var (f, fini) := Pas(p, joueur, e, ToucheCAN);
      !fini && f.scx == -1 && f.scy == -1 && f.cx == e.cx && f.cy == e.cy
  {
  }

  /** What the loop of `getMove` does with a script of keys: where it stops, how many keys it read. */
  datatype Saisie = Saisie(curseur: Curseur, lues: nat, coup: bool)

  function Decale(s: Saisie, k: nat): Saisie
  {
    s.(lues := s.lues + k)
  }

  /**
   * The loop of `getMove` over the keys `ts`: turn after turn until a move
   * is complete.  When the script runs out first, `coup` is false.
   */
  function Saisir(p: Plateau, joueur: bv8, e: Curseur, ts: seq<Touche>): (s: Saisie)
    requires Forme(p) && Bien(e)
    ensures s.lues <= |ts|
    decreases |ts|
  {
    if ts == [] then Saisie(e, 0, false)
    else
      var (f, fini) := Pas(p, joueur, e, Commande(ts[0]));
      if fini then Saisie(f, 1, true)
      else Decale(Saisir(p, joueur, f, ts[1..]), 1)
  }

  /**
   * When `getMove` returns with a move, the cursor and the selection are
   * on the board, the selected square holds one of the player's pieces and
   * the cursor is on another square.  Without a move, the whole script was read.
   */
  lemma {:induction false} SaisirCoup(p: Plateau, joueur: bv8, e: Curseur, ts: seq<Touche>)
    requires Forme(p) && Bien(e) && Tenue(p, joueur, e)
    ensures var s := Saisir(p, joueur, e, ts);
      Bien(s.curseur) && Tenue(p, joueur, s.curseur) &&
      (s.coup ==> s.curseur.scx != -1 && (s.curseur.cx, s.curseur.cy) != (s.curseur.scx, s.curseur.scy)) &&
      (!s.coup ==> s.lues == |ts|)
    decreases |ts|
  {
    if ts != [] {
      PasBien(p, joueur, e, Commande(ts[0]));
      var (f, fini) := Pas(p, joueur, e, Commande(ts[0]));
      if !fini {
        SaisirCoup(p, joueur, f, ts[1..]);
      }
    }
  }

  /** One turn of `Saisir`, `k` keys after the start of the script. */
  lemma SaisirPas(p: Plateau, joueur: bv8, e: Curseur, ts: seq<Touche>, s: Saisie, k: nat)
    requires Forme(p) && Bien(e) && ts != [] && s == Decale(Saisir(p, joueur, e, ts), k)
    ensures var (f, fini) := Pas(p, joueur, e, Commande(ts[0]));
      if fini then s == Saisie(f, k + 1, true) else s == Decale(Saisir(p, joueur, f, ts[1..]), k + 1)
  {
  }

  // ---------------------------------------------------------------------
  // The move

  /** The castling test of `makeMove`, with the mask `masque`: is the moved piece a king? */
  predicate EstRoi(b: bv8, masque: bv8)
  {
    b & masque == KING
  }

  /**
   * The castling of the player whose back rank is row y: when the king
   * came from (4, y) to (1, y) the rook of (0, y) goes to (2, y); when it
   * came to (6, y) the rook of (7, y) goes to (5, y).  The cursor follows
   * the rook.
   */
  function RoqueRang(q: Plateau, e: Curseur, y: int): (r: (Plateau, Curseur))
    requires Forme(q) && Bien(e) && (y == 0 || y == 7)
    ensures Forme(r.0) && Bien(r.1)
  {
    if e.scx == 4 && e.scy == y then
      var (q1, e1) := if e.cx == 1 && e.cy == y then (Deplace(q, 0, y, 2, y), Curseur(2, y, 0, y)) else (q, e);
      if e1.cx == 6 && e1.cy == y then (Deplace(q1, 7, y, 5, y), Curseur(5, y, 7, y)) else (q1, e1)
    else (q, e)
  }

  /** The castling step of `makeMove` for the moved piece b, a king of either colour. */
  function Roque(q: Plateau, b: bv8, e: Curseur): (r: (Plateau, Curseur))
    requires Forme(q) && Bien(e)
    ensures Forme(r.0) && Bien(r.1)
  {
    var (q1, e1) := if b & COLOR_MASK == BLACK then RoqueRang(q, e, 0) else (q, e);
    if b & COLOR_MASK == WHITE then RoqueRang(q1, e1, 7) else (q1, e1)
  }

  /** The promotion step of `makeMove`: a pawn reaching the far row becomes a queen of its colour. */
  function Promotion(q: Plateau, b: bv8, e: Curseur): (r: Plateau)
    requires Forme(q) && Bien(e)
    ensures Forme(r)
  {
    if b & PIECE_MASK == PAWN then
      var q1 := if b & COLOR_MASK == BLACK && e.cy == 7 then Ecrit(q, e.cx, e.cy, QUEEN + BLACK) else q;
      if b & COLOR_MASK == WHITE && e.cy == 0 then Ecrit(q1, e.cx, e.cy, QUEEN + WHITE) else q1
    else q
  }

  /**
   * `makeMove` on values, with the castling test made with `masque`: the
   * move, then castling, then promotion, and the selection is dropped.
   */
  function Jouer(p: Plateau, e: Curseur, masque: bv8): (r: (Plateau, Curseur))
    requires Forme(p) && Bien(e) && e.scx != -1
    ensures Forme(r.0) && Bien(r.1) && r.1.scx == -1 && r.1.scy == -1
  {
    var q := Deplace(p, e.scx, e.scy, e.cx, e.cy);
    var b := q[e.cx][e.cy];
    var (q1, e1) := if EstRoi(b, masque) then Roque(q, b, e) else (q, e);
    (Promotion(q1, b, e1), e1.(scx := -1, scy := -1))
  }

  /** `makeMove` as intended: the king is recognised by PIECE_MASK, so both colours castle. */
  function Coup(p: Plateau, e: Curseur): (r: (Plateau, Curseur))
    requires Forme(p) && Bien(e) && e.scx != -1
    ensures Forme(r.0) && Bien(r.1) && r.1.scx == -1 && r.1.scy == -1
  {
    Jouer(p, e, PIECE_MASK)
  }

  /** The two castling tests, the written one and the intended one. */
  predicate Masque(masque: bv8)
  {
    masque == MASQUE_ROQUE_ECRIT || masque == PIECE_MASK
  }

  /**
   * A piece other than a king or a pawn moves as `drawMove` moves it: it
   * lands on the destination, the origin empties, nothing else changes, and
   * the cursor stays on the destination; with either castling test.
   */
  lemma CoupSimple(p: Plateau, e: Curseur, masque: bv8)
    requires Forme(p) && Bien(e) && e.scx != -1 && (e.cx, e.cy) != (e.scx, e.scy) && Masque(masque)
    requires p[e.scx][e.scy] & PIECE_MASK !in {KING, PAWN}
    ensures Jouer(p, e, masque).0 == Deplace(p, e.scx, e.scy, e.cx, e.cy)
    ensures Jouer(p, e, masque).1 == Curseur(e.cx, e.cy, -1, -1)
  {
    DeplaceCases(p, e.scx, e.scy, e.cx, e.cy);
  }

  /** A black pawn reaching row 7 is a black queen there; the origin is empty; with either castling test. */
  lemma PromotionNoire(p: Plateau, e: Curseur, masque: bv8)
    requires Forme(p) && Bien(e) && e.scx != -1 && (e.cx, e.cy) != (e.scx, e.scy) && Masque(masque)
    requires p[e.scx][e.scy] == PAWN + BLACK && e.cy == 7
    ensures Jouer(p, e, masque).0[e.cx][e.cy] == QUEEN + BLACK && Jouer(p, e, masque).0[e.scx][e.scy] == VOID
  {
    DeplaceCases(p, e.scx, e.scy, e.cx, e.cy);
  }

  /** A white pawn reaching row 0 is a white queen there; the origin is empty; with either castling test. */
  lemma PromotionBlanche(p: Plateau, e: Curseur, masque: bv8)
    requires Forme(p) && Bien(e) && e.scx != -1 && (e.cx, e.cy) != (e.scx, e.scy) && Masque(masque)
    requires p[e.scx][e.scy] == PAWN + WHITE && e.cy == 0
    ensures Jouer(p, e, masque).0[e.cx][e.cy] == QUEEN + WHITE && Jouer(p, e, masque).0[e.scx][e.scy] == VOID
  {
    DeplaceCases(p, e.scx, e.scy, e.cx, e.cy);
  }

  /**
   * Castling of the player whose back rank is row y, on the king's side:
   * the king goes from (4, y) to (6, y) and the rook from (7, y) to (5, y);
   * the cursor ends on the rook.  It happens whenever the castling test
   * recognises that king: for both colours in the intended `Coup`, for the
   * black king only as written (RoiEcritNoir).
   */
  lemma RoqueCourt(p: Plateau, y: int, couleur: bv8, masque: bv8)
    requires Forme(p) && ((y == 0 && couleur == BLACK) || (y == 7 && couleur == WHITE))
    requires p[4][y] == KING + couleur && EstRoi(KING + couleur, masque)
    ensures var (r, f) := Jouer(p, Curseur(6, y, 4, y), masque);
      r[6][y] == KING + couleur && r[5][y] == p[7][y] && r[4][y] == VOID && r[7][y] == VOID &&
      f == Curseur(5, y, -1, -1)
  {
    var q := Deplace(p, 4, y, 6, y);
    DeplaceCases(p, 4, y, 6, y);
    DeplaceCases(q, 7, y, 5, y);
  }

  /**
   * Castling on the queen's side as the sketch writes it: the king goes
   * from (4, y) to (1, y) and the rook from (0, y) to (2, y); under the
   * same condition as RoqueCourt.
   */
  lemma RoqueLong(p: Plateau, y: int, couleur: bv8, masque: bv8)
    requires Forme(p) && ((y == 0 && couleur == BLACK) || (y == 7 && couleur == WHITE))
    requires p[4][y] == KING + couleur && EstRoi(KING + couleur, masque)
    ensures var (r, f) := Jouer(p, Curseur(1, y, 4, y), masque);
      r[1][y] == KING + couleur && r[2][y] == p[0][y] && r[4][y] == VOID && r[0][y] == VOID &&
      f == Curseur(2, y, -1, -1)
  {
    var q := Deplace(p, 4, y, 1, y);
    DeplaceCases(p, 4, y, 1, y);
    DeplaceCases(q, 0, y, 2, y);
  }

  /**
   * The castling test as written, `(b & 0x7F) == KING`, keeps the
   * colour bit: on a square's byte (below 16) only the black king passes it.
   */
  lemma RoiEcritNoir(b: bv8)
    requires b < 16
    ensures EstRoi(b, MASQUE_ROQUE_ECRIT) <==> b == KING + BLACK
    ensures EstRoi(b, PIECE_MASK) <==> b == KING + BLACK || b == KING + WHITE
  {
  }

  /**
   * So, as written, white castling never happens: the white king goes from
   * (4, 7) to (6, 7) and the rook stays on (7, 7), which the intended
   * `Coup` moves to (5, 7).
   */
  lemma RoqueBlancEcrit(p: Plateau)
    requires Forme(p) && p[4][7] == KING + WHITE && p[7][7] == ROOK + WHITE && p[5][7] == VOID
    ensures var (r, f) := Jouer(p, Curseur(6, 7, 4, 7), MASQUE_ROQUE_ECRIT);
      r[6][7] == KING + WHITE && r[7][7] == ROOK + WHITE && r[5][7] == VOID && f == Curseur(6, 7, -1, -1)
    ensures var (r, f) := Coup(p, Curseur(6, 7, 4, 7));
      r[5][7] == ROOK + WHITE && r[7][7] == VOID
  {
    DeplaceCases(p, 4, 7, 6, 7);
    RoqueCourt(p, 7, WHITE, PIECE_MASK);
  }

  // ---------------------------------------------------------------------
  // The game

  class MiniChess {
    /** `board[x][y]`. */
    const board: array2<bv8>
    var cx: int
    var cy: int
    var scx: int
    var scy: int
    var player: bv8
    /** The keys still to come from `getKeyCode`. */
    var entree: seq<Touche>

    /** An 8x8 board, the cursor and the selection on it (or no selection), a player of either colour. */
    ghost predicate Valid()
      reads this
    {
      board.Length0 == 8 && board.Length1 == 8 && Bien(Etat()) && (player == WHITE || player == BLACK)
    }

    function Etat(): Curseur
      reads this
    {
      Curseur(cx, cy, scx, scy)
    }

    /** The board's contents. */
    ghost function Vue(): (p: Plateau)
      reads board
      requires board.Length0 == 8 && board.Length1 == 8
      ensures Forme(p)
    {
      seq(8, x requires 0 <= x < 8 reads board => seq(8, y requires 0 <= y < 8 reads board => board[x, y]))
    }

    /** The declared state: an empty board, the cursor on (0, 7), no selection, white to play. */
    constructor (entree: seq<Touche>)
      ensures Valid() && fresh(board)
      ensures forall x, y | Case(x, y) :: board[x, y] == VOID
      ensures Etat() == Curseur(0, 7, -1, -1) && player == WHITE
      ensures this.entree == entree
    {
      board := new bv8[8, 8]((x, y) => VOID);
      cx, cy := 0, 7;
      scx, scy := -1, -1;
      player := WHITE;
      this.entree := entree;
    }

    /** `board[x][y] = v`. */
    method Pose(x: int, y: int, v: bv8)
      requires board.Length0 == 8 && board.Length1 == 8 && Case(x, y)
      modifies board
      ensures Vue() == Ecrit(old(Vue()), x, y, v)
    {
      board[x, y] := v;
      assert forall i | 0 <= i < 8 :: Vue()[i] == Ecrit(old(Vue()), x, y, v)[i];
    }

    // -------------------------------------------------------------------
    // initPiecesPosition

    /** Every row above `haut` holds its starting pieces. */
    ghost predicate Haut(haut: int)
      reads board
      requires board.Length0 == 8 && board.Length1 == 8
    {
      forall x, y | Case(x, y) && y < haut :: board[x, y] == Initiale(x, y)
    }

    /** Row `j` holds its starting pieces on columns 0..n-1. */
    ghost predicate Debut(j: int, n: int)
      reads board
      requires board.Length0 == 8 && board.Length1 == 8 && 0 <= j < 8
    {
      forall x | 0 <= x < n && x < 8 :: board[x, j] == Initiale(x, j)
    }

    /** `initPiecesPosition`: every square holds its starting piece. */
    method InitPiecesPosition()
      requires Valid()
      modifies board
      ensures forall x, y | Case(x, y) :: board[x, y] == Initiale(x, y)
    {
      PlaceNoirs();
      Vide();
      PlaceBlancs();
    }

    /** The black rows of `initPiecesPosition`: the back rank, then the pawns. */
    method PlaceNoirs()
      requires Valid()
      modifies board
      ensures Haut(2)
    {
      for i := 0 to 5
        invariant Debut(0, i)
      {
        board[i, 0] := (i + 2) as bv8 + BLACK;
      }
      for i := 5 to 8
        invariant Debut(0, i)
      {
        board[i, 0] := (9 - i) as bv8 + BLACK;
      }
      for i := 0 to 8
        invariant Haut(1) && Debut(1, i)
      {
        board[i, 1] := PAWN + BLACK;
      }
    }

    /** The empty rows 2..5 of `initPiecesPosition`; the black rows are untouched. */
    method Vide()
      requires Valid() && Haut(2)
      modifies board
      ensures Haut(6)
    {
      for j := 2 to 6
        invariant Haut(j)
      {
        for i := 0 to 8
          invariant Haut(j) && Debut(j, i)
        {
          board[i, j] := VOID;
        }
      }
    }

    /** The white rows of `initPiecesPosition`: the back rank, then the pawns (`PionsBlancs`). */
    method PlaceBlancs()
      requires Valid() && Haut(6)
      modifies board
      ensures forall x, y | Case(x, y) :: board[x, y] == Initiale(x, y)
    {
      for i := 0 to 5
        invariant Haut(6) && Debut(7, i)
      {
        board[i, 7] := (i + 2) as bv8 + WHITE;
      }
      for i := 5 to 8
        invariant Haut(6) && Debut(7, i)
      {
        board[i, 7] := (9 - i) as bv8 + WHITE;
      }
      PionsBlancs();
    }

    /** The white pawns of `initPiecesPosition`, once the other rows are set. */
    method PionsBlancs()
      requires Valid() && Haut(6) && Debut(7, 8)
      modifies board
      ensures forall x, y | Case(x, y) :: board[x, y] == Initiale(x, y)
    {
      for i := 0 to 8
        invariant Haut(6) && Debut(7, 8) && Debut(6, i)
      {
        board[i, 6] := PAWN + WHITE;
      }
    }

    // -------------------------------------------------------------------
    // getMove

    /**
     * `getMove`: keys are read and handled until a move is complete.  The
     * cursor and the selection end where `Saisir` says, after the keys it
     * read; the board and the player do not change.  When the script runs
     * out first, `coup` is false (the sketch would wait for more keys).
     */
    method GetMove() returns (coup: bool)
      requires Valid()
      modifies this`cx, this`cy, this`scx, this`scy, this`entree
      ensures Valid()
      ensures var s := Saisir(Vue(), player, old(Etat()), old(entree));
        Etat() == s.curseur && coup == s.coup && entree == old(entree)[s.lues..]
    {
      ghost var p, e0 := Vue(), entree;
      ghost var s := Saisir(p, player, Etat(), entree);
      ghost var k := 0;
      coup := false;
      while !coup && entree != []
        invariant Valid() && Vue() == p
        invariant 0 <= k <= |e0| && entree == e0[k..]
        invariant !coup ==> s == Decale(Saisir(p, player, Etat(), entree), k)
        invariant coup ==> s == Saisie(Etat(), k, true)
        decreases |entree|
      {
        SaisirPas(p, player, Etat(), entree, s, k);
        var c := GetKeyboardInput();
        coup := Traite(c);
        k := k + 1;
      }
    }

    /** `getKeyboardInput`: the next key, filtered. */
    method GetKeyboardInput() returns (c: Touche)
      requires entree != []
      modifies this`entree
      ensures c == Commande(old(entree)[0]) && entree == old(entree)[1..]
    {
      var t := entree[0];
      entree := entree[1..];
      c := Commande(t);
    }

    /** The body of the loop of `getMove` for the filtered key c. */
    method Traite(c: Touche) returns (coup: bool)
      requires Valid()
      modifies this`cx, this`cy, this`scx, this`scy
      ensures Valid()
      ensures (Etat(), coup) == Pas(Vue(), player, old(Etat()), c)
    {
      coup := false;
      match c
      case FlecheHaut => MoveUp();
      case FlecheBas => MoveDown();
      case FlecheGauche => MoveLeft();
      case FlecheDroite => MoveRight();
      case ToucheCR =>
        if scx == -1 {
          var choisie := ValidateSelection();
        } else {
          coup := ValidateMove();
        }
      case ToucheCAN =>
        if scx != -1 {
          scx, scy := -1, -1;
        }
      case _ =>
    }

    method MoveUp()
      requires Valid()
      modifies this`cy
      ensures Valid() && cy == if old(cy) > 0 then old(cy) - 1 else old(cy)
    {
      if cy > 0 {
        cy := cy - 1;
      }
    }

    method MoveDown()
      requires Valid()
      modifies this`cy
      ensures Valid() && cy == if old(cy) < 7 then old(cy) + 1 else old(cy)
    {
      if cy < 7 {
        cy := cy + 1;
      }
    }

    method MoveLeft()
      requires Valid()
      modifies this`cx
      ensures Valid() && cx == if old(cx) > 0 then old(cx) - 1 else old(cx)
    {
      if cx > 0 {
        cx := cx - 1;
      }
    }

    method MoveRight()
      requires Valid()
      modifies this`cx
      ensures Valid() && cx == if old(cx) < 7 then old(cx) + 1 else old(cx)
    {
      if cx < 7 {
        cx := cx + 1;
      }
    }

    /** `validateSelection`: the square under the cursor is selected when it holds one of the player's pieces. */
    method ValidateSelection() returns (choisie: bool)
      requires Valid()
      modifies this`scx, this`scy
      ensures Valid()
      ensures choisie == Selectionnable(board[cx, cy], player)
      ensures choisie ==> scx == cx && scy == cy
      ensures !choisie ==> scx == old(scx) && scy == old(scy)
    {
      var b := board[cx, cy];
      if b & PIECE_MASK == VOID {
        return false;
      }
      if b & COLOR_MASK != player {
        return false;
      }
      scx, scy := cx, cy;
      return true;
    }

    /** `validateMove`: any destination but the selected square itself. */
    method ValidateMove() returns (valide: bool)
      ensures valide <==> !(cx == scx && cy == scy)
    {
      if cx == scx && cy == scy {
        return false;
      }
      return true;
    }

    // -------------------------------------------------------------------
    // makeMove, drawMove, changePlayer

    /** `drawMove`: the selected square's piece goes to the cursor's square, which it leaves empty. */
    method DrawMove()
      requires Valid() && scx != -1
      modifies board
      ensures Vue() == Deplace(old(Vue()), scx, scy, cx, cy)
    {
      var b := board[scx, scy];
      Pose(cx, cy, b);
      Pose(scx, scy, VOID);
    }

    /**
     * `makeMove`: the move, the rook's move when a king castled, the queen
     * when a pawn reached the far row, and the selection dropped; as `Jouer`
     * says with the castling test as written, so only black castles
     * (RoqueBlancEcrit).
     */
    method MakeMove()
      requires Valid() && scx != -1
      modifies board, this`cx, this`cy, this`scx, this`scy
      ensures Valid() && player == old(player)
      ensures (Vue(), Etat()) == Jouer(old(Vue()), old(Etat()), MASQUE_ROQUE_ECRIT)
    {
      DrawMove();
      var b := board[cx, cy];
      if EstRoi(b, MASQUE_ROQUE_ECRIT) {
        Roquer(b);
      }
      Promouvoir(b);
      scx, scy := -1, -1;
    }

    /** The castling step of `makeMove` for a moved king b: on row 0 for black, on row 7 for white. */
    method Roquer(b: bv8)
      requires Valid()
      modifies board, this`cx, this`cy, this`scx, this`scy
      ensures Valid()
      ensures (Vue(), Etat()) == Roque(old(Vue()), b, old(Etat()))
    {
      if b & COLOR_MASK == BLACK {
        RoquerRang(0);
      }
      if b & COLOR_MASK == WHITE {
        RoquerRang(7);
      }
    }

    /** The castling of `makeMove` on row y. */
    method RoquerRang(y: int)
      requires Valid() && (y == 0 || y == 7)
      modifies board, this`cx, this`cy, this`scx, this`scy
      ensures Valid()
      ensures (Vue(), Etat()) == RoqueRang(old(Vue()), old(Etat()), y)
    {
      if scx == 4 && scy == y {
        if cx == 1 && cy == y {
          DeplaceTour(0, 2, y);
        }
        if cx == 6 && cy == y {
          DeplaceTour(7, 5, y);
        }
      }
    }

    /** The rook's move of a castling: selection on (sx, y), cursor on (x, y), then `drawMove`. */
    method DeplaceTour(sx: int, x: int, y: int)
      requires Valid() && Case(sx, y) && Case(x, y)
      modifies board, this`cx, this`cy, this`scx, this`scy
      ensures Valid()
      ensures Vue() == Deplace(old(Vue()), sx, y, x, y) && Etat() == Curseur(x, y, sx, y)
    {
      ghost var v := Vue();
      scx, scy := sx, y;
      cx, cy := x, y;
      assert Vue() == v;
      DrawMove();
    }

    /** The promotion of `makeMove` for the moved piece b. */
    method Promouvoir(b: bv8)
      requires Valid()
      modifies board
      ensures Vue() == Promotion(old(Vue()), b, Etat())
    {
      if b & PIECE_MASK == PAWN {
        if b & COLOR_MASK == BLACK {
          if cy == 7 {
            Pose(cx, cy, QUEEN + BLACK);
          }
        }
        if b & COLOR_MASK == WHITE {
          if cy == 0 {
            Pose(cx, cy, QUEEN + WHITE);
          }
        }
      }
    }

    /** `changePlayer`: the other colour plays. */
    method ChangePlayer()
      requires Valid()
      modifies this`player
      ensures Valid() && player == Adversaire(old(player))
    {
      if player == WHITE {
        player := BLACK;
      } else {
        player := WHITE;
      }
    }
  }
}
