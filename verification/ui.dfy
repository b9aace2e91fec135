/**
 * The base of the user-interface elements (UI.py): a rectangle of the
 * screen attached to a Minitel, with a colour and a flag saying whether the
 * element takes keys.  Also the pieces every element shares: the placement
 * checks, the blanking of a rectangle, and the right-padding loop of the
 * text field and the menu.
 */
module Interface {
  import opened Outils
  import opened Constantes
  import opened Sequences
  import opened Codage
  import opened Pilote

  /**
   * The placement checks every element makes when it is built: the corner
   * on the 80x24 screen, a non-empty rectangle whose last column is on the
   * screen.  The height is checked against 80, not 24, in the source.
   */
  predicate Zone(posx: int, posy: int, largeur: int, hauteur: int)
  {
    0 < posx <= 80 && 0 < posy <= 24 &&
    largeur > 0 && largeur + posx - 1 <= 80 &&
    hauteur > 0 && hauteur + posy - 1 <= 80
  }

  /** The colour an element sets before drawing: its character colour when it has one, nothing otherwise. */
  function Teinte(couleur: Option<Cle>): seq<int>
  {
    if couleur.Some? then CouleurCodes(couleur, None) else []
  }

  /** The `if self.couleur != None: couleur(caractere=...)` step of every `affiche`. */
  method Teindre(minitel: Minitel, couleur: Option<Cle>)
    modifies minitel`trace
    ensures minitel.trace == old(minitel.trace) + Teinte(couleur)
  {
    if couleur.Some? {
      minitel.Couleur(couleur, None);
    }
  }

  // ---------------------------------------------------------------------
  // Padding

  /** `s` padded on the right with `c` up to `n` characters. */
  function Complete(s: string, n: int, c: char): string
    decreases n - |s|
  {
    if |s| >= n then s else Complete(s + [c], n, c)
  }

  /** Padding keeps the text, fills the rest with `c`, and reaches exactly `n` (or leaves a longer text alone). */
  lemma {:induction false} CompleteContenu(s: string, n: int, c: char)
    ensures var r := Complete(s, n, c);
      |r| == Max(|s|, n) && r[..|s|] == s && forall i | |s| <= i < |r| :: r[i] == c
    decreases n - |s|
  {
    if |s| < n {
      CompleteContenu(s + [c], n, c);
      var r := Complete(s, n, c);
      assert r[..|s| + 1][..|s|] == r[..|s|];
    }
  }

  /** The padding loops of `ChampTexte.affiche` and `Menu.affiche_ligne`: add `c` while the text is shorter than `n`. */
  method Completer(s: string, n: int, c: char) returns (r: string)
    ensures r == Complete(s, n, c)
  {
    r := s;
    while |r| < n
      invariant Complete(r, n, c) == Complete(s, n, c)
      decreases n - |r|
    {
      r := r + [c];
    }
  }

  // ---------------------------------------------------------------------
  // Blanking a rectangle

  /**
   * One row of `efface`: the cursor to the row's first column, then a space
   * repeated `largeur` times (REP and 0x40 plus the count minus one).
   */
  function Rangee(posx: int, ligne: int, largeur: int): seq<int>
  {
    Emplacement(posx, ligne) + [0x20, REP, 0x40 + largeur - 1]
  }

  /** The codes of `efface` for the first `lignes` rows of a rectangle. */
  function EffaceCodes(posx: int, posy: int, largeur: int, lignes: nat): seq<int>
  {
    if lignes == 0 then []
    else EffaceCodes(posx, posy, largeur, lignes - 1) + Rangee(posx, posy + lignes - 1, largeur)
  }

  /** Away from the home corner, a row is six codes: US, row, column, a space, REP, the count. */
  lemma RangeeAbsolue(posx: int, ligne: int, largeur: int)
    requires 1 < ligne
    ensures Rangee(posx, ligne, largeur) == [US, 0x40 + ligne, 0x40 + posx, 0x20, REP, 0x40 + largeur - 1]
  {
  }

  /** Below the first row of the screen, the codes of `efface` are six codes per row. */
  lemma {:induction false} EffaceLongueur(posx: int, posy: int, largeur: int, lignes: nat)
    requires 1 < posy
    ensures |EffaceCodes(posx, posy, largeur, lignes)| == 6 * lignes
  {
    if lignes > 0 {
      EffaceLongueur(posx, posy, largeur, lignes - 1);
      RangeeAbsolue(posx, posy + lignes - 1, largeur);
    }
  }

  /** Below the first row of the screen, block `k` of six codes of `efface` is the blanking of row `posy + k`. */
  lemma {:induction false} EffaceRangee(posx: int, posy: int, largeur: int, lignes: nat, k: nat)
    requires 1 < posy
    requires k < lignes
    ensures |EffaceCodes(posx, posy, largeur, lignes)| == 6 * lignes
    ensures EffaceCodes(posx, posy, largeur, lignes)[6 * k..6 * k + 6] == Rangee(posx, posy + k, largeur)
  {
    var avant := EffaceCodes(posx, posy, largeur, lignes - 1);
    var bloc := Rangee(posx, posy + lignes - 1, largeur);
    var tout := EffaceCodes(posx, posy, largeur, lignes);
    RangeeAbsolue(posx, posy + lignes - 1, largeur);
    if k < lignes - 1 {
      EffaceRangee(posx, posy, largeur, lignes - 1, k);
      TrancheGauche(tout, avant, bloc, 6 * k, 6 * k + 6, Rangee(posx, posy + k, largeur));
    } else {
      EffaceLongueur(posx, posy, largeur, lignes - 1);
      TrancheDroite(tout, avant, bloc, 6 * k, 6 * k + 6);
    }
  }

  /**
   * Below the first row of the screen, the codes of `efface` are six codes
   * per row, and block `k` blanks row `posy + k` from column `posx` over
   * `largeur` columns: every row of the rectangle, in order, and nothing else.
   */
  lemma EffaceBlocs(posx: int, posy: int, largeur: int, lignes: nat, k: nat)
    requires 1 < posy
    requires k < lignes
    ensures |EffaceCodes(posx, posy, largeur, lignes)| == 6 * lignes
    ensures EffaceCodes(posx, posy, largeur, lignes)[6 * k..6 * k + 6] ==
            [US, 0x40 + posy + k, 0x40 + posx, 0x20, REP, 0x40 + largeur - 1]
  {
    EffaceRangee(posx, posy, largeur, lignes, k);
    RangeeAbsolue(posx, posy + k, largeur);
  }

  /** Blanking row `ligne` after the rows above it gives the codes of every row down to `ligne`. */
  lemma EffacePas(posx: int, posy: int, largeur: int, ligne: int, t0: seq<int>, avant: seq<int>, apres: seq<int>)
    requires posy <= ligne
    requires avant == t0 + EffaceCodes(posx, posy, largeur, ligne - posy)
    requires apres == avant + Rangee(posx, ligne, largeur)
    ensures apres == t0 + EffaceCodes(posx, posy, largeur, ligne + 1 - posy)
  {
    Associe(t0, EffaceCodes(posx, posy, largeur, ligne - posy), Rangee(posx, ligne, largeur));
  }

  /** `efface` for any element's rectangle: the row loop of UI.efface. */
  method EffaceZone(minitel: Minitel, posx: int, posy: int, largeur: int, hauteur: nat)
    requires 0 < largeur <= 40
    modifies minitel`trace
    ensures minitel.trace == old(minitel.trace) + EffaceCodes(posx, posy, largeur, hauteur)
  {
    for ligne := posy to posy + hauteur
      invariant minitel.trace == old(minitel.trace) + EffaceCodes(posx, posy, largeur, ligne - posy)
    {
      ghost var avant := minitel.trace;
      EffaceRang(minitel, posx, ligne, largeur);
      EffacePas(posx, posy, largeur, ligne, old(minitel.trace), avant, minitel.trace);
    }
  }

  /** One row of the loop of `efface`: the cursor to the row, then spaces by repetition. */
  method EffaceRang(minitel: Minitel, posx: int, ligne: int, largeur: int)
    requires 0 < largeur <= 40
    modifies minitel`trace
    ensures minitel.trace == old(minitel.trace) + Rangee(posx, ligne, largeur)
  {
    ghost var avant := minitel.trace;
    minitel.Position(posx, ligne, false);
    ghost var milieu := minitel.trace;
    minitel.Repeter(Chaine(" "), largeur);
    RepeterAscii(' ', largeur);
    Succede(avant, Emplacement(posx, ligne), milieu, [0x20, REP, 0x40 + largeur - 1], minitel.trace);
  }

  /** A plain element: a rectangle that shows nothing and takes no key. */
  class UI {
    const minitel: Minitel
    const posx: int
    const posy: int
    const largeur: int
    const hauteur: int
    var couleur: Option<Cle>
    const activable: bool

    /** The placement checked at construction. */
    ghost predicate Valid()
    {
      Zone(posx, posy, largeur, hauteur)
    }

    constructor (minitel: Minitel, posx: int, posy: int, largeur: int, hauteur: int, couleur: Option<Cle>)
      requires Zone(posx, posy, largeur, hauteur)
      ensures Valid()
      ensures this.minitel == minitel && this.posx == posx && this.posy == posy
      ensures this.largeur == largeur && this.hauteur == hauteur
      ensures this.couleur == couleur && !activable
    {
      this.minitel := minitel;
      this.posx := posx;
      this.posy := posy;
      this.largeur := largeur;
      this.hauteur := hauteur;
      this.couleur := couleur;
      activable := false;
    }

    /** Blanks the element's rectangle; `repeter` refuses more than 40 columns. */
    method Efface()
      requires Valid() && largeur <= 40
      modifies minitel`trace
      ensures minitel.trace == old(minitel.trace) + EffaceCodes(posx, posy, largeur, hauteur)
    {
      EffaceZone(minitel, posx, posy, largeur, hauteur);
    }

    /** The base element takes no key. */
    method GereTouche(sequence: seq<int>) returns (geree: bool)
      ensures !geree
    {
      geree := false;
    }
  }
}
