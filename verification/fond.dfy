/**
 * The background of a container (the first loop of `Conteneur.affiche`):
 * every row of its rectangle painted with the background colour, or blanked
 * when the colour's name is not a colour.
 */
module Fonds {
  import opened Outils
  import opened Constantes
  import opened Sequences
  import opened Codage
  import opened Pilote
  import opened Interface

  /**
   * One row of the background: the cursor to the row, the codes `teinte`
   * that set the background colour, then spaces by repetition.
   */
  function Aplat(posx: int, ligne: int, largeur: int, teinte: seq<int>): seq<int>
  {
    Emplacement(posx, ligne) + teinte + [0x20, REP, 0x40 + largeur - 1]
  }

  /** The background of the first `lignes` rows of a rectangle. */
  function FondCodes(posx: int, posy: int, largeur: int, teinte: seq<int>, lignes: nat): seq<int>
  {
    if lignes == 0 then []
    else FondCodes(posx, posy, largeur, teinte, lignes - 1) + Aplat(posx, posy + lignes - 1, largeur, teinte)
  }

  /** A name that is not a colour sends no colour code. */
  lemma TeinteInvalide(fond: Option<Cle>)
    requires fond.Some? && NormaliserCouleur(fond.value).None?
    ensures CouleurCodes(None, fond) == []
  {
  }

  /** A valid background colour `c` is sent as ESC then 0x50 plus `c`. */
  lemma TeinteValide(fond: Option<Cle>, c: int)
    requires fond.Some? && NormaliserCouleur(fond.value) == Some(c)
    ensures CouleurCodes(None, fond) == [ESC, 0x50 + c]
  {
  }

  /** With a name that is not a colour, the background is the blanking of the rectangle. */
  lemma FondIncolore(posx: int, posy: int, largeur: int, fond: Option<Cle>, lignes: nat)
    requires fond.Some? && NormaliserCouleur(fond.value).None?
    ensures FondCodes(posx, posy, largeur, CouleurCodes(None, fond), lignes) == EffaceCodes(posx, posy, largeur, lignes)
  {
    TeinteInvalide(fond);
    FondSansTeinte(posx, posy, largeur, lignes);
  }

  /** Rows without colour codes are the rows of `efface`. */
  lemma {:induction false} FondSansTeinte(posx: int, posy: int, largeur: int, lignes: nat)
    ensures FondCodes(posx, posy, largeur, [], lignes) == EffaceCodes(posx, posy, largeur, lignes)
  {
    if lignes > 0 {
      FondSansTeinte(posx, posy, largeur, lignes - 1);
      assert Aplat(posx, posy + lignes - 1, largeur, []) == Rangee(posx, posy + lignes - 1, largeur);
    }
  }

  /** Away from the home corner, a row with two colour codes is eight codes. */
  lemma AplatAbsolu(posx: int, ligne: int, largeur: int, teinte: seq<int>)
    requires 1 < ligne && |teinte| == 2
    ensures Aplat(posx, ligne, largeur, teinte) == [US, 0x40 + ligne, 0x40 + posx, teinte[0], teinte[1], 0x20, REP, 0x40 + largeur - 1]
  {
  }

  lemma {:induction false} FondLongueur(posx: int, posy: int, largeur: int, teinte: seq<int>, lignes: nat)
    requires 1 < posy && |teinte| == 2
    ensures |FondCodes(posx, posy, largeur, teinte, lignes)| == 8 * lignes
  {
    if lignes > 0 {
      FondLongueur(posx, posy, largeur, teinte, lignes - 1);
      AplatLongueur(posx, posy + lignes - 1, largeur, teinte);
    }
  }

  lemma {:induction false} FondRangee(posx: int, posy: int, largeur: int, teinte: seq<int>, lignes: nat, k: nat)
    requires 1 < posy && |teinte| == 2
    requires k < lignes
    ensures 8 * k + 8 <= |FondCodes(posx, posy, largeur, teinte, lignes)|
    ensures FondCodes(posx, posy, largeur, teinte, lignes)[8 * k..8 * k + 8] == Aplat(posx, posy + k, largeur, teinte)
  {
    var avant := FondCodes(posx, posy, largeur, teinte, lignes - 1);
    var bloc := Aplat(posx, posy + lignes - 1, largeur, teinte);
    var tout := FondCodes(posx, posy, largeur, teinte, lignes);
    AplatLongueur(posx, posy + lignes - 1, largeur, teinte);
    if k < lignes - 1 {
      FondRangee(posx, posy, largeur, teinte, lignes - 1, k);
      TrancheGauche(tout, avant, bloc, 8 * k, 8 * k + 8, Aplat(posx, posy + k, largeur, teinte));
    } else {
      FondLongueur(posx, posy, largeur, teinte, lignes - 1);
      TrancheDroite(tout, avant, bloc, 8 * k, 8 * k + 8);
    }
  }

  lemma AplatLongueur(posx: int, ligne: int, largeur: int, teinte: seq<int>)
    requires 1 < ligne && |teinte| == 2
    ensures |Aplat(posx, ligne, largeur, teinte)| == 8
  {
    AplatAbsolu(posx, ligne, largeur, teinte);
  }

  /**
   * Below the first row of the screen and with a valid colour `c`, the
   * background is eight codes per row, and block `k` paints row `posy + k`
   * from column `posx` over `largeur` columns on background `c`.
   */
  lemma FondBlocs(posx: int, posy: int, largeur: int, fond: Option<Cle>, c: int, lignes: nat, k: nat)
    requires 1 < posy
    requires fond.Some? && NormaliserCouleur(fond.value) == Some(c)
    requires k < lignes
    ensures |FondCodes(posx, posy, largeur, CouleurCodes(None, fond), lignes)| == 8 * lignes
    ensures FondCodes(posx, posy, largeur, CouleurCodes(None, fond), lignes)[8 * k..8 * k + 8] ==
            [US, 0x40 + posy + k, 0x40 + posx, ESC, 0x50 + c, 0x20, REP, 0x40 + largeur - 1]
  {
    TeinteValide(fond, c);
    FondLongueur(posx, posy, largeur, [ESC, 0x50 + c], lignes);
    FondRangee(posx, posy, largeur, [ESC, 0x50 + c], lignes, k);
    AplatAbsolu(posx, posy + k, largeur, [ESC, 0x50 + c]);
  }

  /** Painting row `ligne` after the rows above it gives the background down to `ligne`. */
  lemma FondPas(posx: int, posy: int, largeur: int, teinte: seq<int>, ligne: int, t0: seq<int>, avant: seq<int>, apres: seq<int>)
    requires posy <= ligne
    requires avant == t0 + FondCodes(posx, posy, largeur, teinte, ligne - posy)
    requires apres == avant + Aplat(posx, ligne, largeur, teinte)
    ensures apres == t0 + FondCodes(posx, posy, largeur, teinte, ligne + 1 - posy)
  {
    Associe(t0, FondCodes(posx, posy, largeur, teinte, ligne - posy), Aplat(posx, ligne, largeur, teinte));
  }

  /** The background loop of `affiche`. */
  method PeintFond(minitel: Minitel, posx: int, posy: int, largeur: int, hauteur: nat, fond: Option<Cle>)
    requires 0 < largeur <= 40
    modifies minitel`trace
    ensures minitel.trace == old(minitel.trace) + FondCodes(posx, posy, largeur, CouleurCodes(None, fond), hauteur)
  {
    for ligne := posy to posy + hauteur
      invariant minitel.trace == old(minitel.trace) + FondCodes(posx, posy, largeur, CouleurCodes(None, fond), ligne - posy)
    {
      ghost var avant := minitel.trace;
      PeintRang(minitel, posx, ligne, largeur, fond);
      FondPas(posx, posy, largeur, CouleurCodes(None, fond), ligne, old(minitel.trace), avant, minitel.trace);
    }
  }

  /** One row of the background: position, background colour, spaces. */
  method PeintRang(minitel: Minitel, posx: int, ligne: int, largeur: int, fond: Option<Cle>)
    requires 0 < largeur <= 40
    modifies minitel`trace
    ensures minitel.trace == old(minitel.trace) + Aplat(posx, ligne, largeur, CouleurCodes(None, fond))
  {
    ghost var t0 := minitel.trace;
    minitel.Position(posx, ligne, false);
    ghost var t1 := minitel.trace;
    minitel.Couleur(None, fond);
    ghost var t2 := minitel.trace;
    minitel.Repeter(Chaine(" "), largeur);
    RepeterAscii(' ', largeur);
    Enchaine(t0, Emplacement(posx, ligne), t1, CouleurCodes(None, fond), t2, [0x20, REP, 0x40 + largeur - 1], minitel.trace);
  }
}
