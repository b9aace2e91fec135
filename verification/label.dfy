/** A label (Label.py): one line of text at a fixed place, taking no key. */
module Etiquettes {
  import opened Outils
  import opened Constantes
  import opened Sequences
  import opened Codage
  import opened Pilote
  import opened Interface

  /** The codes of `Label.affiche`: the position, the colour when there is one, then the text. */
  function LabelCodes(posx: int, posy: int, couleur: Option<Cle>, valeur: string): seq<int>
  {
    Emplacement(posx, posy) + Teinte(couleur) + Canonise(Videotex, Chaine(valeur))
  }

  /** Without a colour, a label is its position then its text. */
  lemma LabelSansCouleur(posx: int, posy: int, valeur: string)
    ensures LabelCodes(posx, posy, None, valeur) == Emplacement(posx, posy) + Traduit(Videotex, valeur)
  {
  }

  /**
   * Without a colour, away from the home corner, an ASCII label is written
   * as US, its row, its column and then its characters unchanged.
   */
  lemma LabelAscii(posx: int, posy: int, valeur: string)
    requires 0 < posx <= 80 && 1 < posy <= 24
    requires forall i | 0 <= i < |valeur| :: valeur[i] as int < 0x80
    ensures LabelCodes(posx, posy, None, valeur) == [US, 0x40 + posy, 0x40 + posx] + Codes(valeur)
  {
    var p := Emplacement(posx, posy);
    var t := Traduit(Videotex, valeur);
    assert t == Codes(valeur) by {
      TraduitAscii(Videotex, valeur);
    }
    assert p == [US, 0x40 + posy, 0x40 + posx];
    LabelSansCouleur(posx, posy, valeur);
    assert LabelCodes(posx, posy, None, valeur) == p + t;
  }

  class Label {
    const minitel: Minitel
    const posx: int
    const posy: int
    const largeur: int
    const hauteur: int
    var couleur: Option<Cle>
    const activable: bool
    const valeur: string

    /** A label is as wide as its text and one row high; an empty text fails the width check. */
    constructor (minitel: Minitel, posx: int, posy: int, valeur: string, couleur: Option<Cle>)
      requires Zone(posx, posy, |valeur|, 1)
      ensures this.minitel == minitel && this.posx == posx && this.posy == posy
      ensures this.valeur == valeur && largeur == |valeur| && hauteur == 1
      ensures this.couleur == couleur && !activable
    {
      this.minitel := minitel;
      this.valeur := valeur;
      this.posx := posx;
      this.posy := posy;
      largeur := |valeur|;
      hauteur := 1;
      this.couleur := couleur;
      activable := false;
    }

    /** A label takes no key. */
    method GereTouche(sequence: seq<int>) returns (geree: bool)
      ensures !geree
    {
      geree := false;
    }

    method Affiche()
      modifies minitel`trace
      ensures minitel.trace == old(minitel.trace) + LabelCodes(posx, posy, couleur, valeur)
    {
      ghost var t0 := minitel.trace;
      minitel.Position(posx, posy, false);
      ghost var t1 := minitel.trace;
      Teindre(minitel, couleur);
      ghost var t2 := minitel.trace;
      minitel.Envoyer(Chaine(valeur));
      ghost var a, b := Emplacement(posx, posy), Teinte(couleur);
      assert t1 == t0 + a && t2 == t1 + b;
      Associe(t0, a, b);
      Associe(t0, a + b, Canonise(Videotex, Chaine(valeur)));
    }
  }
}
