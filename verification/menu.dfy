/**
 * A menu (Menu.py): a column of options framed by a grid, one of them
 * selected and shown in inverse video, moved with HAUT and BAS; an option
 * "-" is a separator the selection skips.  The key handling is stated as
 * pure functions on the selection and the class's methods are proved to do
 * exactly that.
 */
module Menus {
  import opened Outils
  import opened Constantes
  import opened Sequences
  import opened Codage
  import opened Pilote
  import opened Interface

  /** The option that draws a separator line. */
  const SEPARATEUR: string := "-"

  /** The width of the widest option (the constructor's loop). */
  function LargeurLigne(options: seq<string>): (r: nat)
    ensures forall i | 0 <= i < |options| :: |options[i]| <= r
    ensures options != [] ==> exists i | 0 <= i < |options| :: |options[i]| == r
    ensures options == [] ==> r == 0
  {
    if options == [] then 0
    else
      var debut := options[..|options| - 1];
      var l := LargeurLigne(debut);
      assert forall i | 0 <= i < |debut| :: debut[i] == options[i];
      if l >= |options[|options| - 1]| then l else |options[|options| - 1]|
  }

  /** Which options the selection may land on: every one but the separators. */
  function Choisissables(options: seq<string>): (p: seq<bool>)
    ensures |p| == |options| && forall i | 0 <= i < |options| :: p[i] == (options[i] != SEPARATEUR)
  {
    seq(|options|, i requires 0 <= i < |options| => options[i] != SEPARATEUR)
  }

  /** `option_suivante`: the first option after `numero` that is not a separator. */
  function OptionSuivante(options: seq<string>, numero: int): (r: Option<nat>)
    requires 0 <= numero < |options|
    ensures r.Some? ==> numero < r.value < |options| && options[r.value] != SEPARATEUR
    ensures r.Some? ==> forall j | numero < j < r.value :: options[j] == SEPARATEUR
    ensures r.None? ==> forall j | numero < j < |options| :: options[j] == SEPARATEUR
  {
    PremierApres(Choisissables(options), numero)
  }

  /** `option_precedente`: the last option before `numero` that is not a separator. */
  function OptionPrecedente(options: seq<string>, numero: int): (r: Option<nat>)
    requires 0 <= numero < |options|
    ensures r.Some? ==> r.value < numero && options[r.value] != SEPARATEUR
    ensures r.Some? ==> forall j | r.value < j < numero :: options[j] == SEPARATEUR
    ensures r.None? ==> forall j | 0 <= j < numero :: options[j] == SEPARATEUR
  {
    DernierAvant(Choisissables(options), numero)
  }

  /** From an option, BAS then HAUT (or HAUT then BAS) comes back to it. */
  lemma SuivantePrecedente(options: seq<string>, n: nat)
    requires n < |options| && options[n] != SEPARATEUR
    ensures var s := OptionSuivante(options, n); s.Some? ==> OptionPrecedente(options, s.value) == Some(n)
    ensures var p := OptionPrecedente(options, n); p.Some? ==> OptionSuivante(options, p.value) == Some(n)
  {
    AllerRetour(Choisissables(options), n);
  }

  // ---------------------------------------------------------------------
  // Drawing

  /** What a menu's drawing depends on besides its colour and its selection; fixed once the menu is built. */
  datatype Disposition = Disposition(posx: int, posy: int, options: seq<string>, grille: bool, largeur_ligne: int)

  /** Line `k` can be drawn: a separator in a grid is a repetition, which takes 1 to 40 columns. */
  predicate Tracable(d: Disposition, k: int)
    requires 0 <= k < |d.options|
  {
    d.grille && d.options[k] == SEPARATEUR ==> 0 < d.largeur_ligne <= 40
  }

  /** The whole menu can be drawn: without a grid always, with a grid when the width is 1 to 40 columns. */
  predicate Affichable(d: Disposition)
  {
    d.grille ==> 0 < d.largeur_ligne <= 40
  }

  /** The inverse video around the selected line. */
  function Inversion(etat: bool, actif: bool): seq<int>
  {
    if etat then EffetCodes(None, None, Some(actif)) else []
  }

  /** A grid bar (`[0x7d]` on the left, `[0x7b]` on the right). */
  function Barre(d: Disposition, code: int): seq<int>
  {
    if d.grille then [code] else []
  }

  /** The middle of a line: a run of 0x60 for a separator in a grid, the option padded with spaces otherwise. */
  function Contenu(d: Disposition, k: int, etat: bool): seq<int>
    requires 0 <= k < |d.options|
  {
    if d.options[k] == SEPARATEUR then
      if d.grille then RepeterCodes(Entier(0x60), d.largeur_ligne) else []
    else Inversion(etat, true) + Canonise(Videotex, Chaine(Complete(d.options[k], d.largeur_ligne, ' ')))
  }

  /** The start of a line: the cursor to its row, the colour, the left bar. */
  function Entame(d: Disposition, couleur: Option<Cle>, k: int): seq<int>
  {
    Emplacement(d.posx, d.posy + k + 1) + Teinte(couleur) + Barre(d, 0x7d)
  }

  /** The end of a line: normal video again when it was selected, the right bar. */
  function Fin(d: Disposition, etat: bool): seq<int>
  {
    Inversion(etat, false) + Barre(d, 0x7b)
  }

  /** The codes of `affiche_ligne`. */
  function LigneCodes(d: Disposition, couleur: Option<Cle>, k: int, etat: bool): seq<int>
    requires 0 <= k < |d.options|
  {
    Entame(d, couleur, k) + Contenu(d, k, etat) + Fin(d, etat)
  }

  /** The codes of the option lines 0..n-1 of `affiche`, each after the menu's colour. */
  function Lignes(d: Disposition, couleur: Option<Cle>, selection: int, n: nat): seq<int>
    requires n <= |d.options|
  {
    if n == 0 then []
    else Lignes(d, couleur, selection, n - 1) + Teinte(couleur) + LigneCodes(d, couleur, n - 1, selection == n - 1)
  }

  /**
   * A grid border, nothing without a grid: a run of 0x5f on the row of the
   * menu's corner (`bas` false) or of 0x7e on the row below the last option
   * (`bas` true), over the width, one column right of the corner.
   */
  function Cadre(d: Disposition, couleur: Option<Cle>, bas: bool): seq<int>
  {
    if d.grille then Bord(d, couleur, bas) else []
  }

  /** The codes of a border: the cursor, the colour, the run. */
  function Bord(d: Disposition, couleur: Option<Cle>, bas: bool): seq<int>
  {
    Emplacement(d.posx + 1, RangCadre(d, bas)) + Teinte(couleur) + RepeterCodes(Entier(TraitCadre(bas)), d.largeur_ligne)
  }

  /** The row of a border: the corner's row at the top, the row below the last option at the bottom. */
  function RangCadre(d: Disposition, bas: bool): int
  {
    if bas then d.posy + |d.options| + 1 else d.posy
  }

  /** The character a border repeats. */
  function TraitCadre(bas: bool): int
  {
    if bas then 0x7e else 0x5f
  }

  /** The codes of `affiche`: the top border, every line, the bottom border. */
  function MenuCodes(d: Disposition, couleur: Option<Cle>, selection: int): seq<int>
  {
    Cadre(d, couleur, false) + Lignes(d, couleur, selection, |d.options|) + Cadre(d, couleur, true)
  }

  /** Drawing line `i` after lines 0..i-1 gives lines 0..i. */
  lemma LignesPas(d: Disposition, couleur: Option<Cle>, selection: int, i: int,
                  t0: seq<int>, avant: seq<int>, teinte: seq<int>, apres: seq<int>)
    requires 0 <= i < |d.options|
    requires avant == t0 + Lignes(d, couleur, selection, i)
    requires teinte == avant + Teinte(couleur)
    requires apres == teinte + LigneCodes(d, couleur, i, selection == i)
    ensures apres == t0 + Lignes(d, couleur, selection, i + 1)
  {
    var l, t := Lignes(d, couleur, selection, i), Teinte(couleur);
    Associe(t0, l, t);
    Associe(t0, l + t, LigneCodes(d, couleur, i, selection == i));
  }

  /** An ASCII option padded with spaces is written as its own codes, inverse video first. */
  lemma ContenuAscii(d: Disposition, k: int)
    requires 0 <= k < |d.options| && d.options[k] != SEPARATEUR
    requires forall i | 0 <= i < |d.options[k]| :: d.options[k][i] as int < 0x80
    ensures Contenu(d, k, true) == [ESC, 0x5d] + Codes(Complete(d.options[k], d.largeur_ligne, ' '))
  {
    var texte := Complete(d.options[k], d.largeur_ligne, ' ');
    CompleteContenu(d.options[k], d.largeur_ligne, ' ');
    forall i | 0 <= i < |texte|
      ensures texte[i] as int < 0x80
    {
      if i < |d.options[k]| {
        assert texte[i] == texte[..|d.options[k]|][i];
      }
    }
    TraduitAscii(Videotex, texte);
  }

  /** Without a colour, in a grid, a line starts with US, its row, its column and the left bar. */
  lemma EntameGrille(d: Disposition, k: int)
    requires d.grille && 0 < d.posx <= 80 && 0 < d.posy && 0 <= k
    ensures Entame(d, None, k) == [US, 0x40 + d.posy + k + 1, 0x40 + d.posx, 0x7d]
  {
    assert Emplacement(d.posx, d.posy + k + 1) == [US, 0x40 + d.posy + k + 1, 0x40 + d.posx];
  }

  /**
   * The selected line of an ASCII option, drawn in a grid without a colour:
   * the cursor to its row, the left bar, inverse video, the option padded
   * with spaces to the width of the widest option, normal video, the right bar.
   */
  lemma LigneSelectionnee(d: Disposition, k: int)
    requires 0 <= k < |d.options| && d.options[k] != SEPARATEUR
    requires d.grille && 0 < d.posx <= 80 && 0 < d.posy
    requires forall i | 0 <= i < |d.options[k]| :: d.options[k][i] as int < 0x80
    ensures var texte := Complete(d.options[k], d.largeur_ligne, ' ');
      |texte| == Max(|d.options[k]|, d.largeur_ligne) &&
      LigneCodes(d, None, k, true) ==
        [US, 0x40 + d.posy + k + 1, 0x40 + d.posx, 0x7d, ESC, 0x5d] + Codes(texte) + [ESC, 0x5c, 0x7b]
  {
    var texte := Complete(d.options[k], d.largeur_ligne, ' ');
    CompleteContenu(d.options[k], d.largeur_ligne, ' ');
    var q, c, f := Entame(d, None, k), Contenu(d, k, true), Fin(d, true);
    EntameGrille(d, k);
    ContenuAscii(d, k);
    assert f == [ESC, 0x5c, 0x7b];
    var a := [US, 0x40 + d.posy + k + 1, 0x40 + d.posx, 0x7d];
    Regroupement(LigneCodes(d, None, k, true), q, c, f, a, [ESC, 0x5d], Codes(texte), [ESC, 0x5c, 0x7b],
             [US, 0x40 + d.posy + k + 1, 0x40 + d.posx, 0x7d, ESC, 0x5d]);
  }

  // ---------------------------------------------------------------------
  // Keys

  /** The outcome of a key: whether it was taken, the new selection, the codes sent. */
  datatype Mouvement = Mouvement(geree: bool, selection: int, codes: seq<int>)

  /** `change_selection`: nothing when it is the same line; otherwise the old line redrawn plain and the new one inverted. */
  function Change(d: Disposition, couleur: Option<Cle>, selection: int, k: int): Mouvement
    requires 0 <= selection < |d.options| && 0 <= k < |d.options|
  {
    if k == selection then Mouvement(true, selection, [])
    else Mouvement(true, k, LigneCodes(d, couleur, selection, false) + LigneCodes(d, couleur, k, true))
  }

  /** Moving to a found option, or a beep when there is none. */
  function Vers(d: Disposition, couleur: Option<Cle>, selection: int, cible: Option<nat>): Mouvement
    requires 0 <= selection < |d.options|
    requires cible.Some? ==> cible.value < |d.options|
  {
    if cible.None? then Mouvement(true, selection, [BEL]) else Change(d, couleur, selection, cible.value)
  }

  /** `gere_touche`: HAUT and BAS move the selection over the separators, any other key is left. */
  function Touche(d: Disposition, couleur: Option<Cle>, selection: int, s: seq<int>): Mouvement
    requires 0 <= selection < |d.options|
  {
    if s == HAUT then Vers(d, couleur, selection, OptionPrecedente(d.options, selection))
    else if s == BAS then Vers(d, couleur, selection, OptionSuivante(d.options, selection))
    else Mouvement(false, selection, [])
  }

  /**
   * HAUT and BAS are taken and nothing else; the selection moves up (HAUT)
   * or down (BAS) to the nearest option that is not a separator, with a
   * beep and no move when there is none.
   */
  lemma ToucheSelection(d: Disposition, couleur: Option<Cle>, selection: int, s: seq<int>)
    requires 0 <= selection < |d.options|
    ensures var m := Touche(d, couleur, selection, s);
      (m.geree <==> s == HAUT || s == BAS) &&
      (m.selection != selection ==> d.options[m.selection] != SEPARATEUR) &&
      (s == BAS ==> m.selection >= selection) && (s == HAUT ==> m.selection <= selection) &&
      (s == BAS && m.selection > selection ==> forall j | selection < j < m.selection :: d.options[j] == SEPARATEUR) &&
      (s == HAUT && m.selection < selection ==> forall j | m.selection < j < selection :: d.options[j] == SEPARATEUR) &&
      (m.codes == [BEL] <==> (s == HAUT && OptionPrecedente(d.options, selection).None?) ||
                             (s == BAS && OptionSuivante(d.options, selection).None?))
  {
    var m := Touche(d, couleur, selection, s);
    assert HAUT[2] != BAS[2];
    if s == HAUT || s == BAS {
      var cible := if s == HAUT then OptionPrecedente(d.options, selection) else OptionSuivante(d.options, selection);
      if cible.Some? {
        if cible.value != selection {
          assert |LigneCodes(d, couleur, selection, false)| >= 1 && |LigneCodes(d, couleur, cible.value, true)| >= 1;
          assert |m.codes| >= 2;
        }
      }
    }
  }

  // ---------------------------------------------------------------------
  // Drawing on the Minitel

  /** A grid bar when the menu has a grid. */
  method Barrer(minitel: Minitel, d: Disposition, code: int)
    modifies minitel`trace
    ensures minitel.trace == old(minitel.trace) + Barre(d, code)
  {
    if d.grille {
      minitel.EnvoyerListe([code]);
    }
  }

  /** Inverse video on or off around the selected line. */
  method Inverser(minitel: Minitel, etat: bool, actif: bool)
    modifies minitel`trace
    ensures minitel.trace == old(minitel.trace) + Inversion(etat, actif)
  {
    if etat {
      minitel.Effet(None, None, Some(actif));
    }
  }

  /** The middle of line `k`: a separator run, or the option in inverse video when selected, padded with spaces. */
  method DessineContenu(minitel: Minitel, d: Disposition, k: int, etat: bool)
    requires 0 <= k < |d.options| && Tracable(d, k)
    modifies minitel`trace
    ensures minitel.trace == old(minitel.trace) + Contenu(d, k, etat)
  {
    if d.options[k] == SEPARATEUR {
      if d.grille {
        minitel.Repeter(Entier(0x60), d.largeur_ligne);
      }
    } else {
      ghost var t0 := minitel.trace;
      Inverser(minitel, etat, true);
      ghost var t1 := minitel.trace;
      var option := Completer(d.options[k], d.largeur_ligne, ' ');
      minitel.Envoyer(Chaine(option));
      Succede(t0, Inversion(etat, true), t1, Canonise(Videotex, Chaine(option)), minitel.trace);
    }
  }

  /** `affiche_ligne`: line `k` of a menu laid out as `d`, in colour `couleur`, selected or not. */
  method DessineLigne(minitel: Minitel, d: Disposition, couleur: Option<Cle>, k: int, etat: bool)
    requires 0 <= k < |d.options| && Tracable(d, k)
    modifies minitel`trace
    ensures minitel.trace == old(minitel.trace) + LigneCodes(d, couleur, k, etat)
  {
    ghost var t0 := minitel.trace;
    EntameLigne(minitel, d, couleur, k);
    ghost var t1 := minitel.trace;
    DessineContenu(minitel, d, k, etat);
    ghost var t2 := minitel.trace;
    FinLigne(minitel, d, etat);
    Enchaine(t0, Entame(d, couleur, k), t1, Contenu(d, k, etat), t2, Fin(d, etat), minitel.trace);
  }

  /** The start of a line: the cursor to its row, the colour, the left bar. */
  method EntameLigne(minitel: Minitel, d: Disposition, couleur: Option<Cle>, k: int)
    modifies minitel`trace
    ensures minitel.trace == old(minitel.trace) + Entame(d, couleur, k)
  {
    ghost var t0 := minitel.trace;
    minitel.Position(d.posx, d.posy + k + 1, false);
    ghost var t1 := minitel.trace;
    Teindre(minitel, couleur);
    ghost var t2 := minitel.trace;
    Barrer(minitel, d, 0x7d);
    Enchaine(t0, Emplacement(d.posx, d.posy + k + 1), t1, Teinte(couleur), t2, Barre(d, 0x7d), minitel.trace);
  }

  /** The end of a line: normal video when it was selected, the right bar. */
  method FinLigne(minitel: Minitel, d: Disposition, etat: bool)
    modifies minitel`trace
    ensures minitel.trace == old(minitel.trace) + Fin(d, etat)
  {
    ghost var t0 := minitel.trace;
    Inverser(minitel, etat, false);
    ghost var t1 := minitel.trace;
    Barrer(minitel, d, 0x7b);
    Succede(t0, Inversion(etat, false), t1, Barre(d, 0x7b), minitel.trace);
  }

  /** The option lines of `affiche`, top to bottom, each after the menu's colour. */
  method DessineLignes(minitel: Minitel, d: Disposition, couleur: Option<Cle>, selection: int)
    requires Affichable(d)
    modifies minitel`trace
    ensures minitel.trace == old(minitel.trace) + Lignes(d, couleur, selection, |d.options|)
  {
    for i := 0 to |d.options|
      invariant minitel.trace == old(minitel.trace) + Lignes(d, couleur, selection, i)
    {
      ghost var avant := minitel.trace;
      Teindre(minitel, couleur);
      ghost var teinte := minitel.trace;
      DessineLigne(minitel, d, couleur, i, selection == i);
      LignesPas(d, couleur, selection, i, old(minitel.trace), avant, teinte, minitel.trace);
    }
  }

  /** A grid border: the cursor one column right of the corner, the colour, a run of 0x5f or 0x7e. */
  method DessineCadre(minitel: Minitel, d: Disposition, couleur: Option<Cle>, bas: bool)
    requires Affichable(d)
    modifies minitel`trace
    ensures minitel.trace == old(minitel.trace) + Cadre(d, couleur, bas)
  {
    if d.grille {
      TraceBord(minitel, d, couleur, bas);
    }
  }

  /** The drawing of a border in a grid. */
  method TraceBord(minitel: Minitel, d: Disposition, couleur: Option<Cle>, bas: bool)
    requires d.grille && 0 < d.largeur_ligne <= 40
    modifies minitel`trace
    ensures minitel.trace == old(minitel.trace) + Bord(d, couleur, bas)
  {
    ghost var t0 := minitel.trace;
    minitel.Position(d.posx + 1, RangCadre(d, bas), false);
    ghost var t1 := minitel.trace;
    Teindre(minitel, couleur);
    ghost var t2 := minitel.trace;
    minitel.Repeter(Entier(TraitCadre(bas)), d.largeur_ligne);
    Enchaine(t0, Emplacement(d.posx + 1, RangCadre(d, bas)), t1, Teinte(couleur), t2,
             RepeterCodes(Entier(TraitCadre(bas)), d.largeur_ligne), minitel.trace);
  }

  /** `affiche`: the top border, the lines, the bottom border. */
  method DessineMenu(minitel: Minitel, d: Disposition, couleur: Option<Cle>, selection: int)
    requires Affichable(d)
    modifies minitel`trace
    ensures minitel.trace == old(minitel.trace) + MenuCodes(d, couleur, selection)
  {
    ghost var t0 := minitel.trace;
    DessineCadre(minitel, d, couleur, false);
    ghost var t1 := minitel.trace;
    DessineLignes(minitel, d, couleur, selection);
    ghost var t2 := minitel.trace;
    DessineCadre(minitel, d, couleur, true);
    Enchaine(t0, Cadre(d, couleur, false), t1, Lignes(d, couleur, selection, |d.options|), t2,
             Cadre(d, couleur, true), minitel.trace);
  }

  class Menu {
    const minitel: Minitel
    const posx: int
    const posy: int
    const largeur: int
    const hauteur: int
    var couleur: Option<Cle>
    const activable: bool
    const options: seq<string>
    var selection: int
    const grille: bool
    const largeur_ligne: int

    /** The fixed fields the drawing depends on, gathered; the methods read them through it. */
    const forme: Disposition := Disposition(posx, posy, options, grille, largeur_ligne)

    /** The selection is one of the options and the line width is that of the widest option. */
    ghost predicate Valid()
      reads this
    {
      0 <= selection < |forme.options| && forme.largeur_ligne == LargeurLigne(forme.options)
    }

    constructor (minitel: Minitel, options: seq<string>, posx: int, posy: int, selection: int,
                 couleur: Option<Cle>, grille: bool)
      requires 0 <= selection < |options|
      requires Zone(posx, posy, LargeurLigne(options) + 2, |options| + 2)
      ensures Valid() && activable
      ensures this.minitel == minitel && this.options == options && this.selection == selection
      ensures this.posx == posx && this.posy == posy && this.couleur == couleur && this.grille == grille
      ensures largeur == largeur_ligne + 2 && hauteur == |options| + 2
    {
      this.minitel := minitel;
      this.options := options;
      this.selection := selection;
      this.grille := grille;
      var l := 0;
      for i := 0 to |options|
        invariant l == LargeurLigne(options[..i])
      {
        assert options[..i + 1][..i] == options[..i];
        l := Max(l, |options[i]|);
      }
      assert options[..|options|] == options;
      largeur_ligne := l;
      largeur := l + 2;
      hauteur := |options| + 2;
      this.posx := posx;
      this.posy := posy;
      this.couleur := couleur;
      activable := true;
    }

    /** `option_suivante`: the loop over the options after `numero`. */
    method Suivante(numero: int) returns (r: Option<nat>)
      requires 0 <= numero < |forme.options|
      ensures r == OptionSuivante(forme.options, numero)
    {
      for i := numero + 1 to |forme.options|
        invariant forall j | numero < j < i :: forme.options[j] == SEPARATEUR
      {
        if forme.options[i] != SEPARATEUR {
          return Some(i);
        }
      }
      return None;
    }

    /** `option_precedente`: the loop over the options before `numero`, downwards. */
    method Precedente(numero: int) returns (r: Option<nat>)
      requires 0 <= numero < |forme.options|
      ensures r == OptionPrecedente(forme.options, numero)
    {
      var i := numero - 1;
      while i >= 0
        invariant -1 <= i < numero
        invariant forall j | i < j < numero :: forme.options[j] == SEPARATEUR
      {
        if forme.options[i] != SEPARATEUR {
          return Some(i);
        }
        i := i - 1;
      }
      return None;
    }

    method GereTouche(sequence: seq<int>) returns (geree: bool)
      requires Valid() && Tracable(forme, selection)
      modifies this`selection, minitel`trace
      ensures Valid()
      ensures var m := Touche(forme, couleur, old(selection), sequence);
        geree == m.geree && selection == m.selection && minitel.trace == old(minitel.trace) + m.codes
    {
      if sequence == HAUT {
        var s := Precedente(selection);
        if s.None? {
          minitel.Bip();
        } else {
          ChangeSelection(s.value);
        }
        return true;
      }
      if sequence == BAS {
        var s := Suivante(selection);
        if s.None? {
          minitel.Bip();
        } else {
          ChangeSelection(s.value);
        }
        return true;
      }
      return false;
    }

    method ChangeSelection(k: int)
      requires Valid() && 0 <= k < |forme.options| && Tracable(forme, selection) && Tracable(forme, k)
      modifies this`selection, minitel`trace
      ensures Valid()
      ensures var m := Change(forme, couleur, old(selection), k);
        selection == m.selection && minitel.trace == old(minitel.trace) + m.codes
    {
      if selection == k {
        return;
      }
      ghost var t0 := minitel.trace;
      DessineLigne(minitel, forme, couleur, selection, false);
      ghost var t1 := minitel.trace;
      DessineLigne(minitel, forme, couleur, k, true);
      Succede(t0, LigneCodes(forme, couleur, selection, false), t1, LigneCodes(forme, couleur, k, true), minitel.trace);
      selection := k;
    }

    method AfficheLigne(k: int, etat: bool)
      requires 0 <= k < |forme.options| && Tracable(forme, k)
      modifies minitel`trace
      ensures minitel.trace == old(minitel.trace) + LigneCodes(forme, couleur, k, etat)
    {
      DessineLigne(minitel, forme, couleur, k, etat);
    }

    method Affiche()
      requires Affichable(forme)
      modifies minitel`trace
      ensures minitel.trace == old(minitel.trace) + MenuCodes(forme, couleur, selection)
    {
      DessineMenu(minitel, forme, couleur, selection);
    }
  }
}
