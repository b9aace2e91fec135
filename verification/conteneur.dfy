/**
 * A container (Conteneur.py): an ordered list of elements drawn together,
 * one of which, the active one, receives the keys.  ENTREE (SUITE) or the
 * down arrow moves to the next activable element, MAJ ENTREE (RETOUR) or
 * the up arrow to the previous one, with a beep at either end.
 *
 * An element is one of the widget classes; the active element is kept as
 * its index in the list, which names it exactly since no element is
 * added twice.
 */
module Conteneurs {
  import opened Outils
  import opened Constantes
  import opened Sequences
  import opened Codage
  import opened Pilote
  import opened Interface
  import opened Etiquettes
  import opened Champs
  import opened Menus
  import opened Fonds

  /** An element a container can hold. */
  datatype Element = Simple(u: UI) | Etiquette(l: Label) | Champ(c: ChampTexte) | Choix(m: Menu)

  /** The widget behind an element. */
  function Composant(e: Element): object
  {
    match e
    case Simple(u) => u
    case Etiquette(l) => l
    case Champ(c) => c
    case Choix(m) => m
  }

  /** The widgets of a list of elements. */
  function Composants(l: seq<Element>): (r: set<object>)
    ensures forall i | 0 <= i < |l| :: Composant(l[i]) in r
  {
    set i | 0 <= i < |l| :: Composant(l[i])
  }

  /** The terminal an element draws on. */
  function Terminal(e: Element): Minitel
  {
    match e
    case Simple(u) => u.minitel
    case Etiquette(l) => l.minitel
    case Champ(c) => c.minitel
    case Choix(m) => m.minitel
  }

  /** Whether the element takes keys; fixed when the widget is built. */
  function Activable(e: Element): bool
  {
    match e
    case Simple(u) => u.activable
    case Etiquette(l) => l.activable
    case Champ(c) => c.activable
    case Choix(m) => m.activable
  }

  /** The activable flags of a list of elements, in order. */
  function Activables(l: seq<Element>): (r: seq<bool>)
    ensures |r| == |l| && forall i | 0 <= i < |l| :: r[i] == Activable(l[i])
  {
    seq(|l|, i requires 0 <= i < |l| => Activable(l[i]))
  }

  /** The colour of whichever widget the element is. */
  function Couleur(e: Element): Option<Cle>
    reads Composant(e)
  {
    match e
    case Simple(u) => u.couleur
    case Etiquette(l) => l.couleur
    case Champ(c) => c.couleur
    case Choix(m) => m.couleur
  }

  /** What a widget's drawing and key handling depend on, read off its fields. */
  datatype Vue =
    | VueSimple
    | VueEtiquette(posx: int, posy: int, couleur: Option<Cle>, valeur: string)
    | VueChamp(cadre: Champs.Cadre, saisie: Saisie)
    | VueMenu(forme: Disposition, teinte: Option<Cle>, selection: int)

  /** The current view of an element. */
  function Apercu(e: Element): Vue
    reads Composant(e)
  {
    match e
    case Simple(u) => VueSimple
    case Etiquette(l) => VueEtiquette(l.posx, l.posy, l.couleur, l.valeur)
    case Champ(c) => VueChamp(c.Forme(), c.Etat())
    case Choix(m) => VueMenu(m.forme, m.couleur, m.selection)
  }

  /** The views of a list of elements, in order. */
  function Apercus(l: seq<Element>): (r: seq<Vue>)
    reads set i | 0 <= i < |l| :: Composant(l[i])
    ensures |r| == |l| && forall i | 0 <= i < |l| :: r[i] == Apercu(l[i])
  {
    if l == [] then [] else Apercus(l[..|l| - 1]) + [Apercu(l[|l| - 1])]
  }

  /**
   * The invariant of each widget, stated on its view: a text field's
   * cursor is inside its text and its total length, a menu's selection is one of
   * its options, its line width is that of the widest option and its
   * selected line can be redrawn.
   */
  predicate Dessinable(v: Vue)
  {
    match v
    case VueChamp(f, e) => f.visible >= 1 && Coherente(f, e)
    case VueMenu(d, _, selection) =>
      0 <= selection < |d.options| && d.largeur_ligne == LargeurLigne(d.options) && Tracable(d, selection)
    case _ => true
  }

  /** The widget's `affiche` runs to its end: a menu's frame and separators take at most 40 columns. */
  predicate Peignable(v: Vue)
  {
    v.VueMenu? ==> Affichable(v.forme)
  }

  /** The codes of the widget's `affiche`; the base element draws nothing. */
  function Peinture(v: Vue): seq<int>
    requires Dessinable(v)
  {
    match v
    case VueSimple => []
    case VueEtiquette(posx, posy, couleur, valeur) => LabelCodes(posx, posy, couleur, valeur)
    case VueChamp(f, e) => AfficheCodes(f, e)
    case VueMenu(d, couleur, selection) => MenuCodes(d, couleur, selection)
  }

  /** The codes of the `affiche` of the first `n` views, in list order. */
  function Peintures(vs: seq<Vue>, n: nat): seq<int>
    requires n <= |vs| && forall i | 0 <= i < |vs| :: Dessinable(vs[i])
  {
    if n == 0 then [] else Peintures(vs, n - 1) + Peinture(vs[n - 1])
  }

  /** Drawing element `i` after those before it gives the drawing of the first `i + 1`. */
  lemma PeinturesPas(vs: seq<Vue>, i: nat, t0: seq<int>, avant: seq<int>, apres: seq<int>)
    requires i < |vs| && forall j | 0 <= j < |vs| :: Dessinable(vs[j])
    requires avant == t0 + Peintures(vs, i)
    requires apres == avant + Peinture(vs[i])
    ensures apres == t0 + Peintures(vs, i + 1)
  {
    Associe(t0, Peintures(vs, i), Peinture(vs[i]));
  }

  /** `gere_arrivee`: only a text field does something, putting the cursor back and showing it. */
  function Accueil(v: Vue): seq<int>
  {
    match v
    case VueChamp(f, e) => Replace(f, e)
    case _ => []
  }

  /** `gere_depart`: only a text field does something, hiding the cursor. */
  function Depart(v: Vue): seq<int>
  {
    match v
    case VueChamp(_, _) => CurseurCodes(false)
    case _ => []
  }

  /** The view after `gere_depart`: a text field drops its pending dead key. */
  function Quitte(v: Vue): Vue
  {
    match v
    case VueChamp(f, e) => VueChamp(f, e.(accent := None))
    case _ => v
  }

  /** Leaving keeps the invariant and does not move where the cursor comes back. */
  lemma QuitteAccueil(v: Vue)
    ensures Dessinable(v) ==> Dessinable(Quitte(v))
    ensures Accueil(Quitte(v)) == Accueil(v)
  {
  }

  /** What a widget's `gere_touche` does: whether it takes the key, its new view, the codes it sends. */
  datatype Effet = Effet(geree: bool, vue: Vue, codes: seq<int>)

  function Reagit(v: Vue, s: seq<int>): Effet
    requires Dessinable(v) && |s| >= 1
  {
    match v
    case VueChamp(f, e) =>
      var r := Champs.Touche(f, e, s, TelQuEcrit);
      Effet(r.geree, VueChamp(f, r.etat), r.codes)
    case VueMenu(d, couleur, selection) =>
      var m := Menus.Touche(d, couleur, selection, s);
      Effet(m.geree, VueMenu(d, couleur, m.selection), m.codes)
    case _ => Effet(false, v, [])
  }

  /**
   * Every widget keeps its invariant; a key a widget does not take leaves it
   * unchanged and sends nothing, so the container may go on with it.  A menu
   * takes exactly the arrows, a label or a plain element nothing.
   */
  lemma ReagitMuet(v: Vue, s: seq<int>)
    requires Dessinable(v) && |s| >= 1
    ensures Dessinable(Reagit(v, s).vue)
    ensures !Reagit(v, s).geree ==> Reagit(v, s).vue == v && Reagit(v, s).codes == []
    ensures v.VueMenu? ==> (Reagit(v, s).geree <==> s == HAUT || s == BAS)
    ensures v.VueSimple? || v.VueEtiquette? ==> !Reagit(v, s).geree
  {
    match v
    case VueChamp(f, e) =>
      ToucheIgnoree(f, e, s, TelQuEcrit);
      ToucheCoherente(f, e, s, TelQuEcrit);
    case VueMenu(d, couleur, selection) =>
      ToucheSelection(d, couleur, selection, s);
    case _ =>
  }

  // ---------------------------------------------------------------------
  // Navigation

  /** The arrow keys and ENTREE move forward or backward; anything else is not the container's. */
  predicate Avance(s: seq<int>)
  {
    s == BAS || s == SUITE
  }

  predicate Recule(s: seq<int>)
  {
    s == HAUT || s == RETOUR
  }

  /**
   * The element a navigation key makes active: the next (or previous)
   * activable element, or None when there is none and the container beeps.
   */
  function Voisin(p: seq<bool>, n: nat, avance: bool): (r: Option<nat>)
    requires n < |p|
    ensures r.Some? ==> r.value < |p| && p[r.value] && r.value != n
  {
    if avance then PremierApres(p, n) else DernierAvant(p, n)
  }

  /** Moving forward then backward returns to the element one started from, and the other way round. */
  lemma VoisinRetour(p: seq<bool>, n: nat, avance: bool)
    requires n < |p| && p[n]
    ensures Voisin(p, n, avance).Some? ==> Voisin(p, Voisin(p, n, avance).value, !avance) == Some(n)
  {
    AllerRetour(p, n);
  }

  /**
   * What `gere_touche` does when element `n` is active, on values: `r` is
   * what the element's own `gere_touche` does, `v` its view before, `p` the
   * activable flags, `w` the view of the element active afterwards.  `actif` is the element active afterwards, `vue` element
   * `n`'s new view and `codes` everything sent, its `gere_arrivee` included.
   */
  datatype Issue = Issue(geree: bool, actif: nat, vue: Vue, codes: seq<int>)

  function Clavier(r: Effet, v: Vue, p: seq<bool>, n: nat, s: seq<int>, w: Vue): (i: Issue)
    requires n < |p|
    ensures i.geree <==> r.geree || Avance(s) || Recule(s)
    ensures i.actif < |p| && (i.actif != n ==> p[i.actif])
    ensures !i.geree ==> i.actif == n && i.vue == v && i.codes == []
  {
    if r.geree then Issue(true, n, r.vue, r.codes)
    else if Avance(s) || Recule(s) then
      var cible := Voisin(p, n, Avance(s));
      Issue(true, if cible.Some? then cible.value else n, Quitte(v),
            Depart(v) + (if cible.None? then [BEL] else []) + Accueil(w))
    else Issue(false, n, v, [])
  }

  // ---------------------------------------------------------------------
  // Calls on one element

  /** Draws one element with its own `affiche`. */
  method DessineElement(e: Element, ghost v: Vue)
    requires Apercu(e) == v && Dessinable(v) && Peignable(v)
    modifies Terminal(e)`trace
    ensures Terminal(e).trace == old(Terminal(e).trace) + Peinture(v)
  {
    match e
    case Simple(u) =>
    case Etiquette(l) => l.Affiche();
    case Champ(c) => c.Affiche();
    case Choix(m) => m.Affiche();
  }

  /** The element's `gere_arrivee`. */
  method Arrive(e: Element, ghost v: Vue)
    requires Apercu(e) == v
    modifies Terminal(e)`trace
    ensures Terminal(e).trace == old(Terminal(e).trace) + Accueil(v)
  {
    match e
    case Champ(c) => c.GereArrivee();
    case _ =>
  }

  /** The element's `gere_depart`. */
  method Part(e: Element, ghost v: Vue)
    requires Apercu(e) == v
    modifies Composant(e), Terminal(e)`trace
    ensures Apercu(e) == Quitte(v)
    ensures Terminal(e).trace == old(Terminal(e).trace) + Depart(v)
  {
    match e
    case Champ(c) => c.GereDepart();
    case _ =>
  }

  /** The element's own `gere_touche`. */
  method Transmet(e: Element, s: seq<int>, ghost v: Vue) returns (geree: bool)
    requires Apercu(e) == v && Dessinable(v) && |s| >= 1
    modifies Composant(e), Terminal(e)`trace
    ensures var r := Reagit(v, s);
      geree == r.geree && Apercu(e) == r.vue && Terminal(e).trace == old(Terminal(e).trace) + r.codes
  {
    match e
    case Simple(u) => geree := u.GereTouche(s);
    case Etiquette(l) => geree := l.GereTouche(s);
    case Champ(c) => geree := c.GereTouche(s);
    case Choix(m) => geree := m.GereTouche(s);
  }

  // ---------------------------------------------------------------------
  // The container

  class Conteneur {
    const minitel: Minitel
    const posx: int
    const posy: int
    const largeur: int
    const hauteur: int
    var couleur: Option<Cle>
    const activable: bool
    const fond: Option<Cle>
    var elements: seq<Element>
    /** The index of `element_actif` in `elements`. */
    var actif: Option<nat>
    /** The place of each widget in `elements`, which keeps them all different. */
    ghost var rang: map<object, nat>

    /**
     * The container's rectangle is on the screen; its elements keep their
     * invariants, draw on the container's terminal and are all different;
     * the active element is one of them and is activable.
     */
    ghost predicate Valid()
      reads this, set i | 0 <= i < |elements| :: Composant(elements[i])
    {
      Zone(posx, posy, largeur, hauteur) &&
      (forall i {:trigger Apercu(elements[i])} | 0 <= i < |elements| :: Dessinable(Apercu(elements[i]))) &&
      (forall i {:trigger Terminal(elements[i])} | 0 <= i < |elements| :: Terminal(elements[i]) == minitel) &&
      (forall i {:trigger Composant(elements[i])} | 0 <= i < |elements| ::
         Composant(elements[i]) != minitel && Composant(elements[i]) in rang && rang[Composant(elements[i])] == i) &&
      (actif.Some? ==> actif.value < |elements| && Activable(elements[actif.value]))
    }

    /** Every element can be drawn to the end. */
    ghost predicate Affichables()
      reads this, set i | 0 <= i < |elements| :: Composant(elements[i])
    {
      forall i {:trigger Apercu(elements[i])} | 0 <= i < |elements| :: Peignable(Apercu(elements[i]))
    }

    /** The widget of the active element, the only one a key can change. */
    function Actif(): set<object>
      reads this
    {
      if actif.Some? && actif.value < |elements| then {Composant(elements[actif.value])} else {}
    }

    constructor (minitel: Minitel, posx: int, posy: int, largeur: int, hauteur: int,
                 couleur: Option<Cle>, fond: Option<Cle>)
      requires Zone(posx, posy, largeur, hauteur)
      ensures Valid()
      ensures this.minitel == minitel && this.posx == posx && this.posy == posy
      ensures this.largeur == largeur && this.hauteur == hauteur && this.couleur == couleur
      ensures this.fond == fond && !activable
      ensures elements == [] && actif.None?
    {
      this.minitel := minitel;
      this.posx := posx;
      this.posy := posy;
      this.largeur := largeur;
      this.hauteur := hauteur;
      this.couleur := couleur;
      activable := false;
      this.fond := fond;
      elements := [];
      actif := None;
      rang := map[];
    }

    /**
     * `ajoute`: an element not yet in the container goes at the end, takes
     * the container's colour when it has none, and becomes the active one
     * when there is none and it is activable.
     */
    method Ajoute(e: Element)
      requires Valid() && Dessinable(Apercu(e)) && Terminal(e) == minitel
      requires Composant(e) !in Composants(elements)
      modifies this`elements, this`actif, this`rang, Composant(e)
      ensures Valid()
      ensures elements == old(elements) + [e]
      ensures Couleur(e) == if old(Couleur(e)).None? then couleur else old(Couleur(e))
      ensures actif == if old(actif).None? && Activable(e) then Some(|old(elements)|) else old(actif)
    {
      Colore(e);
      Range(e);
    }

    /** The list step of `ajoute`: the element at the end, active when there was none and it is activable. */
    method Range(e: Element)
      requires Valid() && Dessinable(Apercu(e)) && Terminal(e) == minitel
      requires Composant(e) !in Composants(elements)
      modifies this`elements, this`actif, this`rang
      ensures Valid()
      ensures elements == old(elements) + [e]
      ensures actif == if old(actif).None? && Activable(e) then Some(|old(elements)|) else old(actif)
    {
      var l := elements + [e];
      assert forall i | 0 <= i < |elements| :: l[i] == elements[i];
      elements, rang, actif := l, rang[Composant(e) := |elements|],
        if actif.None? && Activable(e) then Some(|elements|) else actif;
    }

    /** The colour step of `ajoute`: a widget without a colour takes the container's; the container is untouched. */
    method Colore(e: Element)
      requires Valid() && Dessinable(Apercu(e))
      requires Composant(e) !in Composants(elements)
      modifies Composant(e)
      ensures Valid() && Dessinable(Apercu(e))
      ensures Couleur(e) == if old(Couleur(e)).None? then couleur else old(Couleur(e))
    {
      assert forall i | 0 <= i < |elements| :: Composant(elements[i]) != Composant(e);
      if Couleur(e).None? {
        Teinte(e, couleur);
      }
    }

    /** `element.couleur = ...` on whichever widget the element is. */
    static method Teinte(e: Element, couleur: Option<Cle>)
      requires Dessinable(Apercu(e))
      modifies Composant(e)
      ensures Dessinable(Apercu(e)) && Couleur(e) == couleur
    {
      match e
      case Simple(u) => u.couleur := couleur;
      case Etiquette(l) => l.couleur := couleur;
      case Champ(c) => c.couleur := couleur;
      case Choix(m) => m.couleur := couleur;
    }

    /** `suivant`: the first activable element after the active one (after none: from the start); no wrap. */
    method Suivant() returns (trouve: bool)
      requires Valid()
      modifies this`actif
      ensures Valid()
      ensures var r := PremierApres(Activables(elements), if old(actif).None? then -1 else old(actif).value);
        trouve == r.Some? && actif == if trouve then r else old(actif)
    {
      ghost var p := Activables(elements);
      ghost var depart := if actif.None? then -1 else actif.value;
      if |elements| == 0 {
        return false;
      }
      var index := if actif.None? then -1 else actif.value;
      while index < |elements| - 1
        invariant -1 <= index < |elements|
        invariant PremierApres(p, index) == PremierApres(p, depart)
        decreases |elements| - index
      {
        index := index + 1;
        if Activable(elements[index]) {
          actif := Some(index);
          return true;
        }
      }
      return false;
    }

    /** `precedent`: the last activable element before the active one (before none: from the end); no wrap. */
    method Precedent() returns (trouve: bool)
      requires Valid()
      modifies this`actif
      ensures Valid()
      ensures var r := DernierAvant(Activables(elements), if old(actif).None? then |elements| else old(actif).value);
        trouve == r.Some? && actif == if trouve then r else old(actif)
    {
      ghost var p := Activables(elements);
      ghost var depart := if actif.None? then |elements| else actif.value;
      if |elements| == 0 {
        return false;
      }
      var index := if actif.None? then |elements| else actif.value;
      while index > 0
        invariant 0 <= index <= |elements|
        invariant DernierAvant(p, index) == DernierAvant(p, depart)
      {
        index := index - 1;
        if Activable(elements[index]) {
          actif := Some(index);
          return true;
        }
      }
      return false;
    }

    /** The background of `affiche`, painted only when the container has a background colour. */
    function Fond(): seq<int>
      requires Zone(posx, posy, largeur, hauteur)
    {
      if fond.Some? then FondCodes(posx, posy, largeur, CouleurCodes(None, fond), hauteur) else []
    }

    /** The `gere_arrivee` of the active element, if there is one. */
    function Reprise(): seq<int>
      reads this, set i | 0 <= i < |elements| :: Composant(elements[i])
    {
      if actif.Some? && actif.value < |elements| then Accueil(Apercu(elements[actif.value])) else []
    }

    /**
     * `affiche`: the background when there is one, every element in list
     * order, then the active element is given the keys.
     */
    method Affiche()
      requires Valid() && Affichables() && (fond.Some? ==> largeur <= 40)
      modifies minitel`trace
      ensures minitel.trace == old(minitel.trace + Fond() + Peintures(Apercus(elements), |elements|) + Reprise())
    {
      ghost var t0 := minitel.trace;
      ghost var peintures := Peintures(Apercus(elements), |elements|);
      ghost var reprise := Reprise();
      Fonde();
      ghost var t1 := minitel.trace;
      DessineTous();
      ghost var t2 := minitel.trace;
      Reprend();
      Enchaine(t0, Fond(), t1, peintures, t2, reprise, minitel.trace);
    }

    /** The background step of `affiche`; the elements are untouched. */
    method Fonde()
      requires Valid() && (fond.Some? ==> largeur <= 40)
      modifies minitel`trace
      ensures Valid() && minitel.trace == old(minitel.trace + Fond())
      ensures Apercus(elements) == old(Apercus(elements)) && Reprise() == old(Reprise())
    {
      if fond.Some? {
        PeintFond(minitel, posx, posy, largeur, hauteur, fond);
      }
    }

    /** The last step of `affiche`: the active element, if any, is given the keys. */
    method Reprend()
      requires Valid()
      modifies minitel`trace
      ensures minitel.trace == old(minitel.trace + Reprise())
    {
      if actif.Some? {
        Arrive(elements[actif.value], Apercu(elements[actif.value]));
      }
    }

    /** The loop of `affiche` over the elements. */
    method DessineTous()
      requires Valid() && Affichables()
      modifies minitel`trace
      ensures minitel.trace == old(minitel.trace + Peintures(Apercus(elements), |elements|))
      ensures Valid() && Reprise() == old(Reprise())
    {
      var l := elements;
      ghost var vues := Apercus(l);
      ghost var t0 := minitel.trace;
      assert forall k | 0 <= k < |l| :: Dessinable(vues[k]) && Peignable(vues[k]) && Terminal(l[k]) == minitel && Composant(l[k]) != minitel;
      for i := 0 to |l|
        invariant minitel.trace == t0 + Peintures(vues, i)
        invariant forall k | i <= k < |l| :: Apercu(l[k]) == vues[k]
      {
        ghost var avant := minitel.trace;
        DessineElement(l[i], vues[i]);
        PeinturesPas(vues, i, t0, avant, minitel.trace);
      }
    }

    /**
     * `gere_touche`: without an active element nothing is taken.  The
     * active element sees the key first; if it does not take it, a
     * navigation key makes the next (or previous) activable element active,
     * with a beep when there is none, and anything else is not taken.
     */
    method GereTouche(s: seq<int>) returns (geree: bool)
      requires Valid() && |s| >= 1
      modifies this`actif, Actif(), minitel`trace
      ensures Valid()
      ensures old(actif).None? ==> !geree && actif.None? && minitel.trace == old(minitel.trace)
      ensures old(actif).Some? ==> (
        actif.Some? &&
        var n := old(actif).value;
        var i := Clavier(Reagit(old(Apercu(elements[n])), s), old(Apercu(elements[n])), Activables(elements), n, s, Apercu(elements[actif.value]));
        geree == i.geree && actif == Some(i.actif) && Apercu(elements[n]) == i.vue &&
        minitel.trace == old(minitel.trace) + i.codes)
    {
      if actif.None? {
        return false;
      }
      geree := Reagir(actif.value, s);
    }

    /** `gere_touche` with element `n` active. */
    method Reagir(n: nat, s: seq<int>) returns (geree: bool)
      requires Valid() && actif == Some(n) && |s| >= 1
      modifies this`actif, Composant(elements[n]), minitel`trace
      ensures Valid() && actif.Some?
      ensures var i := Clavier(Reagit(old(Apercu(elements[n])), s), old(Apercu(elements[n])), Activables(elements), n, s, Apercu(elements[actif.value]));
        geree == i.geree && actif == Some(i.actif) && Apercu(elements[n]) == i.vue &&
        minitel.trace == old(minitel.trace) + i.codes
    {
      ghost var v := Apercu(elements[n]);
      ghost var r := Reagit(v, s);
      geree := Delegue(n, s);
      if !geree {
        geree := Repli(n, s, r, v);
      }
    }

    /** The container's part of `gere_touche`, once the active element `n` has left the key. */
    method Repli(n: nat, s: seq<int>, ghost r: Effet, ghost v: Vue) returns (geree: bool)
      requires Valid() && actif == Some(n) && !r.geree && Apercu(elements[n]) == v
      modifies this`actif, Composant(elements[n]), minitel`trace
      ensures Valid() && actif.Some?
      ensures var i := Clavier(r, v, Activables(elements), n, s, Apercu(elements[actif.value]));
        geree == i.geree && actif == Some(i.actif) && Apercu(elements[n]) == i.vue &&
        minitel.trace == old(minitel.trace) + i.codes
    {
      if Avance(s) || Recule(s) {
        Navigue(n, Avance(s));
        geree := true;
      } else {
        geree := false;
      }
    }

    /** The active element's own `gere_touche`. */
    method Delegue(n: nat, s: seq<int>) returns (geree: bool)
      requires Valid() && actif == Some(n) && |s| >= 1
      modifies Composant(elements[n]), minitel`trace
      ensures Valid()
      ensures var r := Reagit(old(Apercu(elements[n])), s);
        geree == r.geree && Apercu(elements[n]) == r.vue && minitel.trace == old(minitel.trace) + r.codes
      ensures !geree ==> Apercu(elements[n]) == old(Apercu(elements[n])) && minitel.trace == old(minitel.trace)
    {
      ReagitMuet(Apercu(elements[n]), s);
      geree := Transmet(elements[n], s, Apercu(elements[n]));
    }

    /** The departure, the move with a beep when there is nowhere to go, and the arrival. */
    method Navigue(n: nat, avance: bool)
      requires Valid() && actif == Some(n)
      modifies this`actif, Composant(elements[n]), minitel`trace
      ensures Valid()
      ensures var v := Voisin(Activables(elements), n, avance);
        actif == (if v.Some? then v else Some(n)) && Apercu(elements[n]) == Quitte(old(Apercu(elements[n]))) &&
        minitel.trace == old(minitel.trace) + (Depart(old(Apercu(elements[n]))) + (if v.None? then [BEL] else []) +
                                               Accueil(Apercu(elements[actif.value])))
    {
      ghost var t0 := minitel.trace;
      ghost var avant := Apercu(elements[n]);
      Quitter(n);
      ghost var t1 := minitel.trace;
      Deplace(n, avance);
      ghost var t2 := minitel.trace;
      ghost var arrivee := Accueillir();
      ghost var v := Voisin(Activables(elements), n, avance);
      Enchaine(t0, Depart(avant), t1, if v.None? then [BEL] else [], t2, Accueil(arrivee), minitel.trace);
    }

    /** `gere_depart` of element `n`. */
    method Quitter(n: nat)
      requires Valid() && n < |elements|
      modifies Composant(elements[n]), minitel`trace
      ensures Valid()
      ensures Apercu(elements[n]) == Quitte(old(Apercu(elements[n])))
      ensures Accueil(Apercu(elements[n])) == Accueil(old(Apercu(elements[n])))
      ensures minitel.trace == old(minitel.trace) + Depart(old(Apercu(elements[n])))
    {
      ghost var avant := Apercu(elements[n]);
      QuitteAccueil(avant);
      Part(elements[n], avant);
      assert forall i | 0 <= i < |elements| && i != n :: Apercu(elements[i]) == old(Apercu(elements[i]));
    }

    /** The move to the next (or previous) activable element, with a beep when there is none. */
    method Deplace(n: nat, avance: bool)
      requires Valid() && actif == Some(n)
      modifies this`actif, minitel`trace
      ensures Valid()
      ensures var v := Voisin(Activables(elements), n, avance);
        actif == (if v.Some? then v else Some(n)) && minitel.trace == old(minitel.trace) + (if v.None? then [BEL] else [])
    {
      var trouve;
      if avance {
        trouve := Suivant();
      } else {
        trouve := Precedent();
      }
      if !trouve {
        minitel.Bip();
      }
    }

    /** `gere_arrivee` of the active element. */
    method Accueillir() returns (ghost vue: Vue)
      requires Valid() && actif.Some?
      modifies minitel`trace
      ensures Valid()
      ensures vue == Apercu(elements[actif.value]) && minitel.trace == old(minitel.trace) + Accueil(vue)
    {
      vue := Apercu(elements[actif.value]);
      Arrive(elements[actif.value], vue);
    }

    /**
     * `executer`: keys are read and handled until one is not taken.  The
     * source reads with no time-out and would wait for the next key; here
     * the loop also ends when the key script runs out (`Lire` gives None).
     */
    method Executer()
      requires Valid()
      modifies this`actif, Composants(elements), minitel`trace, minitel`entree
      ensures Valid() && elements == old(elements)
    {
      var encore := true;
      while encore
        invariant Valid()
        decreases if encore then |minitel.entree| + 1 else 0
      {
        encore := Tour();
      }
    }

    /** One turn of the loop of `executer`: read a key sequence and hand it to `gere_touche`. */
    method Tour() returns (encore: bool)
      requires Valid()
      modifies this`actif, Composants(elements), minitel`trace, minitel`entree
      ensures Valid()
      ensures encore ==> |minitel.entree| < old(|minitel.entree|)
    {
      var r := Lire();
      if r.None? {
        return false;
      }
      encore := GereTouche(r.value);
    }

    /**
     * The `recevoir_sequence` of `executer`: a key it yields is not empty and
     * uses up entries of the line; None is the key script running out.
     */
    method Lire() returns (r: Option<seq<int>>)
      requires Valid()
      modifies minitel`entree
      ensures Valid()
      ensures r.Some? ==> |r.value| >= 1 && |minitel.entree| < old(|minitel.entree|)
    {
      ghost var e0 := minitel.entree;
      r := minitel.RecevoirSequence();
      TrameAvance(e0);
    }
  }
}
