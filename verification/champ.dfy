/**
 * A text field (ChampTexte.py): one row of the screen showing a window of
 * `visible` columns onto a value that the cursor may take up to `totale`
 * characters, edited with the arrow keys, CORRECTION, ANNULATION and the
 * dead accent keys.  The field's behaviour is stated once as pure
 * functions on its state (`Touche`, `Gauche`, `Droite`, `AfficheCodes`)
 * and the class's methods are proved to do exactly that.
 */
module Champs {
  import opened Outils
  import opened Constantes
  import opened Sequences
  import opened Codage
  import opened Pilote
  import opened Interface

  /** The characters a text field takes from the keyboard. */
  const CARACTERES_MINITEL: string :=
    "abcdefghijklmnopqrstuvwxyz" + "ABCDEFGHIJKLMNOPQRSTUVWXYZ" + " *$!:;,?./&(-_)=+'@#" + "0123456789"

  const VOYELLES: string := "aeiou"

  /** Python's `int(n / 2)`: half of `n`, truncated toward zero. */
  function Moitie(n: int): (r: int)
    ensures n >= 0 ==> 0 <= n - 2 * r <= 1
    ensures n < 0 ==> 0 <= 2 * r - n <= 1
  {
    if n >= 0 then n / 2 else -((-n) / 2)
  }

  /** Where a field is, its colour, its visible and total lengths, and whether it hides its text. */
  datatype Cadre = Cadre(posx: int, posy: int, couleur: Option<Cle>, visible: int, totale: int, cache: bool)

  /** What a field holds: its text, the cursor, the first column shown, and a dead key waiting for a letter. */
  datatype Saisie = Saisie(valeur: string, curseur: int, decalage: int, accent: Option<seq<int>>)

  /** The outcome of a key or a cursor move: whether it was taken, the new state, the codes sent. */
  datatype Reaction = Reaction(geree: bool, etat: Saisie, codes: seq<int>)

  /** A window of one column or more; the cursor inside the text and not past the total length; the window starts at a column >= 0. */
  predicate Coherente(c: Cadre, e: Saisie)
  {
    1 <= c.visible && 0 <= e.curseur <= |e.valeur| && e.curseur <= c.totale && 0 <= e.decalage
  }

  /** The cursor is in the window, or just after its last column. */
  predicate Visible(c: Cadre, e: Saisie)
  {
    e.decalage <= e.curseur <= e.decalage + c.visible
  }

  // ---------------------------------------------------------------------
  // Display

  /** `'*' * n`. */
  function Etoiles(n: nat): string
  {
    seq(n, i => '*')
  }

  /** Python's `s[debut:]`. */
  function Suffixe(s: string, debut: nat): string
  {
    if debut <= |s| then s[debut..] else ""
  }

  /** The text `affiche` writes: from the window's start, cut to the window or padded with dots. */
  function Affichage(val: string, decalage: nat, visible: nat): string
  {
    if |val| - decalage <= visible then Complete(Suffixe(val, decalage), visible, '.')
    else val[decalage..decalage + visible]
  }

  /** The window shows exactly `visible` characters: those of the text from `decalage` on, then dots. */
  lemma AffichageFenetre(val: string, decalage: nat, visible: nat)
    ensures var r := Affichage(val, decalage, visible);
      |r| == visible &&
      forall i | 0 <= i < visible :: r[i] == if decalage + i < |val| then val[decalage + i] else '.'
  {
    if |val| - decalage <= visible {
      CompleteContenu(Suffixe(val, decalage), visible, '.');
    }
  }

  /** The text on screen: the value, or as many stars when the field is hidden. */
  function Montre(c: Cadre, valeur: string): string
  {
    if c.cache then Etoiles(|valeur|) else valeur
  }

  /** The start of `affiche`: cursor hidden, cursor to the field, the field's colour. */
  function Entete(c: Cadre): seq<int>
  {
    CurseurCodes(false) + Emplacement(c.posx, c.posy) + Teinte(c.couleur)
  }

  /** The cursor put back at its column in the window, and shown. */
  function Replace(c: Cadre, e: Saisie): seq<int>
  {
    Emplacement(c.posx + e.curseur - e.decalage, c.posy) + CurseurCodes(true)
  }

  /** The codes of `affiche`. */
  function AfficheCodes(c: Cadre, e: Saisie): seq<int>
    requires e.decalage >= 0 && c.visible >= 0
  {
    Entete(c) + Canonise(Videotex, Chaine(Affichage(Montre(c, e.valeur), e.decalage, c.visible))) + Replace(c, e)
  }

  // ---------------------------------------------------------------------
  // Cursor moves

  /** `curseur_gauche`: a beep at the start; otherwise one left, scrolling back by half the window when the cursor leaves it. */
  function Gauche(c: Cadre, e: Saisie): Reaction
    requires e.decalage >= 0 && c.visible >= 0
  {
    if e.curseur == 0 then Reaction(false, e, [BEL])
    else
      var x := e.curseur - 1;
      if x < e.decalage then
        var f := e.(curseur := x, decalage := Max(0, Moitie(2 * e.decalage - c.visible)));
        Reaction(true, f, AfficheCodes(c, f))
      else
        Reaction(true, e.(curseur := x), Emplacement(c.posx + x - e.decalage, c.posy))
  }

  /**
   * Which behaviour a function of the field gives: the program's, as
   * ChampTexte.py writes it, or the one its authors evidently meant, where
   * the two differ (the scroll of a one-column window, a full field, the
   * window after ANNULATION).  The widget runs `TelQuEcrit`.
   */
  datatype Version = TelQuEcrit | Corrige

  /** The window start after a scroll to the right, as `curseur_droite` computes it: `max(0, int(d + visible/2))`. */
  function DecaleTelQuEcrit(visible: int, decalage: int): int
  {
    Max(0, Moitie(2 * decalage + visible))
  }

  /** The window start after a scroll to the right, moving by at least one column. */
  function Decale(visible: int, decalage: int): int
  {
    Max(DecaleTelQuEcrit(visible, decalage), decalage + 1)
  }

  /** A one-column window does not move when scrolled as written, leaving the cursor two columns past it. */
  lemma DecaleTelQuEcritImmobile()
    ensures DecaleTelQuEcrit(1, 0) == 0
    ensures var c := Cadre(1, 1, None, 1, 2, false);
      var e := Saisie("ab", 1, 0, None);
      Coherente(c, e) && Visible(c, e) && Droite(c, e, TelQuEcrit).etat == Saisie("ab", 2, 0, None) &&
      !Visible(c, Droite(c, e, TelQuEcrit).etat)
  {
  }

  /** With the corrected scroll, a cursor one column past the window's end is inside the new window, for every width. */
  lemma DecaleSuitLeCurseur(visible: int, decalage: nat)
    requires visible >= 1
    ensures var d := Decale(visible, decalage);
      decalage < d && d <= decalage + visible + 1 <= d + visible
    ensures visible >= 2 ==> Decale(visible, decalage) == DecaleTelQuEcrit(visible, decalage)
  {
  }

  /** `curseur_droite`: a beep at the end of the text or of the total length; otherwise one right, scrolling when the cursor leaves the window. */
  function Droite(c: Cadre, e: Saisie, v: Version): Reaction
    requires e.decalage >= 0 && c.visible >= 0
  {
    if e.curseur == Min(|e.valeur|, c.totale) then Reaction(false, e, [BEL])
    else
      var x := e.curseur + 1;
      if x > e.decalage + c.visible then
        var d := if v == Corrige then Decale(c.visible, e.decalage) else DecaleTelQuEcrit(c.visible, e.decalage);
        var f := e.(curseur := x, decalage := d);
        Reaction(true, f, AfficheCodes(c, f))
      else
        Reaction(true, e.(curseur := x), Emplacement(c.posx + x - e.decalage, c.posy))
  }

  function Min(a: int, b: int): int
  {
    if a <= b then a else b
  }

  /** From a state where the cursor could move right, moving left brings it back. */
  lemma DroiteGauche(c: Cadre, e: Saisie, v: Version)
    requires Coherente(c, e)
    requires Droite(c, e, v).geree
    ensures var g := Gauche(c, Droite(c, e, v).etat); g.geree && g.etat.curseur == e.curseur
    ensures Droite(c, e, v).etat.curseur == e.curseur + 1
  {
  }

  // ---------------------------------------------------------------------
  // Editing

  /** The first index of `x` in `s` (Python's `s.index(x)`). */
  function Indice(s: string, x: char): (k: nat)
    requires x in s
    ensures k < |s| && s[k] == x && x !in s[..k]
  {
    if s[0] == x then 0
    else
      assert s == [s[0]] + s[1..];
      var k := Indice(s[1..], x) + 1;
      assert s[..k] == [s[0]] + s[1..][..k - 1];
      k
  }

  /** The letter a pending dead key makes of a typed character: the accented vowel, or the character itself. */
  function Accentue(accent: Option<seq<int>>, ch: char): char
  {
    if accent.None? || ch !in VOYELLES then ch
    else
      var k := Indice(VOYELLES, ch);
      if accent.value == ACCENT_AIGU then "\U{e1}\U{e9}\U{ed}\U{f3}\U{fa}"[k]
      else if accent.value == ACCENT_GRAVE then "\U{e0}\U{e8}\U{ec}\U{f2}\U{f9}"[k]
      else if accent.value == ACCENT_CIRCONFLEXE then "\U{e2}\U{ea}\U{ee}\U{f4}\U{fb}"[k]
      else if accent.value == ACCENT_TREMA then "\U{e4}\U{eb}\U{ef}\U{f6}\U{fc}"[k]
      else ch
  }

  /** The value with `ch` inserted at the cursor. */
  function Insertion(e: Saisie, ch: char): string
    requires 0 <= e.curseur <= |e.valeur|
  {
    e.valeur[..e.curseur] + [ch] + e.valeur[e.curseur..]
  }

  /**
   * Typing a character: inserted at the cursor, then the cursor moved right
   * and the field redrawn.  As written this happens whatever the value's
   * length; the corrected field refuses a character with a beep when the
   * value already has `totale` characters.
   */
  function Insere(c: Cadre, e: Saisie, ch: char, v: Version): Reaction
    requires Coherente(c, e)
  {
    if v == Corrige && |e.valeur| >= c.totale then Reaction(true, e, [BEL])
    else
      var d := Droite(c, e.(valeur := Insertion(e, ch)), v);
      Reaction(true, d.etat, d.codes + AfficheCodes(c, d.etat))
  }

  /** As written, a full field (`totale` characters) still takes a typed character, and its value grows past the total length. */
  lemma InsereTelQuEcritDeborde()
    ensures var c := Cadre(1, 1, None, 1, 1, false);
      var e := Saisie("a", 1, 0, None);
      Coherente(c, e) && Visible(c, e) && |Insere(c, e, 'b', TelQuEcrit).etat.valeur| == 2 > c.totale
  {
    var c := Cadre(1, 1, None, 1, 1, false);
    var e := Saisie("a", 1, 0, None);
    assert Insertion(e, 'b') == "ab";
  }

  /** CORRECTION: the character left of the cursor removed, when the cursor can move left. */
  function Correction(c: Cadre, e: Saisie): Reaction
    requires Coherente(c, e)
  {
    var g := Gauche(c, e);
    if g.geree then
      var x := g.etat.curseur;
      var f := g.etat.(valeur := g.etat.valeur[..x] + g.etat.valeur[x + 1..]);
      Reaction(true, f, g.codes + AfficheCodes(c, f))
    else g.(geree := true)
  }

  /** ANNULATION: the value and the cursor reset; the window start is kept as written, brought back to 0 when corrected. */
  function Annulation(e: Saisie, v: Version): Saisie
  {
    e.(accent := None, valeur := "", curseur := 0, decalage := if v == Corrige then 0 else e.decalage)
  }

  /**
   * After "abc" typed in a 2-column field the window starts at 1; ANNULATION
   * as written keeps that start, so the cursor sits left of the field and
   * the next character typed is drawn off the window, showing only dots.
   */
  lemma AnnulationTelleQuEcriteCache()
    ensures var c := Cadre(1, 1, None, 2, 5, false);
      var e := Saisie("abc", 3, 1, None);
      var f := Annulation(e, TelQuEcrit);
      Coherente(c, e) && Visible(c, e) && f.curseur < f.decalage && !Visible(c, f) &&
      Affichage("x", f.decalage, c.visible) == ".."
  {
    assert Suffixe("x", 1) == "";
    assert Complete("", 2, '.') == Complete(".", 2, '.') == "..";
  }

  /** The four dead keys that wait for a vowel. */
  predicate Accent(s: seq<int>)
  {
    s == ACCENT_AIGU || s == ACCENT_GRAVE || s == ACCENT_CIRCONFLEXE || s == ACCENT_TREMA
  }

  /** `gere_touche`: the field's reaction to one key sequence. */
  function Touche(c: Cadre, e: Saisie, s: seq<int>, v: Version): Reaction
    requires |s| >= 1 && Coherente(c, e)
  {
    var sans := e.(accent := None);
    if s == GAUCHE then Gauche(c, sans).(geree := true)
    else if s == DROITE then Droite(c, sans, v).(geree := true)
    else if s == CORRECTION then Correction(c, sans)
    else if s == ANNULATION then
      var f := Annulation(e, v);
      Reaction(true, f, AfficheCodes(c, f))
    else if Accent(s) then Reaction(true, e.(accent := Some(s)), [])
    else if s == ACCENT_CEDILLE + ['c' as int] then Insere(c, sans, '\U{e7}', v)
    else if Car(s[0]) in CARACTERES_MINITEL then Insere(c, sans, Accentue(e.accent, Car(s[0])), v)
    else Reaction(false, e, [])
  }

  // ---------------------------------------------------------------------
  // Properties of the key handling

  /** Every key, as written or corrected, keeps the cursor inside the text and under the total length. */
  lemma ToucheCoherente(c: Cadre, e: Saisie, s: seq<int>, v: Version)
    requires |s| >= 1 && Coherente(c, e)
    ensures Coherente(c, Touche(c, e, s, v).etat)
  {
    var sans := e.(accent := None);
    if s == GAUCHE || s == CORRECTION {
      GaucheCoherente(c, sans);
    } else if s == DROITE {
      DroiteCoherente(c, sans, v);
    } else if s == ANNULATION || Accent(s) {
    } else if s == ACCENT_CEDILLE + ['c' as int] {
      InsereCoherente(c, sans, '\U{e7}', v);
    } else if Car(s[0]) in CARACTERES_MINITEL {
      InsereCoherente(c, sans, Accentue(e.accent, Car(s[0])), v);
    }
  }

  lemma GaucheCoherente(c: Cadre, e: Saisie)
    requires Coherente(c, e)
    ensures Coherente(c, Gauche(c, e).etat)
  {
  }

  lemma DroiteCoherente(c: Cadre, e: Saisie, v: Version)
    requires Coherente(c, e)
    ensures Coherente(c, Droite(c, e, v).etat)
  {
  }

  lemma InsereCoherente(c: Cadre, e: Saisie, ch: char, v: Version)
    requires Coherente(c, e)
    ensures Coherente(c, Insere(c, e, ch, v).etat)
  {
    if v == TelQuEcrit || |e.valeur| < c.totale {
      DroiteCoherente(c, e.(valeur := Insertion(e, ch)), v);
    }
  }

  /**
   * Every key keeps the cursor in the window (or just after it): always
   * with the corrected field; as written only for windows of two columns or
   * more, and for ANNULATION only when the window was at the start.
   */
  lemma ToucheVisible(c: Cadre, e: Saisie, s: seq<int>, v: Version)
    requires |s| >= 1 && Coherente(c, e) && Visible(c, e)
    requires v == Corrige || (c.visible >= 2 && (s != ANNULATION || e.decalage == 0))
    ensures Visible(c, Touche(c, e, s, v).etat)
  {
    var sans := e.(accent := None);
    if s == GAUCHE || s == CORRECTION {
      GaucheVisible(c, sans);
    } else if s == DROITE {
      DroiteVisible(c, sans, v);
    } else if s == ANNULATION || Accent(s) {
    } else if s == ACCENT_CEDILLE + ['c' as int] {
      DroiteVisible(c, sans.(valeur := Insertion(sans, '\U{e7}')), v);
    } else if Car(s[0]) in CARACTERES_MINITEL {
      DroiteVisible(c, sans.(valeur := Insertion(sans, Accentue(e.accent, Car(s[0])))), v);
    }
  }

  lemma GaucheVisible(c: Cadre, e: Saisie)
    requires Coherente(c, e) && Visible(c, e)
    ensures Visible(c, Gauche(c, e).etat)
  {
    if e.curseur > 0 && e.curseur - 1 < e.decalage {
      var n := 2 * e.decalage - c.visible;
      assert Moitie(n) <= e.decalage - 1;
    }
  }

  /** Moving right keeps the cursor in the window: always when corrected, as written for windows of two columns or more. */
  lemma DroiteVisible(c: Cadre, e: Saisie, v: Version)
    requires 0 <= e.decalage && Visible(c, e) && c.visible >= 1
    requires v == Corrige || c.visible >= 2
    ensures Visible(c, Droite(c, e, v).etat)
  {
    DecaleSuitLeCurseur(c.visible, e.decalage);
  }

  /**
   * A key adds at most one character; with the corrected field it never
   * makes the value longer than the longer of its old length and the total
   * length (as written it does: InsereTelQuEcritDeborde).
   */
  lemma ToucheBornee(c: Cadre, e: Saisie, s: seq<int>, v: Version)
    requires |s| >= 1 && Coherente(c, e)
    ensures |Touche(c, e, s, v).etat.valeur| <= |e.valeur| + 1
    ensures v == Corrige ==> |Touche(c, e, s, v).etat.valeur| <= Max(|e.valeur|, c.totale)
  {
  }

  /** CORRECTION removes exactly the character left of the cursor and moves the cursor onto its place. */
  lemma CorrectionEfface(c: Cadre, e: Saisie, v: Version)
    requires Coherente(c, e) && e.curseur > 0
    ensures var f := Touche(c, e, CORRECTION, v).etat;
      f.valeur == e.valeur[..e.curseur - 1] + e.valeur[e.curseur..] &&
      f.curseur == e.curseur - 1 && f.accent.None?
  {
    var g := Gauche(c, e.(accent := None));
    assert g.etat.curseur == e.curseur - 1;
    assert g.etat.valeur[g.etat.curseur + 1..] == e.valeur[e.curseur..];
  }

  /** The characters a field takes are all 7-bit, so they arrive as one code each. */
  lemma CaracteresAscii()
    ensures forall i | 0 <= i < |CARACTERES_MINITEL| :: CARACTERES_MINITEL[i] as int < 0x80
  {
  }

  /** In a field with room, an insertion puts the character at the cursor and moves the cursor past it. */
  lemma InsereEtat(c: Cadre, e: Saisie, ch: char, v: Version)
    requires Coherente(c, e) && |e.valeur| < c.totale
    ensures var f := Insere(c, e, ch, v).etat;
      f.valeur == e.valeur[..e.curseur] + [ch] + e.valeur[e.curseur..] &&
      f.curseur == e.curseur + 1 && f.accent == e.accent
  {
  }

  /**
   * A character the field takes, typed in a field with room, is inserted at
   * the cursor (accented when a dead key was pending and it is a vowel); the
   * cursor moves past it and the dead key is used up.
   */
  lemma FrappeAccent(c: Cadre, e: Saisie, ch: char, v: Version)
    requires Coherente(c, e) && |e.valeur| < c.totale
    requires ch in CARACTERES_MINITEL
    ensures var r := Touche(c, e, [ch as int], v);
      r.geree && r.etat.valeur == e.valeur[..e.curseur] + [Accentue(e.accent, ch)] + e.valeur[e.curseur..] &&
      r.etat.curseur == e.curseur + 1 && r.etat.accent.None?
    ensures e.accent.None? ==> Accentue(e.accent, ch) == ch
  {
    CaracteresAscii();
    var s := [ch as int];
    assert Car(s[0]) == ch;
    assert |s| == 1 && |GAUCHE| == |DROITE| == 3 && |CORRECTION| == |ANNULATION| == 2;
    assert !Accent(s) && s != ACCENT_CEDILLE + ['c' as int];
    var sans := e.(accent := None);
    var k := Accentue(e.accent, ch);
    assert Touche(c, e, s, v) == Insere(c, sans, k, v);
    InsereEtat(c, sans, k, v);
  }

  /** The acute dead key followed by 'e' inserts an e with an acute accent. */
  lemma AccentAigu(c: Cadre, e: Saisie, v: Version)
    requires Coherente(c, e) && |e.valeur| < c.totale
    ensures var a := Touche(c, e, ACCENT_AIGU, v);
      var r := Touche(c, a.etat, ['e' as int], v);
      a.geree && a.etat.accent == Some(ACCENT_AIGU) &&
      r.etat.valeur == e.valeur[..e.curseur] + ['\U{e9}'] + e.valeur[e.curseur..] && r.etat.accent.None?
  {
    var a := Touche(c, e, ACCENT_AIGU, v);
    assert a.etat == e.(accent := Some(ACCENT_AIGU));
    assert Indice(VOYELLES, 'e') == 1;
    assert Accentue(Some(ACCENT_AIGU), 'e') == '\U{e9}';
    FrappeAccent(c, a.etat, 'e', v);
  }

  /** A key the field does not take changes nothing and sends nothing; the taken keys are exactly the listed ones. */
  lemma ToucheIgnoree(c: Cadre, e: Saisie, s: seq<int>, v: Version)
    requires |s| >= 1 && Coherente(c, e)
    ensures var r := Touche(c, e, s, v);
      !r.geree <==> (s != GAUCHE && s != DROITE && s != CORRECTION && s != ANNULATION && !Accent(s) &&
                     s != ACCENT_CEDILLE + ['c' as int] && Car(s[0]) !in CARACTERES_MINITEL)
    ensures var r := Touche(c, e, s, v); !r.geree ==> r.etat == e && r.codes == []
  {
  }

  // ---------------------------------------------------------------------
  // The widget

  class ChampTexte {
    const minitel: Minitel
    const posx: int
    const posy: int
    const largeur: int
    const hauteur: int
    var couleur: Option<Cle>
    const activable: bool
    const longueur_visible: int
    const longueur_totale: int
    var valeur: string
    var curseur_x: int
    var decalage: int
    var accent: Option<seq<int>>
    const champ_cache: bool

    function Forme(): Cadre
      reads this
    {
      Cadre(posx, posy, couleur, longueur_visible, longueur_totale, champ_cache)
    }

    function Etat(): Saisie
      reads this
    {
      Saisie(valeur, curseur_x, decalage, accent)
    }

    ghost predicate Valid()
      reads this
    {
      longueur_visible >= 1 && Coherente(Forme(), Etat())
    }

    constructor (minitel: Minitel, posx: int, posy: int, longueur_visible: int, longueur_totale: Option<int>,
                 valeur: string, couleur: Option<Cle>, champ_cache: bool)
      requires posx + longueur_visible < 80 && longueur_visible >= 1
      requires longueur_totale.Some? ==> longueur_visible <= longueur_totale.value
      requires Zone(posx, posy, longueur_visible, 1)
      ensures Valid() && activable
      ensures this.minitel == minitel && this.posx == posx && this.posy == posy
      ensures largeur == longueur_visible && hauteur == 1 && this.couleur == couleur
      ensures this.longueur_visible == longueur_visible
      ensures this.longueur_totale == if longueur_totale.Some? then longueur_totale.value else longueur_visible
      ensures Etat() == Saisie(valeur, 0, 0, None) && this.champ_cache == champ_cache
    {
      this.minitel := minitel;
      this.posx := posx;
      this.posy := posy;
      largeur := longueur_visible;
      hauteur := 1;
      this.couleur := couleur;
      this.longueur_visible := longueur_visible;
      this.longueur_totale := if longueur_totale.Some? then longueur_totale.value else longueur_visible;
      this.valeur := valeur;
      curseur_x := 0;
      decalage := 0;
      activable := true;
      accent := None;
      this.champ_cache := champ_cache;
    }

    method Affiche()
      requires decalage >= 0 && longueur_visible >= 0
      modifies minitel`trace
      ensures minitel.trace == old(minitel.trace) + AfficheCodes(Forme(), Etat())
    {
      ghost var t0 := minitel.trace;
      Entame();
      ghost var t1 := minitel.trace;
      var affichage := Fenetre();
      minitel.Envoyer(Chaine(affichage));
      ghost var t2 := minitel.trace;
      GereArrivee();
      ghost var a, b, d := Entete(Forme()), Canonise(Videotex, Chaine(affichage)), Replace(Forme(), Etat());
      assert t1 == t0 + a && t2 == t1 + b && minitel.trace == t2 + d;
      Associe(t0, a, b);
      Associe(t0, a + b, d);
    }

    /** The start of `affiche`: cursor hidden, moved to the field, the field's colour. */
    method Entame()
      modifies minitel`trace
      ensures minitel.trace == old(minitel.trace) + Entete(Forme())
    {
      ghost var t0 := minitel.trace;
      minitel.Curseur(false);
      minitel.Position(posx, posy, false);
      ghost var a, b := CurseurCodes(false), Emplacement(posx, posy);
      assert minitel.trace == t0 + a + b;
      Teindre(minitel, couleur);
      Associe(t0, a, b);
    }

    /** The text `affiche` sends: the window onto the value or its stars, padded with dots. */
    method Fenetre() returns (affichage: string)
      requires decalage >= 0 && longueur_visible >= 0
      ensures affichage == Affichage(Montre(Forme(), valeur), decalage, longueur_visible)
    {
      var val := if champ_cache then Etoiles(|valeur|) else valeur;
      if |val| - decalage <= longueur_visible {
        affichage := Completer(Suffixe(val, decalage), longueur_visible, '.');
      } else {
        affichage := val[decalage..decalage + longueur_visible];
      }
    }

    method CurseurGauche() returns (bouge: bool)
      requires Coherente(Forme(), Etat())
      modifies this`curseur_x, this`decalage, minitel`trace
      ensures var r := Gauche(old(Forme()), old(Etat()));
        bouge == r.geree && Etat() == r.etat && minitel.trace == old(minitel.trace) + r.codes
    {
      if curseur_x == 0 {
        minitel.Bip();
        return false;
      }
      curseur_x := curseur_x - 1;
      if curseur_x < decalage {
        decalage := Max(0, Moitie(2 * decalage - longueur_visible));
        Affiche();
      } else {
        minitel.Position(posx + curseur_x - decalage, posy, false);
      }
      bouge := true;
    }

    method CurseurDroite() returns (bouge: bool)
      requires Coherente(Forme(), Etat())
      modifies this`curseur_x, this`decalage, minitel`trace
      ensures var r := Droite(old(Forme()), old(Etat()), TelQuEcrit);
        bouge == r.geree && Etat() == r.etat && minitel.trace == old(minitel.trace) + r.codes
    {
      if curseur_x == Min(|valeur|, longueur_totale) {
        minitel.Bip();
        return false;
      }
      curseur_x := curseur_x + 1;
      if curseur_x > decalage + longueur_visible {
        decalage := DecaleTelQuEcrit(longueur_visible, decalage);
        Affiche();
      } else {
        minitel.Position(posx + curseur_x - decalage, posy, false);
      }
      bouge := true;
    }

    /** The insertion shared by the cedilla and the character keys. */
    method InsereCaractere(ch: char)
      requires Coherente(Forme(), Etat())
      modifies this`valeur, this`curseur_x, this`decalage, minitel`trace
      ensures var r := Insere(old(Forme()), old(Etat()), ch, TelQuEcrit);
        Etat() == r.etat && minitel.trace == old(minitel.trace) + r.codes
    {
      valeur := valeur[..curseur_x] + [ch] + valeur[curseur_x..];
      ghost var d := Droite(Forme(), Etat(), TelQuEcrit);
      var _ := CurseurDroite();
      Affiche();
      Associe(old(minitel.trace), d.codes, AfficheCodes(Forme(), Etat()));
    }

    method GereTouche(sequence: seq<int>) returns (geree: bool)
      requires Valid() && |sequence| >= 1
      modifies this`valeur, this`curseur_x, this`decalage, this`accent, minitel`trace
      ensures Valid()
      ensures var r := Touche(old(Forme()), old(Etat()), sequence, TelQuEcrit);
        geree == r.geree && Etat() == r.etat && minitel.trace == old(minitel.trace) + r.codes
    {
      ToucheCoherente(Forme(), Etat(), sequence, TelQuEcrit);
      geree := Reagir(sequence);
    }

    /** The dispatch of `gere_touche` on the key sequence. */
    method Reagir(sequence: seq<int>) returns (geree: bool)
      requires Coherente(Forme(), Etat()) && |sequence| >= 1
      modifies this`valeur, this`curseur_x, this`decalage, this`accent, minitel`trace
      ensures var r := Touche(old(Forme()), old(Etat()), sequence, TelQuEcrit);
        geree == r.geree && Etat() == r.etat && minitel.trace == old(minitel.trace) + r.codes
    {
      ghost var c, e := Forme(), Etat();
      ghost var sans := e.(accent := None);
      if sequence == GAUCHE {
        accent := None;
        var _ := CurseurGauche();
        return true;
      } else if sequence == DROITE {
        accent := None;
        var _ := CurseurDroite();
        return true;
      } else if sequence == CORRECTION {
        assert Touche(c, e, sequence, TelQuEcrit) == Correction(c, sans);
        accent := None;
        Corrige();
        return true;
      } else if sequence == ANNULATION {
        assert Touche(c, e, sequence, TelQuEcrit) == Reaction(true, Annulation(e, TelQuEcrit), AfficheCodes(c, Annulation(e, TelQuEcrit)));
        accent := None;
        valeur := "";
        curseur_x := 0;
        Affiche();
        return true;
      } else if Accent(sequence) {
        accent := Some(sequence);
        return true;
      } else if sequence == ACCENT_CEDILLE + ['c' as int] {
        assert Touche(c, e, sequence, TelQuEcrit) == Insere(c, sans, '\U{e7}', TelQuEcrit);
        accent := None;
        InsereCaractere('\U{e7}');
        return true;
      } else if Car(sequence[0]) in CARACTERES_MINITEL {
        var caractere := Accentue(accent, Car(sequence[0]));
        assert Touche(c, e, sequence, TelQuEcrit) == Insere(c, sans, caractere, TelQuEcrit);
        accent := None;
        InsereCaractere(caractere);
        return true;
      }
      return false;
    }

    /** CORRECTION: one left, and when the cursor moved, the character under it removed and the field redrawn. */
    method Corrige()
      requires Coherente(Forme(), Etat())
      modifies this`valeur, this`curseur_x, this`decalage, minitel`trace
      ensures var r := Correction(old(Forme()), old(Etat()));
        Etat() == r.etat && minitel.trace == old(minitel.trace) + r.codes
    {
      ghost var g := Gauche(Forme(), Etat());
      var bouge := CurseurGauche();
      if bouge {
        valeur := valeur[..curseur_x] + valeur[curseur_x + 1..];
        Affiche();
        Associe(old(minitel.trace), g.codes, AfficheCodes(Forme(), Etat()));
      }
    }

    /** The field becomes active: the cursor to its column, and shown. */
    method GereArrivee()
      modifies minitel`trace
      ensures minitel.trace == old(minitel.trace) + Replace(Forme(), Etat())
    {
      minitel.Position(posx + curseur_x - decalage, posy, false);
      minitel.Curseur(true);
    }

    /** The field stops being active: a pending dead key is dropped and the cursor hidden. */
    method GereDepart()
      modifies this`accent, minitel`trace
      ensures accent.None? && valeur == old(valeur) && curseur_x == old(curseur_x) && decalage == old(decalage)
      ensures minitel.trace == old(minitel.trace) + CurseurCodes(false)
    {
      accent := None;
      minitel.Curseur(false);
    }
  }
}
