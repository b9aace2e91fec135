/**
 * The escape sequences the driver sends for its display primitives: colour,
 * cursor position, character size, effects, cursor visibility, clearing,
 * repetition, insertion and deletion, the semigraphic set, and the 6-bit
 * packing of redefined glyphs.  Each encoder gives the codes the driver
 * writes (each goes out as its UTF-8 bytes, a single byte below 0x80); the
 * driver's methods send the source's own lists and are proved to emit
 * these codes.  Each encoder comes with a decoder or a structural
 * property showing that the parameters can be read back from the codes.
 */
module Codage {
  import opened Outils
  import opened Constantes
  import opened Sequences

  // ---------------------------------------------------------------------
  // Colours

  /** Python's `str()` of a colour argument, which is a string or an integer. */
  function Texte(couleur: Cle): string
  {
    match couleur
    case Nom(s) => s
    case Niveau(n) => Decimal(n)
  }

  /**
   * The Minitel colour number of a colour name or grey level, or None when
   * the colour is not valid.  The argument is first turned into a string, so
   * only the string keys of the colour map are ever consulted.
   */
  function NormaliserCouleur(couleur: Cle): (r: Option<int>)
    ensures r.Some? ==> 0 <= r.value <= 7
  {
    var cle := Nom(Texte(couleur));
    if cle in COULEURS_MINITEL then
      CouleursBornees();
      Some(COULEURS_MINITEL[cle])
    else None
  }

  /** The eight names give the colours 0..7 in order. */
  lemma NormaliserNoms(i: int)
    requires 0 <= i < 8
    ensures NormaliserCouleur(Nom(NOMS_COULEURS[i])) == Some(i)
  {
    CouleursBornees();
  }

  /**
   * A grey level 0..7 gives the same colour as an integer and as a digit
   * string, namely the level's place in the grey scale; the integer keys of
   * the colour map agree with it.
   */
  lemma NormaliserGris(n: int)
    requires 0 <= n < 8
    ensures NormaliserCouleur(Niveau(n)) == NormaliserCouleur(Nom(Decimal(n))) == Some(GRIS[n])
    ensures NormaliserCouleur(Niveau(n)) == Some(COULEURS_MINITEL[Niveau(n)])
  {
    GrisNiveau(n);
  }

  lemma {:induction false} ChiffresLongs(n: nat)
    requires n >= 10
    ensures |Chiffres(n)| >= 2
  {
  }

  /** A grey level outside 0..7 is not a colour. */
  lemma NormaliserHorsGamme(n: int)
    requires n < 0 || n > 7
    ensures NormaliserCouleur(Niveau(n)).None?
  {
    if n >= 10 {
      ChiffresLongs(n);
    } else if n > 7 {
      assert Decimal(n) == [('0' as int + n) as char];
    }
  }

  /** ESC then base plus the colour, when the colour is given and valid. */
  function Attribut(couleur: Option<Cle>, base: int): (r: seq<int>)
    ensures r == [] || (|r| == 2 && r[0] == ESC && base <= r[1] < base + 8)
    ensures r != [] <==> couleur.Some? && NormaliserCouleur(couleur.value).Some?
  {
    if couleur.Some? && NormaliserCouleur(couleur.value).Some? then
      [ESC, base + NormaliserCouleur(couleur.value).value]
    else []
  }

  /** The codes for a character colour and a background colour (`couleur`). */
  function CouleurCodes(caractere: Option<Cle>, fond: Option<Cle>): seq<int>
  {
    Attribut(caractere, 0x40) + Attribut(fond, 0x50)
  }

  /** The colours read back from the codes of `couleur`. */
  function LireCouleurs(codes: seq<int>): (Option<int>, Option<int>)
  {
    if |codes| == 4 then (Some(codes[1] - 0x40), Some(codes[3] - 0x50))
    else if |codes| == 2 && codes[1] < 0x50 then (Some(codes[1] - 0x40), None)
    else if |codes| == 2 then (None, Some(codes[1] - 0x50))
    else (None, None)
  }

  /**
   * The colour codes are lossless: reading them back gives the normalised
   * colours, and an invalid or missing colour emits nothing.
   */
  lemma CouleurAllerRetour(caractere: Option<Cle>, fond: Option<Cle>)
    ensures var n := (if caractere.Some? then NormaliserCouleur(caractere.value) else None,
                      if fond.Some? then NormaliserCouleur(fond.value) else None);
      LireCouleurs(CouleurCodes(caractere, fond)) == n
  {
  }

  // ---------------------------------------------------------------------
  // Cursor position

  /** A relative move of `d` rows (VT up, LF down) or columns (BS left, TAB right). */
  function Deplacement(d: int, court_neg: int, court_pos: int, long_neg: char, long_pos: char): (r: seq<int>)
    ensures d == 0 <==> r == []
    ensures 1 <= d <= 4 ==> r == Repete(court_pos, d)
    ensures -4 <= d <= -1 ==> r == Repete(court_neg, -d)
    ensures (d < -4 || d > 4) ==>
      r == CSI + Codes(Decimal(d)) + [(if d < 0 then long_neg else long_pos) as int]
  {
    if d == 0 then []
    else if -4 <= d <= -1 then Repete(court_neg, -d)
    else if 1 <= d <= 4 then Repete(court_pos, d)
    else CSI + Codes(Decimal(d)) + [(if d < 0 then long_neg else long_pos) as int]
  }

  function DeplacementLigne(ligne: int): seq<int>
  {
    Deplacement(ligne, VT, LF, 'B', 'A')
  }

  function DeplacementColonne(colonne: int): seq<int>
  {
    Deplacement(colonne, BS, TAB, 'C', 'D')
  }

  /** Absolute positioning: home for (1,1), otherwise US then the row and the column offset by 0x40. */
  function Emplacement(colonne: int, ligne: int): (r: seq<int>)
    ensures 1 <= |r| <= 3
    ensures colonne == 1 && ligne == 1 ==> r == [RS]
  {
    if colonne == 1 && ligne == 1 then [RS] else [US, 0x40 + ligne, 0x40 + colonne]
  }

  /** A relative move: the row part then the column part. */
  function DeplacementRelatif(colonne: int, ligne: int): seq<int>
  {
    DeplacementLigne(ligne) + DeplacementColonne(colonne)
  }

  /** The codes of `position`, absolute or relative. */
  function PositionCodes(colonne: int, ligne: int, relatif: bool): seq<int>
  {
    if relatif then DeplacementRelatif(colonne, ligne) else Emplacement(colonne, ligne)
  }

  /** The (column, row) an absolute position sequence designates. */
  function LirePosition(codes: seq<int>): (int, int)
  {
    if |codes| == 3 then (codes[2] - 0x40, codes[1] - 0x40) else (1, 1)
  }

  /** Absolute positioning is lossless: the position is read back from its codes. */
  lemma PositionAllerRetour(colonne: int, ligne: int)
    ensures LirePosition(PositionCodes(colonne, ligne, false)) == (colonne, ligne)
  {
  }

  /** The offset a relative move sequence stands for, by the conventions of `position`. */
  function LireDeplacement(codes: seq<int>, court_neg: int): int
  {
    if codes == [] then 0
    else if codes[0] == court_neg then -|codes|
    else if codes[0] != ESC then |codes|
    else if |codes| >= 3 then LireDecimal(codes[2..|codes| - 1])
    else 0
  }

  /** A relative move is lossless: the offset is read back from its codes. */
  lemma DeplacementAllerRetour(d: int, court_neg: int, court_pos: int, long_neg: char, long_pos: char)
    requires court_neg != ESC && court_pos != ESC && court_neg != court_pos
    ensures LireDeplacement(Deplacement(d, court_neg, court_pos, long_neg, long_pos), court_neg) == d
  {
    var r := Deplacement(d, court_neg, court_pos, long_neg, long_pos);
    if d < -4 || d > 4 {
      assert r[2..|r| - 1] == Codes(Decimal(d));
      DecimalAllerRetour(d);
    }
  }

  /**
   * Long relative moves name the direction by the sign of the offset, which
   * is sent as text: an upward move of 5 or more rows is sent as CSI, '-',
   * the digits, then 'B', and a leftward one as CSI, '-', the digits, then
   * 'C'.  ECMA-48 reads B as cursor down and C as cursor forward, the
   * opposite of what the short forms VT and BS do.
   */
  lemma LettresDesLongsDeplacements(d: int)
    requires d <= -5
    ensures var l := DeplacementLigne(d); l[2] == '-' as int && l[|l| - 1] == 'B' as int
    ensures var c := DeplacementColonne(d); c[2] == '-' as int && c[|c| - 1] == 'C' as int
    ensures DeplacementLigne(d + 1)[0] == (if d + 1 >= -4 then VT else ESC)
  {
    CodesConcat("-", Chiffres(-d));
  }

  // ---------------------------------------------------------------------
  // Size, effects, cursor, semigraphics

  /** The codes of `taille`: one size attribute for the four width/height pairs. */
  function TailleCodes(largeur: int, hauteur: int): (r: seq<int>)
    requires largeur in {1, 2} && hauteur in {1, 2}
    ensures |r| == 2 && r[0] == ESC && 0x4c <= r[1] <= 0x4f
  {
    [ESC, 0x4c + (hauteur - 1) + (largeur - 1) * 2]
  }

  /** Size is lossless: width and height are read back from the attribute. */
  lemma TailleAllerRetour(largeur: int, hauteur: int)
    requires largeur in {1, 2} && hauteur in {1, 2}
    ensures var a := TailleCodes(largeur, hauteur)[1] - 0x4c;
      a / 2 + 1 == largeur && a % 2 + 1 == hauteur
  {
  }

  /** The attribute for one effect: none when not asked, on or off otherwise. */
  function Bascule(etat: Option<bool>, actif: int, inactif: int): seq<int>
  {
    match etat
    case Some(on) => [ESC, if on then actif else inactif]
    case None => []
  }

  /** The codes of `effet`: underline, then blinking, then reverse video. */
  function EffetCodes(soulignement: Option<bool>, clignotement: Option<bool>,
                      inversion: Option<bool>): seq<int>
  {
    Bascule(soulignement, 0x5a, 0x59) + Bascule(clignotement, 0x48, 0x49) + Bascule(inversion, 0x5d, 0x5c)
  }

  /** Reads one effect from the front of a sequence of attributes. */
  function LireBascule(codes: seq<int>, actif: int, inactif: int): (Option<bool>, seq<int>)
  {
    if |codes| >= 2 && codes[1] == actif then (Some(true), codes[2..])
    else if |codes| >= 2 && codes[1] == inactif then (Some(false), codes[2..])
    else (None, codes)
  }

  function LireEffets(codes: seq<int>): (Option<bool>, Option<bool>, Option<bool>)
  {
    var (s, r1) := LireBascule(codes, 0x5a, 0x59);
    var (c, r2) := LireBascule(r1, 0x48, 0x49);
    var (i, _) := LireBascule(r2, 0x5d, 0x5c);
    (s, c, i)
  }

  /** Effects are lossless: the three requested states are read back from the codes. */
  lemma EffetAllerRetour(soulignement: Option<bool>, clignotement: Option<bool>, inversion: Option<bool>)
    ensures LireEffets(EffetCodes(soulignement, clignotement, inversion))
            == (soulignement, clignotement, inversion)
  {
    var a := Bascule(soulignement, 0x5a, 0x59);
    var b := Bascule(clignotement, 0x48, 0x49);
    var c := Bascule(inversion, 0x5d, 0x5c);
    LireBasculeDevant(inversion, 0x5d, 0x5c, []);
    LireBasculeDevant(clignotement, 0x48, 0x49, c);
    LireBasculeDevant(soulignement, 0x5a, 0x59, b + c);
    assert a + b + c == a + (b + c);
  }

  /** One effect is read back from the front of the codes, whatever attribute follows. */
  lemma LireBasculeDevant(etat: Option<bool>, actif: int, inactif: int, suite: seq<int>)
    requires actif != inactif
    requires suite == [] || (|suite| >= 2 && suite[1] != actif && suite[1] != inactif)
    ensures LireBascule(Bascule(etat, actif, inactif) + suite, actif, inactif) == (etat, suite)
  {
    var a := Bascule(etat, actif, inactif);
    if etat.Some? {
      assert |a| == 2 && (a + suite)[1] == (if etat.value then actif else inactif);
      assert (a + suite)[2..] == suite;
    } else {
      assert a + suite == suite;
    }
  }

  function CurseurCodes(visible: bool): seq<int>
  {
    if visible then [CON] else [COF]
  }

  function SemigraphiqueCodes(actif: bool): seq<int>
  {
    if actif then [SO] else [SI]
  }

  // ---------------------------------------------------------------------
  // Clearing

  /** The clearing scopes of `efface` and their codes. */
  const PORTEES: map<string, seq<int>> := map[
    "tout" := [FF],
    "finligne" := [CAN],
    "finecran" := CSI + [0x4a],
    "debutecran" := CSI + [0x31, 0x4a],
    "debut_ligne" := CSI + [0x31, 0x4b],
    "ligne" := CSI + [0x32, 0x4b],
    "statut" := [US, 0x40, 0x41, CAN, LF],
    "vraimenttout" := [FF, US, 0x40, 0x41, CAN, LF]]

  /**
   * Clearing everything is clearing the screen then the status row; the
   * status row is cleared by going to row 0, column 1, clearing to the end of
   * the line and coming back down; and distinct scopes send distinct codes.
   */
  lemma PorteesCoherentes()
    ensures PORTEES["vraimenttout"] == PORTEES["tout"] + PORTEES["statut"]
    ensures PORTEES["statut"] == PositionCodes(1, 0, false) + PORTEES["finligne"] + [LF]
  {
  }

  // ---------------------------------------------------------------------
  // Repetition, insertion, deletion

  /**
   * A character argument of `repeter`: an integer, or a string or list of
   * length one (a Sequence object is not accepted).
   */
  predicate CaractereUnique(caractere: Valeur)
  {
    match caractere
    case Entier(_) => true
    case Chaine(s) => |s| == 1
    case Liste(items) => |items| == 1
    case Objet(_) => false
  }

  /** The list `repeter` sends: the character, REP, then 0x40 plus the count minus one. */
  function RepeterValeur(caractere: Valeur, longueur: int): Valeur
  {
    Liste([caractere, Entier(REP), Entier(0x40 + longueur - 1)])
  }

  /** The codes of `repeter`: those of the character, REP, then the count as a printable code. */
  function RepeterCodes(caractere: Valeur, longueur: int): (r: seq<int>)
    ensures |r| >= 2 && r[|r| - 2..] == [REP, 0x40 + longueur - 1]
    ensures 0 < longueur <= 40 ==> 0x40 <= r[|r| - 1] <= 0x67
  {
    CanoniseListe(Videotex, [caractere]) + [REP, 0x40 + longueur - 1]
  }

  /** The list `repeter` sends is flattened into exactly the codes of `RepeterCodes`. */
  lemma RepeterCanonise(caractere: Valeur, longueur: int)
    ensures Canonise(Videotex, RepeterValeur(caractere, longueur)) == RepeterCodes(caractere, longueur)
  {
    var queue := [REP, 0x40 + longueur - 1];
    assert [caractere, Entier(REP), Entier(0x40 + longueur - 1)] == [caractere] + Entiers(queue);
    CanoniseListeConcat(Videotex, [caractere], Entiers(queue));
    CanoniseEntiers(Videotex, queue);
  }

  /** Repeating an ASCII character sends that character, REP and the count. */
  lemma RepeterAscii(c: char, longueur: int)
    requires c as int < 0x80
    ensures RepeterCodes(Chaine([c]), longueur) == [c as int, REP, 0x40 + longueur - 1]
    ensures RepeterCodes(Entier(c as int), longueur) == [c as int, REP, 0x40 + longueur - 1]
  {
    TraduitAscii(Videotex, [c]);
    assert Codes([c]) == [c as int];
    var l := [Chaine([c])];
    assert l[1..] == [];
    assert CanoniseListe(Videotex, l) == Traduit(Videotex, [c]) + CanoniseListe(Videotex, l[1..]);
    var m := [Entier(c as int)];
    assert m[1..] == [];
    assert CanoniseListe(Videotex, m) == [c as int] + CanoniseListe(Videotex, m[1..]);
  }

  /** CSI, the decimal text of a count, then a final letter. */
  function Compte(n: int, lettre: char): seq<int>
  {
    CSI + Codes(Decimal(n)) + [lettre as int]
  }

  /** The count is read back from between CSI and the final letter. */
  lemma CompteAllerRetour(n: int, lettre: char)
    ensures var r := Compte(n, lettre);
      |r| >= 3 && r[..2] == CSI && r[|r| - 1] == lettre as int && LireDecimal(r[2..|r| - 1]) == n
  {
    var r := Compte(n, lettre);
    assert r[2..|r| - 1] == Codes(Decimal(n));
    DecimalAllerRetour(n);
  }

  /** The codes of `supprime`: columns with P, then rows with M. */
  function SupprimeCodes(nb_colonne: Option<nat>, nb_ligne: Option<nat>): seq<int>
  {
    (if nb_colonne.Some? then Compte(nb_colonne.value, 'P') else []) +
    (if nb_ligne.Some? then Compte(nb_ligne.value, 'M') else [])
  }

  /**
   * The codes of `insere`: for columns, insert mode on (CSI 4 h), that many
   * spaces, insert mode off (CSI 4 l); for rows, CSI, the count and L.
   */
  function InsereCodes(nb_colonne: Option<nat>, nb_ligne: Option<nat>): seq<int>
  {
    (if nb_colonne.Some? then CSI + Codes("4h") + Repete(' ' as int, nb_colonne.value) + CSI + Codes("4l")
     else []) +
    (if nb_ligne.Some? then Compte(nb_ligne.value, 'L') else [])
  }

  /** Inserting columns sends exactly as many spaces as columns, between the two mode switches. */
  lemma InsereColonnes(n: nat)
    ensures var r := InsereCodes(Some(n), None);
      |r| == n + 8 && r[..4] == CSI + Codes("4h") && r[n + 4..] == CSI + Codes("4l") &&
      forall i | 4 <= i < n + 4 :: r[i] == ' ' as int
  {
  }

  // ---------------------------------------------------------------------
  // Glyph redefinition

  predicate EstPixel(c: char)
  {
    c == '0' || c == '1'
  }

  predicate Binaire(s: string)
  {
    forall i | 0 <= i < |s| :: EstPixel(s[i])
  }

  /** Python's `int(s, 2)` on a string of pixels. */
  function Valeur(s: string): int
  {
    if s == [] then 0 else Valeur(s[..|s| - 1]) * 2 + (if s[|s| - 1] == '1' then 1 else 0)
  }

  function Puissance2(k: nat): nat
  {
    if k == 0 then 1 else 2 * Puissance2(k - 1)
  }

  lemma {:induction false} ValeurBornee(s: string)
    ensures 0 <= Valeur(s) < Puissance2(|s|)
  {
    if s != [] {
      ValeurBornee(s[..|s| - 1]);
    }
  }

  /** The k pixels that write v in binary, most significant first. */
  function Bits(v: int, k: nat): (r: string)
    ensures |r| == k && Binaire(r)
    decreases k
  {
    if k == 0 then "" else Bits(v / 2, k - 1) + [if v % 2 == 1 then '1' else '0']
  }

  /** Writing back in binary the value of a pixel string gives that string. */
  lemma {:induction false} BitsValeur(s: string)
    requires Binaire(s)
    ensures Bits(Valeur(s), |s|) == s
  {
    if s != [] {
      var t := s[..|s| - 1];
      ValeurBornee(t);
      assert Valeur(s) / 2 == Valeur(t);
      BitsValeur(t);
      assert s == t + [s[|s| - 1]];
    }
  }

  /** Appending zero pixels multiplies the value: int(s + '0000', 2) == 16 * int(s, 2). */
  lemma ValeurZero(s: string)
    ensures Valeur(s + "0") == 2 * Valeur(s)
  {
    var d := s + "0";
    assert d[..|d| - 1] == s;
  }

  lemma ValeurQuatreZeros(s: string)
    ensures Valeur(s + "0000") == 16 * Valeur(s)
  {
    var s1 := s + "0";
    var s2 := s1 + "0";
    var s3 := s2 + "0";
    ValeurZero(s);
    ValeurZero(s1);
    ValeurZero(s2);
    ValeurZero(s3);
    assert s3 + "0" == s + "0000";
  }

  /** The pixels of a drawing: every character other than '0' and '1' is ignored. */
  function Pixels(dessins: string): (r: string)
    ensures Binaire(r) && |r| <= |dessins|
  {
    if dessins == [] then ""
    else if EstPixel(dessins[0]) then [dessins[0]] + Pixels(dessins[1..])
    else Pixels(dessins[1..])
  }

  lemma {:induction false} PixelsConcat(a: string, b: string)
    ensures Pixels(a + b) == Pixels(a) + Pixels(b)
  {
    if a == [] {
      assert a + b == b;
    } else {
      assert (a + b)[1..] == a[1..] + b;
      PixelsConcat(a[1..], b);
    }
  }

  /** Inserting any non-pixel character into a drawing changes nothing. */
  lemma PixelsIgnorees(a: string, c: char, b: string)
    requires !EstPixel(c)
    ensures Pixels(a + [c] + b) == Pixels(a + b)
  {
    PixelsConcat(a + [c], b);
    PixelsConcat(a, [c]);
    PixelsConcat(a, b);
    assert [c][1..] == [];
  }

  /** The codes of the whole 6-pixel groups of p, one printable code per group. */
  function Paquets(p: string): (r: seq<int>)
    ensures |r| == |p| / 6
  {
    if |p| < 6 then [] else [0x40 + Valeur(p[..6])] + Paquets(p[6..])
  }

  /** Every group code is a printable character 0x40..0x7F. */
  lemma {:induction false} PaquetsBornes(p: string)
    ensures forall i | 0 <= i < |Paquets(p)| :: 0x40 <= Paquets(p)[i] < 0x80
    decreases |p|
  {
    if |p| >= 6 {
      ValeurBornee(p[..6]);
      assert Puissance2(6) == 64;
      PaquetsBornes(p[6..]);
    }
  }

  /**
   * The codes of one 80-pixel glyph (8 columns by 10 rows): 13 groups of
   * six pixels, the last two pixels followed by four zero bits, then 0x30.
   */
  function Glyphe(p: string): seq<int>
    requires |p| == 80
  {
    Paquets(p[..78]) + [0x40 + Valeur(p[78..] + "0000"), 0x30]
  }

  /**
   * The codes for a pixel string: one glyph per complete block of 80
   * pixels; the whole groups of an incomplete last block are sent, and its
   * remaining pixels are dropped.
   */
  function Emballe(p: string): seq<int>
  {
    if |p| < 80 then Paquets(p) else Glyphe(p[..80]) + Emballe(p[80..])
  }

  /** A glyph is 15 codes: 14 printable data codes then 0x30. */
  lemma GlypheForme(p: string)
    requires |p| == 80 && Binaire(p)
    ensures |Glyphe(p)| == 15 && Glyphe(p)[14] == 0x30
    ensures forall i | 0 <= i < 14 :: 0x40 <= Glyphe(p)[i] < 0x80
  {
    var fin := p[78..] + "0000";
    ValeurBornee(fin);
    assert Puissance2(6) == 64;
    PaquetsBornes(p[..78]);
  }

  /** The pixels written by a list of 6-pixel group codes. */
  function Deballe(codes: seq<int>): string
  {
    if codes == [] then "" else Bits(codes[0] - 0x40, 6) + Deballe(codes[1..])
  }

  lemma {:induction false} PaquetsAllerRetour(p: string)
    requires Binaire(p) && |p| % 6 == 0
    ensures Deballe(Paquets(p)) == p
    decreases |p|
  {
    if |p| >= 6 {
      BitsValeur(p[..6]);
      PaquetsAllerRetour(p[6..]);
      assert p == p[..6] + p[6..];
    }
  }

  /** The pixels of a glyph read back from its 15 codes. */
  function DeballeGlyphe(codes: seq<int>): string
    requires |codes| >= 14
  {
    Deballe(codes[..13]) + Bits(codes[13] - 0x40, 6)[..2]
  }

  /** Glyph packing is lossless: the 80 pixels are read back from the codes. */
  lemma GlypheAllerRetour(p: string)
    requires |p| == 80 && Binaire(p)
    ensures DeballeGlyphe(Glyphe(p)) == p
  {
    var g := Glyphe(p);
    var fin := p[78..] + "0000";
    assert g[..13] == Paquets(p[..78]);
    assert g[13] - 0x40 == Valeur(fin);
    PaquetsAllerRetour(p[..78]);
    BitsValeur(fin);
    assert Bits(g[13] - 0x40, 6)[..2] == p[78..];
    assert DeballeGlyphe(g) == p[..78] + p[78..];
    assert p == p[..78] + p[78..];
  }

  lemma PaquetsTete(p: string)
    requires |p| >= 6
    ensures Paquets(p) == [0x40 + Valeur(p[..6])] + Paquets(p[6..])
  {
  }

  /** The pixels after the last whole group of six: what `octet` holds in the loop. */
  function Reste(p: string): (r: string)
    ensures |r| < 6
  {
    if |p| < 6 then p else Reste(p[6..])
  }

  /** The pending group is the last |p| mod 6 pixels. */
  lemma {:induction false} ResteSuffixe(p: string)
    ensures |Reste(p)| == |p| % 6 && Reste(p) == p[|p| - |p| % 6..]
    decreases |p|
  {
    if |p| >= 6 {
      var reste := p[6..];
      ResteSuffixe(reste);
      assert |reste| % 6 == |p| % 6;
      assert reste[|reste| - |reste| % 6..] == p[|p| - |p| % 6..];
    } else {
      assert p[|p| - |p| % 6..] == p;
    }
  }

  /**
   * Adding a pixel emits a code exactly when it completes the pending group,
   * and the pending group then starts again empty.
   */
  lemma {:induction false} PaquetsAjout(p: string, x: char)
    ensures Paquets(p + [x]) ==
      Paquets(p) + (if |Reste(p)| == 5 then [0x40 + Valeur(Reste(p) + [x])] else [])
    ensures Reste(p + [x]) == (if |Reste(p)| == 5 then "" else Reste(p) + [x])
    decreases |p|
  {
    var q := p + [x];
    if |p| >= 6 {
      var reste := p[6..];
      PaquetsAjout(reste, x);
      assert q[..6] == p[..6];
      assert q[6..] == reste + [x];
      PaquetsTete(q);
      PaquetsTete(p);
      assert Reste(q) == Reste(reste + [x]);
      assert Reste(p) == Reste(reste);
    } else if |p| == 5 {
      assert q[..6] == q;
      assert q[6..] == [];
      PaquetsTete(q);
      assert Reste(p) == p;
      assert Reste(q) == Reste([]) == [];
    } else {
      assert Reste(p) == p;
      assert Reste(q) == q;
    }
  }

  /** A whole number of groups leaves nothing pending. */
  lemma {:induction false} ResteMultiple(p: string)
    requires |p| % 6 == 0
    ensures Reste(p) == ""
  {
    ResteSuffixe(p);
  }

  /** The pixels of the glyph being drawn: what `compte_pixel` counts. */
  function Bloc(p: string): (r: string)
    ensures |r| < 80
  {
    if |p| < 80 then p else Bloc(p[80..])
  }

  /**
   * What the packing loop emits for one more pixel x, given the pixels of
   * the pending group and the pixel count of the glyph before it: a code when
   * the group is complete, and when the glyph is complete its last group
   * padded with four zero bits followed by 0x30.
   */
  function Emission(octet: string, x: char, compte: nat): seq<int>
  {
    var groupe := octet + [x];
    (if |groupe| == 6 then [0x40 + Valeur(groupe)] else []) +
    (if compte + 1 == 80 then [0x40 + Valeur((if |groupe| == 6 then "" else groupe) + "0000"), 0x30] else [])
  }

  /** The state the loop keeps after one more pixel: both counters restart on a full glyph. */
  function Suivant(octet: string, x: char, compte: nat): (string, nat)
  {
    var groupe := octet + [x];
    if compte + 1 == 80 then ("", 0)
    else if |groupe| == 6 then ("", compte + 1)
    else (groupe, compte + 1)
  }

  lemma EmballeCourt(p: string, x: char)
    requires |p| < 79
    ensures Emballe(p + [x]) == Emballe(p) + Emission(Reste(p), x, |p|)
    ensures (Reste(p + [x]), |p + [x]|) == Suivant(Reste(p), x, |p|)
  {
    PaquetsAjout(p, x);
  }

  lemma EmballeComplet(p: string, x: char)
    requires |p| == 79
    ensures Emballe(p + [x]) == Emballe(p) + Emission(Reste(p), x, |p|)
    ensures Suivant(Reste(p), x, |p|) == ("", 0)
  {
    var q := p + [x];
    ResteDernier(p);
    assert Emballe(p) == Paquets(p[..78]) by {
      ResteMultiple(p[..78]);
      PaquetsAjout(p[..78], p[78]);
      assert p[..78] + [p[78]] == p;
    }
    assert Emballe(q) == Paquets(p[..78]) + [0x40 + Valeur(q[78..] + "0000"), 0x30] by {
      assert q[..80] == q && q[80..] == [];
      assert q[..78] == p[..78];
    }
    assert q[78..] == Reste(p) + [x];
  }

  /** 79 pixels leave one pending: the last. */
  lemma ResteDernier(p: string)
    requires |p| == 79
    ensures Reste(p) == [p[78]]
  {
    ResteSuffixe(p);
  }

  /**
   * Packing one more pixel extends the codes of the previous pixels by what
   * the loop emits for it, and moves the loop state as `Suivant` says:
   * packing can be done incrementally.
   */
  lemma {:induction false} EmballeAjout(p: string, x: char)
    ensures Emballe(p + [x]) == Emballe(p) + Emission(Reste(Bloc(p)), x, |Bloc(p)|)
    ensures (Reste(Bloc(p + [x])), |Bloc(p + [x])|) == Suivant(Reste(Bloc(p)), x, |Bloc(p)|)
    decreases |p|, 1
  {
    var q := p + [x];
    if |p| >= 80 {
      EmballeAjoutLong(p, x);
    } else if |p| == 79 {
      EmballeComplet(p, x);
      assert q[80..] == [];
      assert Bloc(q) == Bloc([]) == [];
    } else {
      EmballeCourt(p, x);
    }
  }

  /** `EmballeAjout` past the first glyph: the first 80 pixels are packed alone, the rest as before. */
  lemma {:induction false} EmballeAjoutLong(p: string, x: char)
    requires |p| >= 80
    ensures Emballe(p + [x]) == Emballe(p) + Emission(Reste(Bloc(p)), x, |Bloc(p)|)
    ensures (Reste(Bloc(p + [x])), |Bloc(p + [x])|) == Suivant(Reste(Bloc(p)), x, |Bloc(p)|)
    decreases |p|, 0
  {
    var q := p + [x];
    var suite := p[80..];
    EmballeAjout(suite, x);
    assert q[..80] == p[..80];
    assert q[80..] == suite + [x];
    assert Emballe(q) == Glyphe(p[..80]) + Emballe(suite + [x]);
    assert Bloc(q) == Bloc(suite + [x]);
    Associe(Glyphe(p[..80]), Emballe(suite), Emission(Reste(Bloc(suite)), x, |Bloc(suite)|));
  }

  /** The header selecting the set to redefine: G'0 (0x42) or G'1 (0x43). */
  function EnTete(jeu: string): seq<int>
  {
    if jeu == "G0" then [US, 0x23, 0x20, 0x20, 0x20, 0x42, 0x49]
    else [US, 0x23, 0x20, 0x20, 0x20, 0x43, 0x49]
  }

  /**
   * The final set selection of `redefinir` as written: the test compares
   * with "GO" (letter O), which no accepted set name equals, so G'1 is
   * always selected.
   */
  function SelectionJeuTelQuEcrit(jeu: string): seq<int>
  {
    if jeu == "GO" then [ESC, 0x28, 0x20, 0x42] else [ESC, 0x29, 0x20, 0x43]
  }

  /** The final set selection as intended: the set that was just redefined. */
  function SelectionJeu(jeu: string): (r: seq<int>)
    requires jeu == "G0" || jeu == "G1"
    ensures |r| == 4 && r[..3] == (if jeu == "G0" then [ESC, 0x28, 0x20] else [ESC, 0x29, 0x20])
  {
    if jeu == "G0" then [ESC, 0x28, 0x20, 0x42] else [ESC, 0x29, 0x20, 0x43]
  }

  /** As written, redefining G'0 ends by selecting G'1 instead. */
  lemma SelectionJeuTelQuEcritFausse()
    ensures EnTete("G0")[5] == 0x42
    ensures SelectionJeuTelQuEcrit("G0") == [ESC, 0x29, 0x20, 0x43]
    ensures SelectionJeuTelQuEcrit("G0")[3] != EnTete("G0")[5]
  {
  }

  /** With the intended test, the selected set is the redefined one, for both sets. */
  lemma SelectionJeuCorrecte(jeu: string)
    requires jeu == "G0" || jeu == "G1"
    ensures SelectionJeu(jeu)[3] == EnTete(jeu)[5]
    ensures jeu == "G1" ==> SelectionJeu(jeu) == SelectionJeuTelQuEcrit(jeu)
  {
  }

  /**
   * Everything `redefinir` sends: the header, the first character to
   * redefine, the packed pixels, a cursor move that ends definition mode,
   * and the set selection as written, which is G'1 whatever the set
   * (SelectionJeuTelQuEcritFausse).
   */
  function RedefinirCodes(depuis: char, dessins: string, jeu: string): seq<int>
    requires jeu == "G0" || jeu == "G1"
  {
    Preambule(depuis, jeu) + Emballe(Pixels(dessins)) + [US, 0x41, 0x41] + SelectionJeuTelQuEcrit(jeu)
  }

  /** What `redefinir` sends before the pixels: the set header, then the first character redefined. */
  function Preambule(depuis: char, jeu: string): seq<int>
  {
    EnTete(jeu) + [US, 0x23] + UnicodeVersMinitel(Videotex, depuis) + [0x30]
  }
}
