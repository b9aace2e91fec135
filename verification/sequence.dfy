/**
 * Sequences of codes sent to a Minitel: the translation tables from Unicode
 * characters to Minitel codes, the canonisation of nested values into a flat
 * list of codes, and the Sequence object that accumulates them.
 */
module Sequences {
  import opened Outils
  import opened Constantes

  /** The three operating modes; Sequence only cares whether it is VIDEOTEX. */
  datatype Mode = Videotex | Mixte | Teleinformatique

  /**
   * What a caller may hand to a Sequence: an integer, a string, a (nested)
   * list, or another Sequence, represented by the codes it holds.
   */
  datatype Valeur =
    | Entier(n: int)
    | Chaine(s: string)
    | Liste(items: seq<Valeur>)
    | Objet(valeurs: seq<int>)

  /** A table entry: one, two or three codes. */
  datatype Entree = Un(a: int) | Deux(a: int, b: int) | Trois(a: int, b: int, c: int)

  /** The codes of a table entry, in order. */
  function Octets(e: Entree): (r: seq<int>)
    ensures 1 <= |r| <= 3
  {
    match e
    case Un(a) => [a]
    case Deux(a, b) => [a, b]
    case Trois(a, b, c) => [a, b, c]
  }

  /** The VIDEOTEX table: Unicode character to Minitel codes. */
  function TableVideotex(c: char): Option<Entree>
  {
    match c
    case '\U{00A3}' => Some(Deux(SS2, 0x23))        // pound sign
    case '\U{00B0}' => Some(Deux(SS2, 0x30))        // degree sign
    case '\U{00B1}' => Some(Deux(SS2, 0x31))        // plus-minus
    case '\U{2190}' => Some(Deux(SS2, 0x2C))        // arrows left, up, right, down
    case '\U{2191}' => Some(Deux(SS2, 0x2D))
    case '\U{2192}' => Some(Deux(SS2, 0x2E))
    case '\U{2193}' => Some(Deux(SS2, 0x2F))
    case '\U{00BC}' => Some(Deux(SS2, 0x3C))        // one quarter, one half, three quarters
    case '\U{00BD}' => Some(Deux(SS2, 0x3D))
    case '\U{00BE}' => Some(Deux(SS2, 0x3E))
    case '\U{00E7}' => Some(Trois(SS2, 0x4B, 0x63))  // c cedilla
    case '\U{2019}' => Some(Trois(SS2, 0x4B, 0x27))  // right single quotation mark
    case '\U{00E0}' => Some(Trois(SS2, 0x41, 0x61))  // a grave, acute, circumflex, diaeresis
    case '\U{00E1}' => Some(Trois(SS2, 0x42, 0x61))
    case '\U{00E2}' => Some(Trois(SS2, 0x43, 0x61))
    case '\U{00E4}' => Some(Trois(SS2, 0x48, 0x61))
    case '\U{00E8}' => Some(Trois(SS2, 0x41, 0x65))  // e
    case '\U{00E9}' => Some(Trois(SS2, 0x42, 0x65))
    case '\U{00EA}' => Some(Trois(SS2, 0x43, 0x65))
    case '\U{00EB}' => Some(Trois(SS2, 0x48, 0x65))
    case '\U{00EC}' => Some(Trois(SS2, 0x41, 0x69))  // i
    case '\U{00ED}' => Some(Trois(SS2, 0x42, 0x69))
    case '\U{00EE}' => Some(Trois(SS2, 0x43, 0x69))
    case '\U{00EF}' => Some(Trois(SS2, 0x48, 0x69))
    case '\U{00F2}' => Some(Trois(SS2, 0x41, 0x6F))  // o
    case '\U{00F3}' => Some(Trois(SS2, 0x42, 0x6F))
    case '\U{00F4}' => Some(Trois(SS2, 0x43, 0x6F))
    case '\U{00F6}' => Some(Trois(SS2, 0x48, 0x6F))
    case '\U{00F9}' => Some(Trois(SS2, 0x41, 0x75))  // u
    case '\U{00FA}' => Some(Trois(SS2, 0x42, 0x75))
    case '\U{00FB}' => Some(Trois(SS2, 0x43, 0x75))
    case '\U{00FC}' => Some(Trois(SS2, 0x48, 0x75))
    case '\U{0152}' => Some(Deux(SS2, 0x6A))        // OE ligature
    case '\U{0153}' => Some(Deux(SS2, 0x7A))        // oe ligature
    case '\U{00DF}' => Some(Deux(SS2, 0x7B))        // sharp s
    case '\U{03B2}' => Some(Deux(SS2, 0x7B))        // beta, drawn as the sharp s
    case _ => None
  }

  /** The table used in the MIXTE and TELEINFORMATIQUE modes. */
  function TableAutre(c: char): Option<Entree>
  {
    match c
    case '\U{00A3}' => Some(Trois(SO, 0x23, SI))
    case '\U{00B0}' => Some(Trois(SO, 0x5B, SI))
    case '\U{00E7}' => Some(Trois(SO, 0x5C, SI))
    case '\U{2019}' => Some(Un(0x27))
    case '`' => Some(Un(0x60))
    case '\U{00A7}' => Some(Trois(SO, 0x5D, SI))      // section sign
    case '\U{00E0}' => Some(Trois(SO, 0x40, SI))
    case '\U{00E8}' => Some(Trois(SO, 0x7F, SI))
    case '\U{00E9}' => Some(Trois(SO, 0x7B, SI))
    case '\U{00F9}' => Some(Trois(SO, 0x7C, SI))
    case _ => None
  }

  /**
   * `encode('ascii', 'replace')` of one character, read as CPython does:
   * '?' for a character past ASCII.  MicroPython gives its UTF-8 bytes.
   */
  function Ascii(c: char): seq<int>
  {
    if c as int < 0x80 then [c as int] else ['?' as int]
  }

  /**
   * Minitel codes for one character: the mode's table when it has the
   * character, its ASCII code otherwise, and '?' when it is not ASCII.
   */
  function UnicodeVersMinitel(standard: Mode, c: char): seq<int>
  {
    var table := if standard == Videotex then TableVideotex(c) else TableAutre(c);
    if table.Some? then Octets(table.value) else Ascii(c)
  }

  /**
   * One to three 7-bit codes per character under the '?' fallback of
   * `Ascii`; a non-ASCII character given a single code is either unknown
   * ('?') or the apostrophe.
   */
  lemma UnicodeBorne(standard: Mode, c: char)
    ensures var r := UnicodeVersMinitel(standard, c);
      1 <= |r| <= 3 && (forall i | 0 <= i < |r| :: 0 <= r[i] < 0x80) &&
      (c as int >= 0x80 && |r| == 1 ==> r == ['?' as int] || r == [0x27])
  {
  }

  /** The codes of a whole string, character by character. */
  function Traduit(standard: Mode, s: string): seq<int>
  {
    if s == [] then [] else UnicodeVersMinitel(standard, s[0]) + Traduit(standard, s[1..])
  }

  /** Each character gives one to three codes, all of them 7-bit under the '?' fallback of `Ascii`. */
  lemma {:induction false} TraduitBorne(standard: Mode, s: string)
    ensures var r := Traduit(standard, s);
      |s| <= |r| <= 3 * |s| && forall i | 0 <= i < |r| :: 0 <= r[i] < 0x80
  {
    if s != [] {
      UnicodeBorne(standard, s[0]);
      TraduitBorne(standard, s[1..]);
    }
  }

  /**
   * Canonisation of a value: an integer stands for itself, a Sequence for the
   * codes it holds, a string for its translation, a list for the canonisation
   * of its elements one after another.
   */
  function Canonise(standard: Mode, v: Valeur): seq<int>
  {
    match v
    case Entier(n) => [n]
    case Objet(vs) => vs
    case Chaine(s) => Traduit(standard, s)
    case Liste(items) => CanoniseListe(standard, items)
  }

  /** The elements of a list, one after another. */
  function CanoniseListe(standard: Mode, items: seq<Valeur>): seq<int>
    decreases items
  {
    if items == [] then [] else Element(standard, items[0]) + CanoniseListe(standard, items[1..])
  }

  /**
   * One element of a list: strings are translated, integers kept, inner
   * lists flattened recursively; a Sequence object inside a list matches none
   * of the element cases and contributes nothing.
   */
  function Element(standard: Mode, v: Valeur): seq<int>
    decreases v
  {
    match v
    case Chaine(s) => Traduit(standard, s)
    case Entier(n) => [n]
    case Liste(l) => CanoniseListe(standard, l)
    case Objet(_) => []
  }

  /** A Sequence: the codes collected so far, and the table used to add text. */
  class Sequence {
    var valeurs: seq<int>
    var longueur: int
    const standard: Mode

    ghost predicate Valid()
      reads this
    {
      longueur == |valeurs|
    }

    constructor (valeur: Option<Valeur>, standard: Mode)
      ensures Valid() && this.standard == standard
      ensures valeurs == if valeur.Some? then Canonise(standard, valeur.value) else []
    {
      valeurs := [];
      longueur := 0;
      this.standard := standard;
      new;
      if valeur.Some? {
        Ajoute(valeur.value);
      }
    }

    /** Appends the canonisation of a value. */
    method Ajoute(valeur: Valeur)
      modifies this
      ensures Valid()
      ensures valeurs == old(valeurs) + Canonise(standard, valeur)
    {
      valeurs := valeurs + Canonise(standard, valeur);
      longueur := |valeurs|;
    }

    /**
     * Equality with a value; a value that is not already a Sequence is first
     * turned into one with the default VIDEOTEX table.
     */
    function Egale(autre: Valeur): (r: bool)
      reads this
      ensures r <==> valeurs == Canonise(Videotex, autre)
    {
      match autre
      case Objet(vs) => valeurs == vs
      case _ => valeurs == Canonise(Videotex, autre)
    }
  }

  // ---------------------------------------------------------------------
  // Properties of the translation and of canonisation

  /** An ASCII character is sent as its own code, whatever the mode. */
  lemma TraductionAscii(standard: Mode, c: char)
    requires c as int < 0x80
    ensures UnicodeVersMinitel(standard, c) == [c as int]
  {
  }

  /** An ASCII string is sent as its code points, whatever the mode. */
  lemma {:induction false} TraduitAscii(standard: Mode, s: string)
    requires forall i | 0 <= i < |s| :: s[i] as int < 0x80
    ensures Traduit(standard, s) == Codes(s)
  {
    if s != [] {
      TraductionAscii(standard, s[0]);
      TraduitAscii(standard, s[1..]);
    }
  }

  lemma {:induction false} TraduitConcat(standard: Mode, a: string, b: string)
    ensures Traduit(standard, a + b) == Traduit(standard, a) + Traduit(standard, b)
  {
    if a == [] {
      assert a + b == b;
    } else {
      assert (a + b)[1..] == a[1..] + b;
      var u := UnicodeVersMinitel(standard, a[0]);
      assert Traduit(standard, a + b) == u + Traduit(standard, a[1..] + b);
      TraduitConcat(standard, a[1..], b);
      Associe(u, Traduit(standard, a[1..]), Traduit(standard, b));
    }
  }

  /**
   * Every non-ASCII character that the VIDEOTEX table knows is sent behind
   * SS2, so a receiver can always tell it from plain text.
   */
  lemma VideotexPrefixeSS2(c: char)
    requires TableVideotex(c).Some?
    ensures c as int >= 0x80
    ensures UnicodeVersMinitel(Videotex, c)[0] == SS2
    ensures |UnicodeVersMinitel(Videotex, c)| in {2, 3}
  {
  }

  /** Outside VIDEOTEX, a table character is either bracketed by SO/SI or a single code. */
  lemma AutreEntreSOetSI(standard: Mode, c: char)
    requires standard != Videotex && TableAutre(c).Some?
    ensures var r := UnicodeVersMinitel(standard, c);
      (|r| == 3 && r[0] == SO && r[2] == SI) || |r| == 1
  {
  }

  /**
   * The character a Minitel shows for a VIDEOTEX table entry: the first code
   * after SS2 selects the sign or the accent, the second the letter accented.
   */
  function VideotexLu(codes: seq<int>): Option<char>
  {
    if |codes| == 2 && codes[0] == SS2 then
      match codes[1]
      case 0x23 => Some('\U{00A3}')
      case 0x30 => Some('\U{00B0}')
      case 0x31 => Some('\U{00B1}')
      case 0x2C => Some('\U{2190}')
      case 0x2D => Some('\U{2191}')
      case 0x2E => Some('\U{2192}')
      case 0x2F => Some('\U{2193}')
      case 0x3C => Some('\U{00BC}')
      case 0x3D => Some('\U{00BD}')
      case 0x3E => Some('\U{00BE}')
      case 0x6A => Some('\U{0152}')
      case 0x7A => Some('\U{0153}')
      case 0x7B => Some('\U{00DF}')
      case _ => None
    else if |codes| == 3 && codes[0] == SS2 then
      AccentLu(codes[1], codes[2])
    else None
  }

  /** An accent code followed by a letter, or the cedilla and apostrophe cases. */
  function AccentLu(accent: int, lettre: int): Option<char>
  {
    var voyelles := [0x61, 0x65, 0x69, 0x6F, 0x75];
    var grave := ['\U{00E0}', '\U{00E8}', '\U{00EC}', '\U{00F2}', '\U{00F9}'];
    var aigu := ['\U{00E1}', '\U{00E9}', '\U{00ED}', '\U{00F3}', '\U{00FA}'];
    var circonflexe := ['\U{00E2}', '\U{00EA}', '\U{00EE}', '\U{00F4}', '\U{00FB}'];
    var trema := ['\U{00E4}', '\U{00EB}', '\U{00EF}', '\U{00F6}', '\U{00FC}'];
    if accent == 0x4B then
      (if lettre == 0x63 then Some('\U{00E7}') else if lettre == 0x27 then Some('\U{2019}') else None)
    else if lettre !in voyelles then None
    else
      var k := if lettre == 0x61 then 0 else if lettre == 0x65 then 1 else if lettre == 0x69 then 2
               else if lettre == 0x6F then 3 else 4;
      match accent
      case 0x41 => Some(grave[k])
      case 0x42 => Some(aigu[k])
      case 0x43 => Some(circonflexe[k])
      case 0x48 => Some(trema[k])
      case _ => None
  }

  /** Every VIDEOTEX table character but beta is read back from its codes. */
  lemma VideotexRelu(c: char)
    requires TableVideotex(c).Some? && c != '\U{03B2}'
    ensures VideotexLu(Octets(TableVideotex(c).value)) == Some(c)
  {
  }

  /** The only collision of the VIDEOTEX table: sharp s and beta give the same codes. */
  lemma VideotexCollision(c: char, d: char)
    requires TableVideotex(c).Some? && TableVideotex(d).Some? && c != d
    requires UnicodeVersMinitel(Videotex, c) == UnicodeVersMinitel(Videotex, d)
    ensures {c, d} == {'\U{00DF}', '\U{03B2}'}
  {
    if c != '\U{03B2}' && d != '\U{03B2}' {
      VideotexRelu(c);
      VideotexRelu(d);
    } else if c == '\U{03B2}' {
      VideotexRelu(d);
    } else {
      VideotexRelu(c);
    }
  }

  /** Canonising a concatenation of lists concatenates the canonisations. */
  lemma {:induction false} CanoniseListeConcat(standard: Mode, a: seq<Valeur>, b: seq<Valeur>)
    ensures CanoniseListe(standard, a + b) == CanoniseListe(standard, a) + CanoniseListe(standard, b)
  {
    if a == [] {
      assert a + b == b;
    } else {
      assert (a + b)[0] == a[0];
      assert (a + b)[1..] == a[1..] + b;
      CanoniseListeConcat(standard, a[1..], b);
      Associe(Element(standard, a[0]), CanoniseListe(standard, a[1..]), CanoniseListe(standard, b));
    }
  }

  /** The list of integer values for a list of codes. */
  function Entiers(codes: seq<int>): (r: seq<Valeur>)
    ensures |r| == |codes|
    ensures forall i | 0 <= i < |codes| :: r[i] == Entier(codes[i])
  {
    if codes == [] then [] else [Entier(codes[0])] + Entiers(codes[1..])
  }

  /** A flat list of integers canonises to those integers: canonisation is idempotent. */
  lemma {:induction false} CanoniseEntiers(standard: Mode, codes: seq<int>)
    ensures Canonise(standard, Liste(Entiers(codes))) == codes
  {
    if codes != [] {
      var l := Entiers(codes);
      assert l[1..] == Entiers(codes[1..]);
      assert Element(standard, l[0]) == [codes[0]];
      CanoniseEntiers(standard, codes[1..]);
    }
  }

  /** Canonising the result of a canonisation changes nothing. */
  lemma Idempotence(standard: Mode, v: Valeur)
    ensures Canonise(standard, Liste(Entiers(Canonise(standard, v)))) == Canonise(standard, v)
  {
    CanoniseEntiers(standard, Canonise(standard, v));
  }

  /**
   * A string and the list holding that string canonise alike, but a Sequence
   * nested in a list is lost: appending a Sequence directly keeps its codes,
   * appending it inside a list drops them.
   */
  lemma ObjetImbrique(standard: Mode, vs: seq<int>)
    ensures Canonise(standard, Objet(vs)) == vs
    ensures Canonise(standard, Liste([Objet(vs)])) == []
  {
    var l := [Objet(vs)];
    assert l[1..] == [];
    assert CanoniseListe(standard, l) == [] + CanoniseListe(standard, l[1..]);
  }

  /** The example of the documentation: ['dd', 32, ['dd', 32]] gives [100, 100, 32, 100, 100, 32]. */
  lemma ExempleCanonise(standard: Mode)
    ensures Canonise(standard, Liste([Chaine("dd"), Entier(32), Liste([Chaine("dd"), Entier(32)])]))
            == [100, 100, 32, 100, 100, 32]
  {
    var interne := [Chaine("dd"), Entier(32)];
    var externe := [Chaine("dd"), Entier(32), Liste(interne)];
    TraduitAscii(standard, "dd");
    assert Traduit(standard, "dd") == [100, 100];
    assert CanoniseListe(standard, interne[1..]) == [32] by {
      assert interne[1..][1..] == [];
    }
    assert CanoniseListe(standard, interne) == [100, 100] + [32];
    assert CanoniseListe(standard, externe[1..][1..]) == [100, 100, 32] by {
      assert externe[1..][1..][1..] == [];
      assert externe[1..][1..][0] == Liste(interne);
    }
    assert CanoniseListe(standard, externe[1..]) == [32] + [100, 100, 32];
    assert CanoniseListe(standard, externe) == [100, 100] + [32, 100, 100, 32];
  }

  /** The text "é" is sent in VIDEOTEX as SS2, acute accent, then the letter e. */
  lemma ExempleAccent()
    ensures Canonise(Videotex, Chaine("\U{00E9}")) == [0x19, 0x42, 0x65]
    ensures Canonise(Mixte, Chaine("\U{00E9}")) == [0x0e, 0x7b, 0x0f]
  {
  }

  /**
   * Comparing against a value gives the same answer as comparing against the
   * Sequence that value would build: the form of the argument does not matter.
   */
  lemma EgaleFormeIndifferente(s: Sequence, v: Valeur)
    ensures s.Egale(v) == s.Egale(Objet(Canonise(Videotex, v)))
  {
  }

  /** A Sequence equals the Sequence holding its own codes. */
  lemma EgaleReflexive(s: Sequence)
    requires s.Valid()
    ensures s.Egale(Objet(s.valeurs))
  {
  }
}
