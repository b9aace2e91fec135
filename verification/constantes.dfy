/**
 * Constants of the Minitel world: ASCII control codes, protocol introducers
 * and commands, key codes, the colour map, and the tables describing the
 * terminal types and manufacturers.  Multi-code constants are flat lists of
 * codes (the source nests CSI inside key lists; canonisation flattens them).
 */
module Constantes {
  import opened Outils

  // ASCII control codes, with the Minitel names some of them also carry.
  const SOH := 0x01
  const EOT := 0x04
  const BEL := 0x07
  const BS  := 0x08
  const TAB := 0x09
  const LF  := 0x0a
  const VT  := 0x0b
  const FF  := 0x0c
  const CR  := 0x0d
  const SO  := 0x0e
  const SI  := 0x0f
  const DC1 := 0x11
  const CON := 0x11   // cursor on
  const DC2 := 0x12
  const REP := 0x12   // repeat the previous character
  const DC3 := 0x13
  const SEP := 0x13   // separator, announces a function key or an acknowledgement
  const DC4 := 0x14
  const COF := 0x14   // cursor off
  const CAN := 0x18
  const EM  := 0x19
  const SS2 := 0x19   // single shift 2, announces an accent or a special character
  const ESC := 0x1b
  const GS  := 0x1d
  const SS3 := 0x1d
  const RS  := 0x1e
  const US  := 0x1f

  // Protocol introducers.
  const PRO1: seq<int> := [ESC, 0x39]
  const PRO2: seq<int> := [ESC, 0x3a]
  const PRO3: seq<int> := [ESC, 0x3b]
  const CSI: seq<int>  := [ESC, 0x5b]

  // PRO1 commands.  The name CONNEXION is rebound further down to the
  // Connexion/Fin key, which is the value the name finally holds; the PRO1
  // command keeps its value here under another name.
  const DECONNEXION := 0x67
  const CONNEXION_PRO1 := 0x68
  const RET1 := 0x6c
  const RET2 := 0x6d
  const OPPO := 0x6f
  const STATUS_TERMINAL := 0x70
  const STATUS_CLAVIER := 0x72
  const STATUS_FONCTIONNEMENT := 0x72
  const STATUS_VITESSE := 0x74
  const STATUS_PROTOCOLE := 0x76
  const ENQROM := 0x7b
  const RESET := 0x7f

  // PRO2 commands.
  const COPIE := 0x7c
  const AIGUILLAGE_TO := 0x62
  const NON_DIFFUSION := 0x64
  const DIFFUSION := 0x65
  const TRANSPARENCE := 0x66
  const START := 0x69
  const STOP := 0x6a
  const PROG := 0x6b
  const REP_STATUS_TERMINAL := 0x71
  const REP_STATUS_CLAVIER := 0x73
  const REP_STATUS_VITESSE := 0x75
  const REP_STATUS_PROTOCOLE := 0x77
  const TELINFO: seq<int> := [0x31, 0x7d]
  const MIXTE1: seq<int> := [0x32, 0x7d]
  const MIXTE2: seq<int> := [0x32, 0x7e]

  // PRO3 commands.
  const AIGUILLAGE_OFF := 0x60
  const AIGUILLAGE_ON := 0x61
  const AIGUILLAGE_FROM := 0x63

  // Lengths of the PRO1, PRO2 and PRO3 replies.
  const LONGUEUR_PRO1 := 3
  const LONGUEUR_PRO2 := 4
  const LONGUEUR_PRO3 := 5

  const ETEN := 0x41
  const C0 := 0x43
  const ROULEAU := 0x43
  const PROCEDURE := 0x44
  const MINUSCULES := 0x45

  // Speed codes for PRO2+PROG.
  const B9600 := 0x7f
  const B4800 := 0x76
  const B1200 := 0x64
  const B300 := 0x52

  // Reception and emission codes of the routing commands.
  const RCPT_ECRAN := 0x58
  const RCPT_CLAVIER := 0x59
  const RCPT_MODEM := 0x5a
  const RCPT_PRISE := 0x5b
  const EMET_ECRAN := 0x50
  const EMET_CLAVIER := 0x51
  const EMET_MODEM := 0x52
  const EMET_PRISE := 0x53

  // Accent keys.
  const ACCENT_CEDILLE: seq<int> := [SS2, 0x4b]
  const ACCENT_GRAVE: seq<int> := [SS2, 0x41]
  const ACCENT_AIGU: seq<int> := [SS2, 0x42]
  const ACCENT_CIRCONFLEXE: seq<int> := [SS2, 0x43]
  const ACCENT_TREMA: seq<int> := [SS2, 0x48]

  // Arrow keys.
  const HAUT: seq<int> := CSI + [0x41]
  const BAS: seq<int> := CSI + [0x42]
  const GAUCHE: seq<int> := CSI + [0x44]
  const DROITE: seq<int> := CSI + [0x43]
  const MAJ_HAUT: seq<int> := CSI + [0x4d]
  const MAJ_BAS: seq<int> := CSI + [0x4c]
  const MAJ_GAUCHE: seq<int> := CSI + [0x50]
  const MAJ_DROITE: seq<int> := CSI + [0x34, 0x68]
  const CTRL_GAUCHE := 0x7f

  // Enter key.
  const ENTREE := 0x0d
  const MAJ_ENTREE: seq<int> := CSI + [0x48]
  const CTRL_ENTREE: seq<int> := CSI + [0x32, 0x4a]

  // Function keys.
  const ENVOI: seq<int> := [DC3, 0x41]
  const RETOUR: seq<int> := [DC3, 0x42]
  const REPETITION: seq<int> := [DC3, 0x43]
  const GUIDE: seq<int> := [DC3, 0x44]
  const ANNULATION: seq<int> := [DC3, 0x45]
  const SOMMAIRE: seq<int> := [DC3, 0x46]
  const CORRECTION: seq<int> := [DC3, 0x47]
  const SUITE: seq<int> := [DC3, 0x48]
  const CONNEXION: seq<int> := [DC3, 0x49]

  /** The nine function keys, in the order they are declared. */
  const FONCTIONS: seq<seq<int>> :=
    [ENVOI, RETOUR, REPETITION, GUIDE, ANNULATION, SOMMAIRE, CORRECTION, SUITE, CONNEXION]

  /** Every key the Minitel sends as a multi-code sequence. */
  const TOUCHES: seq<seq<int>> :=
    [ACCENT_CEDILLE, ACCENT_GRAVE, ACCENT_AIGU, ACCENT_CIRCONFLEXE, ACCENT_TREMA,
     HAUT, BAS, GAUCHE, DROITE, MAJ_HAUT, MAJ_BAS, MAJ_GAUCHE, MAJ_DROITE,
     MAJ_ENTREE, CTRL_ENTREE] + FONCTIONS

  /** A key of the colour map: the source's dictionary has string and integer keys. */
  datatype Cle = Nom(s: string) | Niveau(n: int)

  /** The colour names, in the order of their Minitel numbers. */
  const NOMS_COULEURS: seq<string> :=
    ["noir", "rouge", "vert", "jaune", "bleu", "magenta", "cyan", "blanc"]

  /** Grey levels 0..7 (dark to light) as Minitel colour numbers. */
  const GRIS: seq<int> := [0, 4, 1, 5, 2, 6, 3, 7]

  const COULEURS_MINITEL: map<Cle, int> := map[
    Nom("noir") := 0, Nom("rouge") := 1, Nom("vert") := 2, Nom("jaune") := 3,
    Nom("bleu") := 4, Nom("magenta") := 5, Nom("cyan") := 6, Nom("blanc") := 7,
    Nom("0") := 0, Nom("1") := 4, Nom("2") := 1, Nom("3") := 5,
    Nom("4") := 2, Nom("5") := 6, Nom("6") := 3, Nom("7") := 7,
    Niveau(0) := 0, Niveau(1) := 4, Niveau(2) := 1, Niveau(3) := 5,
    Niveau(4) := 2, Niveau(5) := 6, Niveau(6) := 3, Niveau(7) := 7]

  /**
   * What is known of a terminal.  A field the source's dictionary lacks
   * (no manufacturer or version in the type table) is None.
   */
  datatype Capacite = Capacite(
    nom: string,
    retournable: bool,
    clavier: Option<string>,
    vitesse: int,
    constructeur: Option<string>,
    colonnes80: bool,
    caracteres: bool,
    version: Option<char>)

  const CAPACITES_BASIQUES := Capacite("Minitel inconnu", false, Some("ABCD"), 1200,
                                       Some("Inconnu"), false, false, None)

  function Type(nom: string, retournable: bool, clavier: Option<string>, vitesse: int,
                colonnes80: bool, caracteres: bool): Capacite
  {
    Capacite(nom, retournable, clavier, vitesse, None, colonnes80, caracteres, None)
  }

  /** Terminal types, by the type letter of the identification reply. */
  const TYPE_MINITELS: map<char, Capacite> := map[
    'b' := Type("Minitel 1", false, Some("ABCD"), 1200, false, false),
    'c' := Type("Minitel 1", false, Some("Azerty"), 1200, false, false),
    'd' := Type("Minitel 10", false, Some("Azerty"), 1200, false, false),
    'e' := Type("Minitel 1 couleur", false, Some("Azerty"), 1200, false, false),
    'f' := Type("Minitel 10", true, Some("Azerty"), 1200, false, false),
    'g' := Type("\U{00C9}mulateur", true, Some("Azerty"), 9600, true, true),
    'j' := Type("Imprimante", false, None, 1200, false, false),
    'r' := Type("Minitel 1", true, Some("Azerty"), 1200, false, false),
    's' := Type("Minitel 1 couleur", true, Some("Azerty"), 1200, false, false),
    't' := Type("Terminatel 252", false, None, 1200, false, false),
    'u' := Type("Minitel 1B", true, Some("Azerty"), 4800, true, false),
    'v' := Type("Minitel 2", true, Some("Azerty"), 9600, true, true),
    'w' := Type("Minitel 10B", true, Some("Azerty"), 4800, true, false),
    'y' := Type("Minitel 5", true, Some("Azerty"), 9600, true, true),
    'z' := Type("Minitel 12", true, Some("Azerty"), 9600, true, true)]

  /** Manufacturers, by the manufacturer letter of the identification reply. */
  const CONSTRUCTEURS: map<char, string> := map[
    'A' := "Matra", 'B' := "RTIC", 'C' := "Telic-Alcatel", 'D' := "Thomson",
    'E' := "CCS", 'F' := "Fiet", 'G' := "Fime", 'H' := "Unitel",
    'I' := "Option", 'J' := "Bull", 'K' := "T\U{00E9}l\U{00E9}matique", 'L' := "Desmet"]

  // ---------------------------------------------------------------------
  // Properties of the tables

  /** Every function key is SEP followed by one code, and the nine codes differ. */
  lemma FonctionsApresSEP()
    ensures forall k | k in FONCTIONS :: |k| == 2 && k[0] == SEP
    ensures forall i, j | 0 <= i < j < |FONCTIONS| :: FONCTIONS[i][1] != FONCTIONS[j][1]
  {
  }

  /**
   * The framing shape of a key: SS2 or SEP then one code; CSI then one code
   * other than 0x32 and 0x34; or CSI, then 0x32 or 0x34, then one code.
   */
  ghost predicate FormeDeTouche(k: seq<int>)
  {
    (|k| == 2 && k[0] in {SS2, SEP}) ||
    (|k| == 3 && k[..2] == CSI && k[2] !in {0x32, 0x34}) ||
    (|k| == 4 && k[..2] == CSI && k[2] in {0x32, 0x34})
  }

  /**
   * Every key has one of the three framing shapes, and the keys of four codes
   * are exactly MAJ_DROITE and CTRL_ENTREE.
   */
  lemma ClesLongues()
    ensures forall i | 0 <= i < |TOUCHES| :: FormeDeTouche(TOUCHES[i])
    ensures forall i | 0 <= i < |TOUCHES| ::
      |TOUCHES[i]| == 4 <==> TOUCHES[i] == MAJ_DROITE || TOUCHES[i] == CTRL_ENTREE
  {
    forall i | 0 <= i < |TOUCHES|
      ensures FormeDeTouche(TOUCHES[i])
      ensures |TOUCHES[i]| == 4 <==> TOUCHES[i] == MAJ_DROITE || TOUCHES[i] == CTRL_ENTREE
    {
      assert TOUCHES[5..13] == [HAUT, BAS, GAUCHE, DROITE, MAJ_HAUT, MAJ_BAS, MAJ_GAUCHE, MAJ_DROITE];
      if i < 5 || i >= 15 {
        assert |TOUCHES[i]| == 2;
      } else if i == 12 || i == 14 {
        assert TOUCHES[i][..2] == CSI;
      } else {
        assert TOUCHES[i][..2] == CSI;
        assert |TOUCHES[i]| == 3;
      }
    }
  }

  /** Every colour number is between 0 and 7. */
  lemma CouleursBornees()
    ensures forall c | c in COULEURS_MINITEL :: 0 <= COULEURS_MINITEL[c] <= 7
  {
  }

  /**
   * A grey level given as a digit string and as an integer maps to the same
   * colour: its place in the grey scale.
   */
  lemma GrisNiveau(n: int)
    requires 0 <= n < 8
    ensures Nom(Decimal(n)) in COULEURS_MINITEL && Niveau(n) in COULEURS_MINITEL
    ensures COULEURS_MINITEL[Nom(Decimal(n))] == COULEURS_MINITEL[Niveau(n)] == GRIS[n]
  {
    assert Decimal(n) == [('0' as int + n) as char];
  }

  /** The grey scale is a permutation of the eight colours. */
  lemma GrisPermutation()
    ensures forall c | 0 <= c < 8 :: c in GRIS
    ensures forall i, j | 0 <= i < j < 8 :: GRIS[i] != GRIS[j]
  {
  }

  /** The four speed codes are pairwise distinct. */
  lemma CodesVitesseDistincts()
    ensures |{B300, B1200, B4800, B9600}| == 4
  {
  }

  /**
   * The terminal types are consistent: every speed is 1200, 4800 or 9600,
   * 80 columns need at least 4800 bps, and redefinable characters come with
   * 80 columns at 9600 bps.  The default record is the most conservative one.
   */
  lemma TypesCoherents()
    ensures forall t | t in TYPE_MINITELS :: TYPE_MINITELS[t].vitesse in {1200, 4800, 9600}
    ensures forall t | t in TYPE_MINITELS && TYPE_MINITELS[t].colonnes80 ::
      TYPE_MINITELS[t].vitesse >= 4800
    ensures forall t | t in TYPE_MINITELS && TYPE_MINITELS[t].caracteres ::
      TYPE_MINITELS[t].colonnes80 && TYPE_MINITELS[t].vitesse == 9600
    ensures forall t | t in TYPE_MINITELS ::
      TYPE_MINITELS[t].constructeur.None? && TYPE_MINITELS[t].version.None?
    ensures CAPACITES_BASIQUES.vitesse == 1200 && !CAPACITES_BASIQUES.colonnes80
    ensures !CAPACITES_BASIQUES.caracteres && CAPACITES_BASIQUES.version.None?
  {
  }
}
