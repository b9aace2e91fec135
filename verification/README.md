# Minitel driver, widgets and MiniChess in Dafny

This project models three parts of the Minitel-ESP32 repository:

- The MicroPython driver for the French Minitel videotex terminal:
  - `Sequence.py`: the key and code sequences;
  - `constantes.py`: the protocol constants;
  - `Minitel.py`: the serial driver.
- The widgets built on the driver: `UI`, `Label`, `ChampTexte` (text field), `Menu` and `Conteneur` (container).
- The board logic of the `MiniChess` Arduino sketch.

**Sequences.** A `Sequence` is a flat list of integer codes. Strings, integers, lists and other sequences are *canonised* into it: a string gives 7-bit codes (with a character outside both tables and past ASCII read as '?', see `Sequences.Ascii` under "## Left out"), an integer is kept as it is, whatever its value. Non-ASCII characters are translated by the VIDEOTEX table (SS2 + accent + letter) or by the table shared by the MIXTE and TELEINFORMATIQUE modes (SO/SI brackets).

**The driver.** The driver talks to the terminal over a serial line. Here the line is a pair of sequences:

- `entree` is the scripted input. Each entry is a 7-bit character, or nothing for a read that times out.
- `trace` records every code written, in order. `envoyer` writes each code as `chr(valeur).encode()`, its UTF-8 bytes; `Pilote.Octets` gives those bytes. A code below 0x80 is one byte, the same (`Pilote.OctetsAscii`), and, under the '?' reading of `Sequences.Ascii`, the codes of a string are all below 0x80 (`Pilote.OctetsTexte`). A position code past column 63 is not (`Pilote.PositionLointaine`).

Every operation of the driver is a method of class `Pilote.Minitel`. Each states:

- its new `trace`, `entree`, mode, speed and capacities;
- how each of these relates to a specification function: `Dialogue`, `Trame`, `Balayage`, `CouleurCodes` and so on.

Lemmas then prove properties of those functions: codes read back losslessly, keys framed exactly, speed searches stopping at the first answer.

**The widgets.** The widgets are classes with the same fields as the Python objects. Each class is specified by a function on a value view (`Champs.Touche`, `Menus.Touche`, `Conteneurs.Clavier`), and lemmas state the invariants those functions keep: the cursor stays in the text and under the total length, the selection stays on an option, the active element is activable. The text field's function takes a `Version`: `TelQuEcrit` is what `ChampTexte.py` does and what the class runs; `Corrige` is the evidently intended field (see Findings), which also keeps the cursor in the window and the value under the total length.

**MiniChess.** `Echecs.MiniChess` holds the 8x8 `array2` board, the cursor, the selection and the player. Its methods are proved against functions on `seq<seq<bv8>>` boards:

| function | models |
|---|---|
| `Pas` | one key |
| `Saisir` | the key loop of `getMove` |
| `Deplace` | `drawMove` |
| `Jouer` with `MASQUE_ROQUE_ECRIT` | `makeMove` as written |
| `Coup` | `makeMove` as intended (both colours castle) |

**The model follows the code.** The classes compute what the code does, also where it departs from what its authors evidently meant; each such place is a row of "## Findings", with the intended definition modelled beside the written one. Three facts about the code that the model keeps:

- **`redefinir`.** Each glyph of 80 pixels goes out as 13 codes of six pixels, a 14th code holding the two remaining pixels followed by four zero bits, then a single 0x30 (`Codage.GlypheForme`).
- **Widget height.** `UI.__init__` bounds `hauteur + posy - 1` by 80, not by the 24 screen rows (UI.py:70, `Interface.Zone`).
- **Long upward and leftward moves.** These send `CSI - n B` and `CSI - n C` (`Codage.LettresDesLongsDeplacements`).

Paths in the table below are relative to the repository root. `P` stands for `upython/uPyMinitel/uPyMinitel/minitel` and is written out in each cell.

## Model

| member | source | states |
|---|---|---|
| Outils.Repete | upython/uPyMinitel/uPyMinitel/minitel/Minitel.py:757-785 | `[x] * k`: k copies of x, as the short relative moves send them |
| Outils.Codes | upython/uPyMinitel/uPyMinitel/minitel/Sequence.py:119-128 | the code points of a string, one per character, in order |
| Outils.CodesConcat | upython/uPyMinitel/uPyMinitel/minitel/Sequence.py:119-128 | the codes of a concatenation are the concatenation of the codes |
| Outils.Chiffres | upython/uPyMinitel/uPyMinitel/minitel/Minitel.py:773 | the decimal digits of a natural number, at least one, all digits |
| Outils.Decimal | upython/uPyMinitel/uPyMinitel/minitel/Minitel.py:773 | Python's `str(n)`: a minus sign exactly for negative n, then the digits |
| Outils.ChiffresAllerRetour | upython/uPyMinitel/uPyMinitel/minitel/Minitel.py:773 | reading back the digits gives the number |
| Outils.DecimalAllerRetour | upython/uPyMinitel/uPyMinitel/minitel/Minitel.py:773 | reading back `str(n)` gives n, negative numbers included |
| Outils.PremierApres | upython/uPyMinitel/uPyMinitel/minitel/ui/Conteneur.py:221-227 | the first marked index after n, or none exactly when no later index is marked |
| Outils.DernierAvant | upython/uPyMinitel/uPyMinitel/minitel/ui/Conteneur.py:250-256 | the last marked index before n, or none exactly when no earlier index is marked |
| Outils.DernierAvantEst | upython/uPyMinitel/uPyMinitel/minitel/ui/Conteneur.py:250-256 | a marked index with nothing marked up to m is the one the backward search finds |
| Outils.PremierApresEst | upython/uPyMinitel/uPyMinitel/minitel/ui/Conteneur.py:221-227 | a marked index with nothing marked from m is the one the forward search finds |
| Outils.AllerRetour | upython/uPyMinitel/uPyMinitel/minitel/ui/Conteneur.py:200-256 | from a marked index, a step forward then back (or back then forward) returns to it |
| Constantes.FonctionsApresSEP | upython/uPyMinitel/uPyMinitel/minitel/constantes.py:153-161 | every function key is SEP and one code, and the nine codes are distinct |
| Constantes.ClesLongues | upython/uPyMinitel/uPyMinitel/minitel/constantes.py:135-161 | every key has one of the three framed shapes; the four-code keys are exactly MAJ_DROITE and CTRL_ENTREE |
| Constantes.CouleursBornees | upython/uPyMinitel/uPyMinitel/minitel/constantes.py:289-296 | every colour number is in 0..7 |
| Constantes.GrisNiveau | upython/uPyMinitel/uPyMinitel/minitel/constantes.py:289-296 | a grey level as a digit string and as an integer give the same colour, its place in the grey scale |
| Constantes.GrisPermutation | upython/uPyMinitel/uPyMinitel/minitel/constantes.py:286-296 | the grey scale is a permutation of the eight colours |
| Constantes.CodesVitesseDistincts | upython/uPyMinitel/uPyMinitel/minitel/constantes.py:106-109 | the four speed codes are pairwise distinct |
| Constantes.TypesCoherents | upython/uPyMinitel/uPyMinitel/minitel/constantes.py:164-308 | every type's speed is 1200, 4800 or 9600; 80 columns need 4800 bps or more; redefinable characters come with 80 columns at 9600; manufacturer and version are left to the terminal's reply; the basic capacities are 1200 bps, 40 columns, no redefinable characters |
| Sequences.Octets | upython/uPyMinitel/uPyMinitel/minitel/Sequence.py:12-30 | a table entry is one to three codes |
| Sequences.UnicodeBorne | upython/uPyMinitel/uPyMinitel/minitel/Sequence.py:135-157 | a character gives one to three 7-bit codes, with the '?' fallback of `Ascii`; a non-ASCII one given a single code is '?' or the apostrophe |
| Sequences.TraduitBorne | upython/uPyMinitel/uPyMinitel/minitel/Sequence.py:119-125 | a string gives between one and three codes per character, all 7-bit with the '?' fallback of `Ascii` |
| Sequences.Sequence.constructor | upython/uPyMinitel/uPyMinitel/minitel/Sequence.py:38-64 | a new sequence holds the canonisation of the value, or nothing, in the given mode |
| Sequences.Sequence.Ajoute | upython/uPyMinitel/uPyMinitel/minitel/Sequence.py:66-81 | the values grow by the canonisation of the argument, the length follows |
| Sequences.Sequence.Egale | upython/uPyMinitel/uPyMinitel/minitel/Sequence.py:159-180 | true exactly when the values equal those of the argument, canonised in VIDEOTEX when not a Sequence |
| Sequences.TraductionAscii | upython/uPyMinitel/uPyMinitel/minitel/Sequence.py:135-157 | an ASCII character is sent as its own code in every mode |
| Sequences.TraduitAscii | upython/uPyMinitel/uPyMinitel/minitel/Sequence.py:119-125 | an ASCII string is sent as its code points in every mode |
| Sequences.TraduitConcat | upython/uPyMinitel/uPyMinitel/minitel/Sequence.py:119-125 | translating a concatenation concatenates the translations |
| Sequences.VideotexPrefixeSS2 | upython/uPyMinitel/uPyMinitel/minitel/Sequence.py:12-24 | every non-ASCII VIDEOTEX table character is sent behind SS2 |
| Sequences.AutreEntreSOetSI | upython/uPyMinitel/uPyMinitel/minitel/Sequence.py:26-30 | outside VIDEOTEX a table character is bracketed by SO/SI or is one code |
| Sequences.VideotexRelu | upython/uPyMinitel/uPyMinitel/minitel/Sequence.py:12-24 | every VIDEOTEX table character but beta is recovered from its codes |
| Sequences.VideotexCollision | upython/uPyMinitel/uPyMinitel/minitel/Sequence.py:23 | sharp s and beta are the only two characters with the same codes |
| Sequences.CanoniseListeConcat | upython/uPyMinitel/uPyMinitel/minitel/Sequence.py:118-133 | canonising two lists one after the other concatenates their canonisations |
| Sequences.Entiers | upython/uPyMinitel/uPyMinitel/minitel/Sequence.py:108-109 | the list of integer values of a code list keeps its length and its codes |
| Sequences.CanoniseEntiers | upython/uPyMinitel/uPyMinitel/minitel/Sequence.py:126-128 | a flat list of integers canonises to those integers |
| Sequences.Idempotence | upython/uPyMinitel/uPyMinitel/minitel/Sequence.py:83-133 | canonising a canonisation changes nothing |
| Sequences.ObjetImbrique | upython/uPyMinitel/uPyMinitel/minitel/Sequence.py:112-131 | a Sequence canonises to its own values, but a Sequence nested in a list is dropped |
| Sequences.ExempleCanonise | upython/uPyMinitel/uPyMinitel/minitel/Sequence.py:101-103 | `['dd', 32, ['dd', 32]]` canonises to `[100, 100, 32, 100, 100, 32]` |
| Sequences.ExempleAccent | upython/uPyMinitel/uPyMinitel/minitel/Sequence.py:18 | "é" is sent as SS2, the acute accent, e in VIDEOTEX, and as SO, 0x7b, SI in MIXTE |
| Sequences.EgaleFormeIndifferente | upython/uPyMinitel/uPyMinitel/minitel/Sequence.py:175-180 | comparing with a value or with the Sequence it builds gives the same answer |
| Sequences.EgaleReflexive | upython/uPyMinitel/uPyMinitel/minitel/Sequence.py:175-180 | a Sequence equals the Sequence holding its own codes |
| Codage.NormaliserCouleur | upython/uPyMinitel/uPyMinitel/minitel/Minitel.py:20-47 | the colour number of a name or grey level, when there is one, is in 0..7 |
| Codage.NormaliserNoms | upython/uPyMinitel/uPyMinitel/minitel/Minitel.py:20-47 | the eight colour names give colours 0..7 in order |
| Codage.NormaliserGris | upython/uPyMinitel/uPyMinitel/minitel/Minitel.py:20-47 | a grey level 0..7 as integer or digit string gives its place in the grey scale |
| Codage.ChiffresLongs | upython/uPyMinitel/uPyMinitel/minitel/Minitel.py:42 | a number of 10 or more has at least two digits, so is no key of the colour map |
| Codage.NormaliserHorsGamme | upython/uPyMinitel/uPyMinitel/minitel/Minitel.py:20-47 | a grey level outside 0..7 is no colour |
| Codage.Attribut | upython/uPyMinitel/uPyMinitel/minitel/Minitel.py:703-719 | ESC then base + colour when the colour is valid, nothing otherwise |
| Codage.CouleurAllerRetour | upython/uPyMinitel/uPyMinitel/minitel/Minitel.py:679-719 | the colour codes read back as the normalised colours; invalid or missing colours send nothing |
| Codage.Deplacement | upython/uPyMinitel/uPyMinitel/minitel/Minitel.py:757-785 | offsets of 1..4 repeat the short code; larger ones are CSI, `str(d)`, a letter; zero sends nothing |
| Codage.Emplacement | upython/uPyMinitel/uPyMinitel/minitel/Minitel.py:745-755 | one to three codes; RS alone for (1,1) |
| Codage.PositionAllerRetour | upython/uPyMinitel/uPyMinitel/minitel/Minitel.py:721-755 | the position is read back from its codes |
| Codage.DeplacementAllerRetour | upython/uPyMinitel/uPyMinitel/minitel/Minitel.py:757-785 | the relative offset is read back from its codes |
| Codage.LettresDesLongsDeplacements | upython/uPyMinitel/uPyMinitel/minitel/Minitel.py:772-785 | a long upward move is sent with 'B' and a long leftward one with 'C', behind a '-' sign |
| Codage.TailleCodes | upython/uPyMinitel/uPyMinitel/minitel/Minitel.py:787-817 | one size attribute ESC, 0x4C..0x4F for the four width/height pairs |
| Codage.TailleAllerRetour | upython/uPyMinitel/uPyMinitel/minitel/Minitel.py:787-817 | width and height are read back from the attribute |
| Codage.EffetAllerRetour | upython/uPyMinitel/uPyMinitel/minitel/Minitel.py:819-857 | the three requested effect states are read back from the codes |
| Codage.LireBasculeDevant | upython/uPyMinitel/uPyMinitel/minitel/Minitel.py:819-857 | one effect is read back from the front of the codes, whatever follows |
| Codage.PorteesCoherentes | upython/uPyMinitel/uPyMinitel/minitel/Minitel.py:914-948 | 'vraimenttout' is 'tout' then the status row clear; the status row clear goes to row 0, clears to the end of the line, then LF |
| Codage.RepeterCodes | upython/uPyMinitel/uPyMinitel/minitel/Minitel.py:950-968 | ends with REP and 0x40 + count - 1, a printable code for 1..40 repetitions |
| Codage.RepeterCanonise | upython/uPyMinitel/uPyMinitel/minitel/Minitel.py:968 | the list `repeter` sends flattens to exactly `RepeterCodes` |
| Codage.RepeterAscii | upython/uPyMinitel/uPyMinitel/minitel/Minitel.py:968 | repeating an ASCII character sends the character, REP and the count |
| Codage.CompteAllerRetour | upython/uPyMinitel/uPyMinitel/minitel/Minitel.py:984-1038 | the count is read back from between CSI and the final letter |
| Codage.InsereColonnes | upython/uPyMinitel/uPyMinitel/minitel/Minitel.py:1014-1038 | inserting n columns sends exactly n spaces between the two insert-mode switches |
| Codage.ValeurBornee | upython/uPyMinitel/uPyMinitel/minitel/Minitel.py:1126 | `int(s, 2)` of k pixels is below 2^k |
| Codage.Bits | upython/uPyMinitel/uPyMinitel/minitel/Minitel.py:1126 | the k pixels writing v in binary, of length k |
| Codage.BitsValeur | upython/uPyMinitel/uPyMinitel/minitel/Minitel.py:1126 | writing back in binary the value of a pixel string gives the string |
| Codage.ValeurZero | upython/uPyMinitel/uPyMinitel/minitel/Minitel.py:1133 | appending a zero pixel doubles the value |
| Codage.ValeurQuatreZeros | upython/uPyMinitel/uPyMinitel/minitel/Minitel.py:1133 | `int(s + '0000', 2) == 16 * int(s, 2)` |
| Codage.Pixels | upython/uPyMinitel/uPyMinitel/minitel/Minitel.py:1112-1118 | the pixels of a drawing, only '0' and '1', no longer than the drawing |
| Codage.PixelsConcat | upython/uPyMinitel/uPyMinitel/minitel/Minitel.py:1112-1118 | the pixels of a concatenation are the concatenation of the pixels |
| Codage.PixelsIgnorees | upython/uPyMinitel/uPyMinitel/minitel/Minitel.py:1115-1118 | inserting a non-pixel character anywhere changes nothing |
| Codage.Paquets | upython/uPyMinitel/uPyMinitel/minitel/Minitel.py:1125-1127 | one code per whole group of six pixels |
| Codage.PaquetsBornes | upython/uPyMinitel/uPyMinitel/minitel/Minitel.py:1125-1127 | every group code is printable, in 0x40..0x7F |
| Codage.GlypheForme | upython/uPyMinitel/uPyMinitel/minitel/Minitel.py:1112-1137 | a glyph is 15 codes: 14 printable data codes then 0x30 |
| Codage.PaquetsAllerRetour | upython/uPyMinitel/uPyMinitel/minitel/Minitel.py:1125-1127 | whole groups of pixels are read back from their codes |
| Codage.GlypheAllerRetour | upython/uPyMinitel/uPyMinitel/minitel/Minitel.py:1112-1137 | the 80 pixels of a glyph are read back from its 15 codes |
| Codage.PaquetsTete | upython/uPyMinitel/uPyMinitel/minitel/Minitel.py:1125-1127 | the first code is that of the first six pixels, then the rest |
| Codage.Reste | upython/uPyMinitel/uPyMinitel/minitel/Minitel.py:1120-1128 | the pending `octet`: fewer than six pixels |
| Codage.ResteSuffixe | upython/uPyMinitel/uPyMinitel/minitel/Minitel.py:1120-1128 | the pending group is the last `|p| mod 6` pixels |
| Codage.PaquetsAjout | upython/uPyMinitel/uPyMinitel/minitel/Minitel.py:1120-1128 | a pixel emits a code exactly when it completes the pending group, which then restarts empty |
| Codage.ResteMultiple | upython/uPyMinitel/uPyMinitel/minitel/Minitel.py:1120-1128 | a whole number of groups leaves nothing pending |
| Codage.Bloc | upython/uPyMinitel/uPyMinitel/minitel/Minitel.py:1121-1137 | the pixels of the glyph being drawn, fewer than 80 |
| Codage.EmballeCourt | upython/uPyMinitel/uPyMinitel/minitel/Minitel.py:1112-1128 | inside a glyph, one more pixel extends the codes by what the loop emits for it |
| Codage.EmballeComplet | upython/uPyMinitel/uPyMinitel/minitel/Minitel.py:1130-1137 | the 80th pixel adds the padded last group and 0x30, and resets the loop state |
| Codage.ResteDernier | upython/uPyMinitel/uPyMinitel/minitel/Minitel.py:1130-1137 | 79 pixels leave exactly the last pixel pending |
| Codage.EmballeAjout | upython/uPyMinitel/uPyMinitel/minitel/Minitel.py:1112-1137 | packing can be done incrementally: one more pixel adds the loop's emission and moves its state |
| Codage.EmballeAjoutLong | upython/uPyMinitel/uPyMinitel/minitel/Minitel.py:1112-1137 | from 80 pixels on, one more pixel still adds the loop emission and moves its state |
| Codage.SelectionJeu | upython/uPyMinitel/uPyMinitel/minitel/Minitel.py:1143-1146 | the intended final selection, which the code does not send (Findings): ESC 0x28 0x20 for G0 and ESC 0x29 0x20 for G1, four codes |
| Codage.SelectionJeuTelQuEcritFausse | upython/uPyMinitel/uPyMinitel/minitel/Minitel.py:1143-1146 | as written, redefining G0 selects G'1 instead |
| Codage.SelectionJeuCorrecte | upython/uPyMinitel/uPyMinitel/minitel/Minitel.py:1104-1107 | the intended selection names the set just redefined, and agrees with the code for G1 |
| Pilote.Queue | upython/uPyMinitel/uPyMinitel/minitel/Minitel.py:167-210 | a read consumes one entry of the line, none of an empty line |
| Pilote.Lu | upython/uPyMinitel/uPyMinitel/minitel/Minitel.py:167-210 | at most one code, exactly one when a character was read |
| Pilote.AjoutLu | upython/uPyMinitel/uPyMinitel/minitel/Minitel.py:249 | adding what was read to a Sequence adds its code or nothing |
| Pilote.SauteEncore | upython/uPyMinitel/uPyMinitel/minitel/Minitel.py:309-313 | one more read after n reads is read n + 1, leaving the line after n + 1 reads |
| Pilote.Collecte | upython/uPyMinitel/uPyMinitel/minitel/Minitel.py:308-315 | n reads collect at most n codes |
| Pilote.CollecteComplete | upython/uPyMinitel/uPyMinitel/minitel/Minitel.py:308-315 | when every one of the n reads is answered, all n characters are collected |
| Pilote.CollecteIncomplete | upython/uPyMinitel/uPyMinitel/minitel/Minitel.py:308-315 | a read that gets nothing makes the reply shorter than n |
| Pilote.Trame | upython/uPyMinitel/uPyMinitel/minitel/Minitel.py:245-274 | a key is one to four codes starting with the first read; nothing read is the failed assertion |
| Pilote.TrameAvance | upython/uPyMinitel/uPyMinitel/minitel/Minitel.py:245-274 | a key yielded uses up at least one entry and never lengthens the line |
| Pilote.Frappe | upython/uPyMinitel/uPyMinitel/minitel/Minitel.py:245-274 | the line entries that type a key, one per code |
| Pilote.FormeTramee | upython/uPyMinitel/uPyMinitel/minitel/Minitel.py:253-272 | a code sequence of one of the three key shapes is framed exactly, leaving what follows |
| Pilote.TrameCSI | upython/uPyMinitel/uPyMinitel/minitel/Minitel.py:265-272 | after CSI one code, and one more after 0x32 or 0x34 |
| Pilote.ToucheTramee | upython/uPyMinitel/uPyMinitel/minitel/Minitel.py:212-274 | every key of the keyboard is read back as exactly its codes |
| Pilote.CedilleNonTramee | upython/uPyMinitel/uPyMinitel/minitel/Minitel.py:253-255 | SS2 frames two codes, so cedilla then c (three codes) is never read as one key |
| Pilote.DialogueConcat | upython/uPyMinitel/uPyMinitel/minitel/Minitel.py:317-383 | a run of calls succeeds when its first call does and the rest does after it |
| Pilote.DialoguePrefixe | upython/uPyMinitel/uPyMinitel/minitel/Minitel.py:317-383 | whatever the replies, the codes sent are the commands of the calls made, in order |
| Pilote.ModeNomme | upython/uPyMinitel/uPyMinitel/minitel/Minitel.py:335-340 | exactly the three mode names are modes |
| Pilote.Etapes | upython/uPyMinitel/uPyMinitel/minitel/Minitel.py:342-383 | no call for the current mode, one call per change, two from TELEINFORMATIQUE to MIXTE |
| Pilote.EtapesTransit | upython/uPyMinitel/uPyMinitel/minitel/Minitel.py:342-383 | TELEINFORMATIQUE to MIXTE passes through VIDEOTEX; no other change has an intermediate mode |
| Pilote.ModeDepuisStatut | upython/uPyMinitel/uPyMinitel/minitel/Minitel.py:440-452 | short reply: TELEINFORMATIQUE; bit 0 of code 3: MIXTE; else VIDEOTEX |
| Pilote.TelicTelQuEcritJamais | upython/uPyMinitel/uPyMinitel/minitel/Minitel.py:436-438 | as written, no terminal is ever recorded as a Telic or Matra one |
| Pilote.TelicReconnu | upython/uPyMinitel/uPyMinitel/minitel/Minitel.py:436-438 | with the intended test, manufacturer C with one of the four versions is Telic or Matra |
| Pilote.FicheDuType | upython/uPyMinitel/uPyMinitel/minitel/Minitel.py:425-438 | a known type's name, speed, keyboard, 80 columns and characters are the table's; the version is the reply's; the manufacturer is the table's outside B and C |
| Pilote.BalayageIssue | upython/uPyMinitel/uPyMinitel/minitel/Minitel.py:454-501 | a speed found is one tried and the port is left at it; none found leaves the port at the last speed |
| Pilote.BalayageEtape | upython/uPyMinitel/uPyMinitel/minitel/Minitel.py:483-501 | an answered probe ends the search, otherwise it goes on with the next speed |
| Pilote.BalayagePremier | upython/uPyMinitel/uPyMinitel/minitel/Minitel.py:483-501 | the search stops at the first speed whose probe is answered |
| Pilote.Silence | upython/uPyMinitel/uPyMinitel/minitel/Minitel.py:167-210 | a line on which n reads get nothing |
| Pilote.CollecteMuette | upython/uPyMinitel/uPyMinitel/minitel/Minitel.py:308-315 | reading a silent line collects nothing and leaves a shorter silent line |
| Pilote.BalayageMuet | upython/uPyMinitel/uPyMinitel/minitel/Minitel.py:454-501 | a terminal that never answers makes every speed be tried and none be found |
| Pilote.PremierCaractere | upython/uPyMinitel/uPyMinitel/minitel/Minitel.py:1110 | the first-character list is sent as US, 0x23, the character's codes, 0x30 |
| Pilote.PixelSuivant | upython/uPyMinitel/uPyMinitel/minitel/Minitel.py:1112-1118 | one more character of the drawings adds itself to the pixels if it is one, nothing otherwise |
| Pilote.EtapesClavier | upython/uPyMinitel/uPyMinitel/minitel/Minitel.py:621-677 | the three calls of `configurer_clavier` |
| Pilote.Minitel.constructor | upython/uPyMinitel/uPyMinitel/minitel/Minitel.py:100-137 | power-on state: VIDEOTEX, 1200 bps, basic capacities, nothing sent |
| Pilote.Minitel.Envoyer | upython/uPyMinitel/uPyMinitel/minitel/Minitel.py:148-165 | the trace grows by the VIDEOTEX canonisation of the value, the codes before their UTF-8 encoding |
| Pilote.Minitel.EnvoyerListe | upython/uPyMinitel/uPyMinitel/minitel/Minitel.py:148-165 | the trace grows by exactly the codes, before their UTF-8 encoding |
| Pilote.Utf8 | upython/uPyMinitel/uPyMinitel/minitel/Minitel.py:165 | the bytes of `chr(valeur).encode()`; none exactly for codes outside 0..0x10FFFF, where `chr` raises |
| Pilote.Utf8AllerRetour | upython/uPyMinitel/uPyMinitel/minitel/Minitel.py:165 | every accepted code is one to four bytes, the first giving the length, and reads back as the code |
| Pilote.Octets | upython/uPyMinitel/uPyMinitel/minitel/Minitel.py:165 | the bytes of a list of codes in order; none exactly when one code is outside 0..0x10FFFF |
| Pilote.OctetsAscii | upython/uPyMinitel/uPyMinitel/minitel/Minitel.py:165 | codes below 0x80 go out unchanged, one byte each |
| Pilote.OctetsTexte | upython/uPyMinitel/uPyMinitel/minitel/Minitel.py:165 | a string's codes go out unchanged in every mode, with the '?' fallback of `Ascii` |
| Pilote.PositionLointaine | upython/uPyMinitel/uPyMinitel/minitel/Minitel.py:165 | `Emplacement(70, 5)` is US 0x45 0x86 and goes out as 1F 45 C2 86 |
| Pilote.Minitel.Recevoir | upython/uPyMinitel/uPyMinitel/minitel/Minitel.py:167-210 | the next entry as a one-character string, '' when nothing arrives; one entry consumed |
| Pilote.Minitel.RecevoirSequence | upython/uPyMinitel/uPyMinitel/minitel/Minitel.py:212-274 | the key and the line left are those `Trame` gives |
| Pilote.Minitel.Appeler | upython/uPyMinitel/uPyMinitel/minitel/Minitel.py:276-315 | sends the command, then returns what `attente` reads collect |
| Pilote.Minitel.Solliciter | upython/uPyMinitel/uPyMinitel/minitel/Minitel.py:317-383 | one call; success when its reply is the expected one |
| Pilote.Minitel.Dialoguer | upython/uPyMinitel/uPyMinitel/minitel/Minitel.py:317-383 | the calls in order, stopping at the first unexpected reply, as `Dialogue` |
| Pilote.Minitel.DefinirMode | upython/uPyMinitel/uPyMinitel/minitel/Minitel.py:317-383 | unknown name: False, nothing sent; otherwise the `Etapes` calls, the mode recorded only if all succeed |
| Pilote.Minitel.Identifier | upython/uPyMinitel/uPyMinitel/minitel/Minitel.py:385-452 | malformed ROM reply: basic capacities and mode unchanged; otherwise capacities from `Fiche` with the version test as written (never Telic or Matra), and the mode read from the status reply |
| Pilote.Minitel.DevinerVitesse | upython/uPyMinitel/uPyMinitel/minitel/Minitel.py:454-501 | the first speed of 9600, 4800, 1200, 300 answering a status request, recorded; -1 if none |
| Pilote.Minitel.Recuperation | upython/uPyMinitel/uPyMinitel/minitel/Minitel.py:503-554 | the first speed answering a return to VIDEOTEX; VIDEOTEX on success, TELEINFORMATIQUE otherwise |
| Pilote.Minitel.Sonder | upython/uPyMinitel/uPyMinitel/minitel/Minitel.py:483-501 | the loop over the speeds is the search `Balayage` |
| Pilote.Minitel.EssayerPremiere | upython/uPyMinitel/uPyMinitel/minitel/Minitel.py:483-501 | one turn: an answer ends the search at the first speed, otherwise it goes on with the rest |
| Pilote.Minitel.Essayer | upython/uPyMinitel/uPyMinitel/minitel/Minitel.py:483-501 | the port is at the speed tried; the answer is the probe's test of the reply |
| Pilote.Minitel.DefinirVitesse | upython/uPyMinitel/uPyMinitel/minitel/Minitel.py:557-619 | current speed: True, nothing sent; unknown speed: lookup error (None); otherwise PROG and the speed code: a reply carrying the speed status is a refusal (False, speed kept), else True and the port at the new speed |
| Pilote.Minitel.ConfigurerClavier | upython/uPyMinitel/uPyMinitel/minitel/Minitel.py:621-677 | the three keyboard calls, stopping at the first short reply |
| Pilote.Minitel.Echo | upython/uPyMinitel/uPyMinitel/minitel/Minitel.py:881-912 | success exactly when the PRO3 acknowledgement is complete |
| Pilote.Minitel.Couleur | upython/uPyMinitel/uPyMinitel/minitel/Minitel.py:679-719 | sends `CouleurCodes`, which read back losslessly (CouleurAllerRetour) |
| Pilote.Minitel.Position | upython/uPyMinitel/uPyMinitel/minitel/Minitel.py:721-785 | sends the absolute or relative codes, which read back losslessly |
| Pilote.Minitel.Taille | upython/uPyMinitel/uPyMinitel/minitel/Minitel.py:787-817 | sends the size attribute, which reads back losslessly |
| Pilote.Minitel.Effet | upython/uPyMinitel/uPyMinitel/minitel/Minitel.py:819-857 | sends the effect codes, which read back losslessly |
| Pilote.Minitel.Curseur | upython/uPyMinitel/uPyMinitel/minitel/Minitel.py:859-879 | sends CON to show the cursor, COF to hide it |
| Pilote.Minitel.Efface | upython/uPyMinitel/uPyMinitel/minitel/Minitel.py:914-948 | sends the codes of the scope, only for a known scope |
| Pilote.Minitel.Repeter | upython/uPyMinitel/uPyMinitel/minitel/Minitel.py:950-968 | the character, REP and the count, for 1..40 repetitions |
| Pilote.Minitel.Bip | upython/uPyMinitel/uPyMinitel/minitel/Minitel.py:970-975 | sends BEL |
| Pilote.Minitel.DebutLigne | upython/uPyMinitel/uPyMinitel/minitel/Minitel.py:977-982 | sends CR |
| Pilote.Minitel.Supprime | upython/uPyMinitel/uPyMinitel/minitel/Minitel.py:984-1012 | CSI n P for columns then CSI n M for rows, each only when given |
| Pilote.Minitel.Insere | upython/uPyMinitel/uPyMinitel/minitel/Minitel.py:1014-1038 | n spaces in insert mode for columns, then CSI n L for rows |
| Pilote.Minitel.Semigraphique | upython/uPyMinitel/uPyMinitel/minitel/Minitel.py:1040-1052 | SO to enter the semigraphic set, SI to leave it |
| Pilote.Minitel.EmettrePixel | upython/uPyMinitel/uPyMinitel/minitel/Minitel.py:1120-1137 | one pixel: the codes and loop state as `Suivant` and `Emission` say |
| Pilote.Minitel.TraiterCaractere | upython/uPyMinitel/uPyMinitel/minitel/Minitel.py:1112-1137 | a non-pixel is skipped; a pixel is emitted |
| Pilote.Minitel.EnvoyerPixels | upython/uPyMinitel/uPyMinitel/minitel/Minitel.py:1109-1137 | sends `Emballe` of the pixels of the drawings |
| Pilote.Minitel.Redefinir | upython/uPyMinitel/uPyMinitel/minitel/Minitel.py:1054-1146 | header, first character, packed pixels, US 0x41 0x41, and the set selection as written: G'1 whatever the set |
| Pilote.Minitel.EnvoyerPreambule | upython/uPyMinitel/uPyMinitel/minitel/Minitel.py:1103-1110 | the set header then the first character |
| Interface.Teindre | upython/uPyMinitel/uPyMinitel/minitel/ui/Label.py:47-48 | a foreground colour code only when the element has a colour |
| Interface.CompleteContenu | upython/uPyMinitel/uPyMinitel/minitel/ui/ChampTexte.py:261-262 | padding keeps the text and fills exactly up to n with the pad character |
| Interface.Completer | upython/uPyMinitel/uPyMinitel/minitel/ui/Menu.py:184-185 | the padding loop reaches the padded text |
| Interface.RangeeAbsolue | upython/uPyMinitel/uPyMinitel/minitel/ui/UI.py:109-119 | below row 1 a blanked row is US, row, column, space, REP, count |
| Interface.EffaceLongueur | upython/uPyMinitel/uPyMinitel/minitel/ui/UI.py:109-119 | below row 1, `efface` is six codes per row |
| Interface.EffaceRangee | upython/uPyMinitel/uPyMinitel/minitel/ui/UI.py:109-119 | block k of `efface` is the blanking of row posy + k |
| Interface.EffaceBlocs | upython/uPyMinitel/uPyMinitel/minitel/ui/UI.py:109-119 | `efface` blanks every row of the rectangle, in order, and nothing else |
| Interface.EffacePas | upython/uPyMinitel/uPyMinitel/minitel/ui/UI.py:115-119 | one more row extends the blanking down to that row |
| Interface.EffaceZone | upython/uPyMinitel/uPyMinitel/minitel/ui/UI.py:109-119 | the row loop sends `EffaceCodes` |
| Interface.EffaceRang | upython/uPyMinitel/uPyMinitel/minitel/ui/UI.py:117-119 | one row: position, then spaces by repetition |
| Interface.UI.constructor | upython/uPyMinitel/uPyMinitel/minitel/ui/UI.py:32-85 | the checked rectangle and colour are kept; the element is not activable |
| Interface.UI.Efface | upython/uPyMinitel/uPyMinitel/minitel/ui/UI.py:109-119 | blanks the element's rectangle (`EffaceBlocs`) |
| Interface.UI.GereTouche | upython/uPyMinitel/uPyMinitel/minitel/ui/UI.py:125-145 | the base element takes no key |
| Etiquettes.LabelSansCouleur | upython/uPyMinitel/uPyMinitel/minitel/ui/Label.py:38-51 | without a colour, a label is its position then its text |
| Etiquettes.LabelAscii | upython/uPyMinitel/uPyMinitel/minitel/ui/Label.py:38-51 | without a colour and below row 1, an ASCII label is US, row, column and its characters unchanged |
| Etiquettes.Label.constructor | upython/uPyMinitel/uPyMinitel/minitel/ui/Label.py:11-19 | as wide as its text, one row high, not activable |
| Etiquettes.Label.GereTouche | upython/uPyMinitel/uPyMinitel/minitel/ui/Label.py:21-36 | a label takes no key |
| Etiquettes.Label.Affiche | upython/uPyMinitel/uPyMinitel/minitel/ui/Label.py:38-51 | sends `LabelCodes`: position, colour, text (LabelAscii) |
| Champs.Moitie | upython/uPyMinitel/uPyMinitel/minitel/ui/ChampTexte.py:166-171 | `int(n / 2)`, truncated toward zero for negative n too |
| Champs.AffichageFenetre | upython/uPyMinitel/uPyMinitel/minitel/ui/ChampTexte.py:257-268 | the window is exactly `visible` characters: the text from `decalage`, then dots |
| Champs.DecaleTelQuEcritImmobile | upython/uPyMinitel/uPyMinitel/minitel/ui/ChampTexte.py:200-205 | a one-column window does not move when scrolled as written |
| Champs.DecaleSuitLeCurseur | upython/uPyMinitel/uPyMinitel/minitel/ui/ChampTexte.py:200-205 | the corrected scroll puts the cursor back in the window and equals the code's for widths 2 and more |
| Champs.DroiteGauche | upython/uPyMinitel/uPyMinitel/minitel/ui/ChampTexte.py:146-212 | in either version, moving right moves the cursor by one, and moving left then brings it back |
| Champs.Indice | upython/uPyMinitel/uPyMinitel/minitel/ui/ChampTexte.py:127-133 | `s.index(x)`: the first index of x |
| Champs.InsereTelQuEcritDeborde | upython/uPyMinitel/uPyMinitel/minitel/ui/ChampTexte.py:122-142 | as written, a full field still takes a character and grows past its total length |
| Champs.AnnulationTelleQuEcriteCache | upython/uPyMinitel/uPyMinitel/minitel/ui/ChampTexte.py:102-107 | as written, after a scroll ANNULATION leaves the cursor left of the window |
| Champs.ToucheCoherente | upython/uPyMinitel/uPyMinitel/minitel/ui/ChampTexte.py:64-144 | every key, as written or corrected, keeps the cursor within the text and the total length |
| Champs.GaucheCoherente | upython/uPyMinitel/uPyMinitel/minitel/ui/ChampTexte.py:146-178 | moving left keeps the cursor within the text |
| Champs.DroiteCoherente | upython/uPyMinitel/uPyMinitel/minitel/ui/ChampTexte.py:180-212 | moving right, as written or corrected, keeps the cursor within the text |
| Champs.InsereCoherente | upython/uPyMinitel/uPyMinitel/minitel/ui/ChampTexte.py:114-142 | an insertion, as written or corrected, keeps the cursor within the text and the total length |
| Champs.ToucheVisible | upython/uPyMinitel/uPyMinitel/minitel/ui/ChampTexte.py:64-144 | every key keeps the cursor in the window or just after it: always in the corrected field; as written only for windows of two columns or more, and for ANNULATION only when the window starts at 0 |
| Champs.GaucheVisible | upython/uPyMinitel/uPyMinitel/minitel/ui/ChampTexte.py:160-171 | moving left keeps the cursor in the window |
| Champs.DroiteVisible | upython/uPyMinitel/uPyMinitel/minitel/ui/ChampTexte.py:194-205 | moving right keeps the cursor in the window: always when corrected, as written for windows of two columns or more |
| Champs.ToucheBornee | upython/uPyMinitel/uPyMinitel/minitel/ui/ChampTexte.py:64-144 | a key adds at most one character, as written too; in the corrected field no key makes the value longer than both its old length and the total length |
| Champs.CorrectionEfface | upython/uPyMinitel/uPyMinitel/minitel/ui/ChampTexte.py:95-101 | in either version, CORRECTION removes exactly the character left of the cursor and moves onto its place |
| Champs.CaracteresAscii | upython/uPyMinitel/uPyMinitel/minitel/ui/ChampTexte.py:12-17 | the characters a field takes are 7-bit |
| Champs.InsereEtat | upython/uPyMinitel/uPyMinitel/minitel/ui/ChampTexte.py:137-140 | in either version, with room, the character goes at the cursor and the cursor moves past it |
| Champs.FrappeAccent | upython/uPyMinitel/uPyMinitel/minitel/ui/ChampTexte.py:122-142 | in either version, a typed character is inserted (with room), accented after a dead key when a vowel; the dead key is used up |
| Champs.AccentAigu | upython/uPyMinitel/uPyMinitel/minitel/ui/ChampTexte.py:126-127 | in either version, the acute dead key then e inserts é |
| Champs.ToucheIgnoree | upython/uPyMinitel/uPyMinitel/minitel/ui/ChampTexte.py:64-144 | in either version, a key not taken changes nothing and sends nothing; the taken keys are exactly the listed ones |
| Champs.ChampTexte.constructor | upython/uPyMinitel/uPyMinitel/minitel/ui/ChampTexte.py:39-62 | the total length defaults to the visible one; the initial value with cursor and window start at 0, no dead key; activable |
| Champs.ChampTexte.Affiche | upython/uPyMinitel/uPyMinitel/minitel/ui/ChampTexte.py:233-278 | sends `AfficheCodes`: header, window (AffichageFenetre), cursor back |
| Champs.ChampTexte.Entame | upython/uPyMinitel/uPyMinitel/minitel/ui/ChampTexte.py:245-251 | cursor hidden, moved to the field, the field's colour |
| Champs.ChampTexte.Fenetre | upython/uPyMinitel/uPyMinitel/minitel/ui/ChampTexte.py:252-262 | the window onto the value or its stars, padded with dots |
| Champs.ChampTexte.CurseurGauche | upython/uPyMinitel/uPyMinitel/minitel/ui/ChampTexte.py:146-178 | the state and codes `Gauche` gives; the result says whether the cursor moved |
| Champs.ChampTexte.CurseurDroite | upython/uPyMinitel/uPyMinitel/minitel/ui/ChampTexte.py:180-212 | the state and codes `Droite` gives as written, with the `DecaleTelQuEcrit` scroll |
| Champs.ChampTexte.InsereCaractere | upython/uPyMinitel/uPyMinitel/minitel/ui/ChampTexte.py:114-142 | the state and codes `Insere` gives as written: the character is inserted whatever the value's length |
| Champs.ChampTexte.GereTouche | upython/uPyMinitel/uPyMinitel/minitel/ui/ChampTexte.py:64-144 | the state, codes and answer `Touche` gives as written; the cursor stays within the text and the total length |
| Champs.ChampTexte.Reagir | upython/uPyMinitel/uPyMinitel/minitel/ui/ChampTexte.py:87-144 | the dispatch on the key, as `Touche` as written; ANNULATION keeps the window start |
| Champs.ChampTexte.Corrige | upython/uPyMinitel/uPyMinitel/minitel/ui/ChampTexte.py:95-101 | the state and codes `Correction` gives |
| Champs.ChampTexte.GereArrivee | upython/uPyMinitel/uPyMinitel/minitel/ui/ChampTexte.py:214-223 | the cursor to its column, shown |
| Champs.ChampTexte.GereDepart | upython/uPyMinitel/uPyMinitel/minitel/ui/ChampTexte.py:225-231 | the dead key dropped, the text and cursor kept, the cursor hidden |
| Menus.LargeurLigne | upython/uPyMinitel/uPyMinitel/minitel/ui/Menu.py:52-55 | the width of the widest option: no option is wider, and one is that wide |
| Menus.Choisissables | upython/uPyMinitel/uPyMinitel/minitel/ui/Menu.py:220-272 | exactly the options that are not separators |
| Menus.OptionSuivante | upython/uPyMinitel/uPyMinitel/minitel/ui/Menu.py:220-245 | the first non-separator after `numero`, none when there is none |
| Menus.OptionPrecedente | upython/uPyMinitel/uPyMinitel/minitel/ui/Menu.py:247-272 | the last non-separator before `numero`, none when there is none |
| Menus.SuivantePrecedente | upython/uPyMinitel/uPyMinitel/minitel/ui/Menu.py:220-272 | from an option, BAS then HAUT (or HAUT then BAS) returns to it |
| Menus.LignesPas | upython/uPyMinitel/uPyMinitel/minitel/ui/Menu.py:130-135 | line i after lines 0..i-1 gives lines 0..i |
| Menus.ContenuAscii | upython/uPyMinitel/uPyMinitel/minitel/ui/Menu.py:176-190 | an ASCII option padded with spaces is its own codes, inverse video first |
| Menus.EntameGrille | upython/uPyMinitel/uPyMinitel/minitel/ui/Menu.py:160-172 | without a colour, in a grid, a line starts US, row, column, left bar |
| Menus.LigneSelectionnee | upython/uPyMinitel/uPyMinitel/minitel/ui/Menu.py:145-194 | the selected ASCII line in a grid, code by code: bar, inverse video, padded option, normal video, bar |
| Menus.ToucheSelection | upython/uPyMinitel/uPyMinitel/minitel/ui/Menu.py:65-105 | exactly HAUT and BAS are taken; the selection moves to the nearest non-separator, else a beep |
| Menus.Barrer | upython/uPyMinitel/uPyMinitel/minitel/ui/Menu.py:168-172 | a bar only in a grid |
| Menus.Inverser | upython/uPyMinitel/uPyMinitel/minitel/ui/Menu.py:175-192 | inverse video on or off, only around the selected line |
| Menus.DessineContenu | upython/uPyMinitel/uPyMinitel/minitel/ui/Menu.py:174-190 | a separator run, or the option padded with spaces |
| Menus.DessineLigne | upython/uPyMinitel/uPyMinitel/minitel/ui/Menu.py:145-194 | sends `LigneCodes` of line k |
| Menus.EntameLigne | upython/uPyMinitel/uPyMinitel/minitel/ui/Menu.py:160-172 | position, colour, left bar |
| Menus.FinLigne | upython/uPyMinitel/uPyMinitel/minitel/ui/Menu.py:190-194 | normal video after the selected line, then the right bar |
| Menus.DessineLignes | upython/uPyMinitel/uPyMinitel/minitel/ui/Menu.py:130-135 | every option line, top to bottom |
| Menus.DessineCadre | upython/uPyMinitel/uPyMinitel/minitel/ui/Menu.py:119-143 | one column right of the corner, the colour, a run of 0x5f or 0x7e |
| Menus.TraceBord | upython/uPyMinitel/uPyMinitel/minitel/ui/Menu.py:119-143 | a border only in a grid |
| Menus.DessineMenu | upython/uPyMinitel/uPyMinitel/minitel/ui/Menu.py:107-143 | sends `MenuCodes`: top border, lines, bottom border |
| Menus.Menu.constructor | upython/uPyMinitel/uPyMinitel/minitel/ui/Menu.py:46-63 | width of the widest option plus two, one row per option plus two; activable |
| Menus.Menu.Suivante | upython/uPyMinitel/uPyMinitel/minitel/ui/Menu.py:220-245 | the loop returns `OptionSuivante` |
| Menus.Menu.Precedente | upython/uPyMinitel/uPyMinitel/minitel/ui/Menu.py:247-272 | the loop returns `OptionPrecedente` |
| Menus.Menu.GereTouche | upython/uPyMinitel/uPyMinitel/minitel/ui/Menu.py:65-105 | the selection, codes and answer `Touche` gives (ToucheSelection) |
| Menus.Menu.ChangeSelection | upython/uPyMinitel/uPyMinitel/minitel/ui/Menu.py:196-218 | the old line redrawn plain, the new one selected |
| Menus.Menu.AfficheLigne | upython/uPyMinitel/uPyMinitel/minitel/ui/Menu.py:145-194 | sends `LigneCodes` of line k |
| Menus.Menu.Affiche | upython/uPyMinitel/uPyMinitel/minitel/ui/Menu.py:107-143 | sends `MenuCodes` |
| Fonds.TeinteInvalide | upython/uPyMinitel/uPyMinitel/minitel/ui/Conteneur.py:158 | a background name that is no colour sends no colour code |
| Fonds.TeinteValide | upython/uPyMinitel/uPyMinitel/minitel/ui/Conteneur.py:158 | a valid background c is ESC, 0x50 + c |
| Fonds.FondIncolore | upython/uPyMinitel/uPyMinitel/minitel/ui/Conteneur.py:155-159 | an invalid background paints the same codes as `efface` |
| Fonds.FondSansTeinte | upython/uPyMinitel/uPyMinitel/minitel/ui/Conteneur.py:155-159 | rows without colour codes are the rows of `efface` |
| Fonds.AplatAbsolu | upython/uPyMinitel/uPyMinitel/minitel/ui/Conteneur.py:157-159 | below row 1 a painted row is eight codes |
| Fonds.FondLongueur | upython/uPyMinitel/uPyMinitel/minitel/ui/Conteneur.py:155-159 | the background is eight codes per row |
| Fonds.FondRangee | upython/uPyMinitel/uPyMinitel/minitel/ui/Conteneur.py:155-159 | block k is the row posy + k |
| Fonds.AplatLongueur | upython/uPyMinitel/uPyMinitel/minitel/ui/Conteneur.py:157-159 | a painted row is eight codes |
| Fonds.FondBlocs | upython/uPyMinitel/uPyMinitel/minitel/ui/Conteneur.py:155-159 | every row of the rectangle painted in order: US, row, column, ESC, 0x50 + c, space, REP, count |
| Fonds.FondPas | upython/uPyMinitel/uPyMinitel/minitel/ui/Conteneur.py:156-159 | one more row extends the background down to that row |
| Fonds.PeintFond | upython/uPyMinitel/uPyMinitel/minitel/ui/Conteneur.py:155-159 | the loop sends `FondCodes` (FondBlocs) |
| Fonds.PeintRang | upython/uPyMinitel/uPyMinitel/minitel/ui/Conteneur.py:157-159 | one row: position, background colour, spaces |
| Conteneurs.Composants | upython/uPyMinitel/uPyMinitel/minitel/ui/Conteneur.py:187-198 | every element's widget is in the set |
| Conteneurs.Activables | upython/uPyMinitel/uPyMinitel/minitel/ui/Conteneur.py:223 | the activable flags, one per element, in order |
| Conteneurs.Apercus | upython/uPyMinitel/uPyMinitel/minitel/ui/Conteneur.py:162-163 | the views of the elements, one per element, in order |
| Conteneurs.PeinturesPas | upython/uPyMinitel/uPyMinitel/minitel/ui/Conteneur.py:162-163 | drawing element i after the ones before it gives the drawing of the first i + 1 |
| Conteneurs.QuitteAccueil | upython/uPyMinitel/uPyMinitel/minitel/ui/ChampTexte.py:214-231 | leaving keeps the widget invariant and where the cursor comes back |
| Conteneurs.ReagitMuet | upython/uPyMinitel/uPyMinitel/minitel/ui/Conteneur.py:114-119 | every widget keeps its invariant (a field's cursor within its text, keys as written); a key not taken changes and sends nothing; a menu takes exactly the arrows; a label nothing |
| Conteneurs.Voisin | upython/uPyMinitel/uPyMinitel/minitel/ui/Conteneur.py:200-256 | the next or previous activable element, never the current one |
| Conteneurs.VoisinRetour | upython/uPyMinitel/uPyMinitel/minitel/ui/Conteneur.py:124-138 | forward then backward returns to the element one started from, and conversely |
| Conteneurs.Clavier | upython/uPyMinitel/uPyMinitel/minitel/ui/Conteneur.py:85-140 | taken exactly when the element takes it or it is a navigation key; the new active element is activable; nothing changes otherwise |
| Conteneurs.DessineElement | upython/uPyMinitel/uPyMinitel/minitel/ui/Conteneur.py:162-163 | the element's own `affiche` |
| Conteneurs.Arrive | upython/uPyMinitel/uPyMinitel/minitel/ui/UI.py:147-153 | the element's `gere_arrivee`: only a text field sends codes |
| Conteneurs.Part | upython/uPyMinitel/uPyMinitel/minitel/ui/UI.py:155-161 | the element's `gere_depart`: only a text field changes |
| Conteneurs.Transmet | upython/uPyMinitel/uPyMinitel/minitel/ui/Conteneur.py:115 | the element's own `gere_touche`, as `Reagit` |
| Conteneurs.Conteneur.constructor | upython/uPyMinitel/uPyMinitel/minitel/ui/Conteneur.py:31-83 | no elements, no active element, the checked rectangle |
| Conteneurs.Conteneur.Ajoute | upython/uPyMinitel/uPyMinitel/minitel/ui/Conteneur.py:169-198 | appended; takes the container's colour if it has none; active if none was and it is activable |
| Conteneurs.Conteneur.Range | upython/uPyMinitel/uPyMinitel/minitel/ui/Conteneur.py:194-198 | appended; the active element as `ajoute` sets it |
| Conteneurs.Conteneur.Colore | upython/uPyMinitel/uPyMinitel/minitel/ui/Conteneur.py:190-192 | the colour default |
| Conteneurs.Conteneur.Suivant | upython/uPyMinitel/uPyMinitel/minitel/ui/Conteneur.py:200-227 | the first activable element after the active one, without wrapping (PremierApres) |
| Conteneurs.Conteneur.Precedent | upython/uPyMinitel/uPyMinitel/minitel/ui/Conteneur.py:229-256 | the last activable element before the active one, without wrapping (DernierAvant) |
| Conteneurs.Conteneur.Affiche | upython/uPyMinitel/uPyMinitel/minitel/ui/Conteneur.py:142-167 | background when set, every element in order, then the active element's arrival |
| Conteneurs.Conteneur.Fonde | upython/uPyMinitel/uPyMinitel/minitel/ui/Conteneur.py:155-159 | the background, elements untouched |
| Conteneurs.Conteneur.Reprend | upython/uPyMinitel/uPyMinitel/minitel/ui/Conteneur.py:166-167 | the active element's arrival, if any |
| Conteneurs.Conteneur.DessineTous | upython/uPyMinitel/uPyMinitel/minitel/ui/Conteneur.py:162-163 | every element drawn in list order |
| Conteneurs.Conteneur.GereTouche | upython/uPyMinitel/uPyMinitel/minitel/ui/Conteneur.py:85-140 | no active element: not taken; otherwise as `Clavier`; the container invariant is kept |
| Conteneurs.Conteneur.Reagir | upython/uPyMinitel/uPyMinitel/minitel/ui/Conteneur.py:114-140 | as `Clavier` with element n active |
| Conteneurs.Conteneur.Repli | upython/uPyMinitel/uPyMinitel/minitel/ui/Conteneur.py:121-140 | the container's navigation once the element left the key |
| Conteneurs.Conteneur.Delegue | upython/uPyMinitel/uPyMinitel/minitel/ui/Conteneur.py:114-119 | the active element's own reaction; not taken means unchanged and silent |
| Conteneurs.Conteneur.Navigue | upython/uPyMinitel/uPyMinitel/minitel/ui/Conteneur.py:124-138 | departure, move (BEL when there is nowhere to go), arrival |
| Conteneurs.Conteneur.Quitter | upython/uPyMinitel/uPyMinitel/minitel/ui/Conteneur.py:126 | `gere_depart` of element n, keeping where the cursor comes back to it |
| Conteneurs.Conteneur.Deplace | upython/uPyMinitel/uPyMinitel/minitel/ui/Conteneur.py:127-128 | the neighbour becomes active, or BEL and no change |
| Conteneurs.Conteneur.Accueillir | upython/uPyMinitel/uPyMinitel/minitel/ui/Conteneur.py:129 | `gere_arrivee` of the active element |
| Conteneurs.Conteneur.Executer | upython/uPyMinitel/uPyMinitel/minitel/ui/UI.py:87-100 | the key loop keeps the container valid and its elements |
| Conteneurs.Conteneur.Tour | upython/uPyMinitel/uPyMinitel/minitel/ui/UI.py:94-100 | the loop goes on only after a key was read, so the line is shorter |
| Conteneurs.Conteneur.Lire | upython/uPyMinitel/uPyMinitel/minitel/ui/UI.py:95-100 | a key read is non-empty and uses up input; the key script running out is None |
| Echecs.Masques | arduino/Minitel1B_MiniChess_UI/MiniChess.h:13-14 | the colour and piece masks are disjoint and cover the four bits; BLACK is 0, WHITE the colour bit |
| Echecs.Decompose | arduino/Minitel1B_MiniChess_UI/MiniChess.h:52-53 | piece + colour reads back as that piece and that colour |
| Echecs.Glyphes | arduino/Minitel1B_MiniChess_UI/MiniChess.h:56-64 | one 3x3 glyph per piece, six-bit mosaics, blank for the empty square |
| Echecs.Adversaire | arduino/Minitel1B_MiniChess_UI/MiniChess.cpp:223-229 | white gives black, anything else white |
| Echecs.AdversaireInvolutif | arduino/Minitel1B_MiniChess_UI/MiniChess.cpp:223-229 | two changes give the turn back; one change always changes it |
| Echecs.Ecrit | arduino/Minitel1B_MiniChess_UI/MiniChess.cpp:439-440 | an 8x8 board with one square written |
| Echecs.EcritCases | arduino/Minitel1B_MiniChess_UI/MiniChess.cpp:439-440 | writing a square changes it and no other |
| Echecs.Deplace | arduino/Minitel1B_MiniChess_UI/MiniChess.cpp:436-440 | `drawMove` on values, an 8x8 board |
| Echecs.DeplaceCases | arduino/Minitel1B_MiniChess_UI/MiniChess.cpp:436-440 | the piece lands on the destination, the origin empties, nothing else changes |
| Echecs.Ouverture | arduino/Minitel1B_MiniChess_UI/MiniChess.cpp:74-85 | R N B Q K B N R and pawns for each side, four empty rows, kings on column 4 |
| Echecs.Commande | arduino/Minitel1B_MiniChess_UI/MiniChess.cpp:237-269 | the filtered key is 0, an arrow, CR, CAN or another key |
| Echecs.CommandeIdempotente | arduino/Minitel1B_MiniChess_UI/MiniChess.cpp:237-269 | filtering twice is filtering once; exactly the inhibited keys become 0 |
| Echecs.Pas | arduino/Minitel1B_MiniChess_UI/MiniChess.cpp:108-147 | one turn keeps the cursor and selection on the board |
| Echecs.PasBien | arduino/Minitel1B_MiniChess_UI/MiniChess.cpp:108-147 | the selection keeps holding the player's piece; a move ends exactly on CR with a selection and the cursor elsewhere |
| Echecs.FlechesBord | arduino/Minitel1B_MiniChess_UI/MiniChess.cpp:273-313 | the arrows change nothing at the edge |
| Echecs.FlechesRetour | arduino/Minitel1B_MiniChess_UI/MiniChess.cpp:273-313 | an arrow and its opposite, away from the edge, bring the cursor back |
| Echecs.Annule | arduino/Minitel1B_MiniChess_UI/MiniChess.cpp:134-144 | CAN drops the selection and keeps the cursor |
| Echecs.Saisir | arduino/Minitel1B_MiniChess_UI/MiniChess.cpp:104-148 | the loop reads no more keys than the script holds |
| Echecs.SaisirCoup | arduino/Minitel1B_MiniChess_UI/MiniChess.cpp:104-148 | a move ends with the player's piece selected and the cursor on another square; no move means the script ran out |
| Echecs.SaisirPas | arduino/Minitel1B_MiniChess_UI/MiniChess.cpp:108-147 | one turn of the loop, k keys in |
| Echecs.RoqueRang | arduino/Minitel1B_MiniChess_UI/MiniChess.cpp:161-195 | the castling of one side keeps the board and the cursor well formed |
| Echecs.Roque | arduino/Minitel1B_MiniChess_UI/MiniChess.cpp:158-197 | castling for either colour keeps the board and cursor well formed |
| Echecs.Promotion | arduino/Minitel1B_MiniChess_UI/MiniChess.cpp:199-216 | promotion keeps the board well formed |
| Echecs.Jouer | arduino/Minitel1B_MiniChess_UI/MiniChess.cpp:152-219 | after a move the selection is dropped and the cursor is on the board |
| Echecs.Coup | arduino/Minitel1B_MiniChess_UI/MiniChess.cpp:152-219 | the intended `makeMove`: the selection is dropped |
| Echecs.CoupSimple | arduino/Minitel1B_MiniChess_UI/MiniChess.cpp:152-219 | with either castling test, a piece other than king or pawn moves as `drawMove` and the cursor stays on it |
| Echecs.PromotionNoire | arduino/Minitel1B_MiniChess_UI/MiniChess.cpp:200-206 | with either castling test, a black pawn reaching row 7 becomes a black queen; the origin is empty |
| Echecs.PromotionBlanche | arduino/Minitel1B_MiniChess_UI/MiniChess.cpp:208-215 | with either castling test, a white pawn reaching row 0 becomes a white queen; the origin is empty |
| Echecs.RoqueCourt | arduino/Minitel1B_MiniChess_UI/MiniChess.cpp:170-194 | when the castling test recognises the king (both colours in the intended `Coup`, black only as written), king (4,y) to (6,y) moves the rook (7,y) to (5,y); the cursor ends on the rook |
| Echecs.RoqueLong | arduino/Minitel1B_MiniChess_UI/MiniChess.cpp:161-187 | under the same condition, king (4,y) to (1,y) moves the rook (0,y) to (2,y); the cursor ends on the rook |
| Echecs.RoiEcritNoir | arduino/Minitel1B_MiniChess_UI/MiniChess.cpp:158 | the test as written passes only the black king; with PIECE_MASK both kings |
| Echecs.RoqueBlancEcrit | arduino/Minitel1B_MiniChess_UI/MiniChess.cpp:158-196 | as written, white castling leaves the rook in place; the intended move moves it |
| Echecs.MiniChess.constructor | arduino/Minitel1B_MiniChess_UI/MiniChess.h:67-78 | empty board, cursor (0,7), no selection, white to play |
| Echecs.MiniChess.Pose | arduino/Minitel1B_MiniChess_UI/MiniChess.cpp:439-440 | the board as `Ecrit` |
| Echecs.MiniChess.InitPiecesPosition | arduino/Minitel1B_MiniChess_UI/MiniChess.cpp:74-85 | every square holds its starting piece (Ouverture) |
| Echecs.MiniChess.PlaceNoirs | arduino/Minitel1B_MiniChess_UI/MiniChess.cpp:76-78 | rows 0 and 1 hold their starting pieces |
| Echecs.MiniChess.Vide | arduino/Minitel1B_MiniChess_UI/MiniChess.cpp:79-81 | rows 2..5 empty, rows 0 and 1 kept |
| Echecs.MiniChess.PlaceBlancs | arduino/Minitel1B_MiniChess_UI/MiniChess.cpp:82-84 | row 7 then row 6; every square then holds its starting piece |
| Echecs.MiniChess.PionsBlancs | arduino/Minitel1B_MiniChess_UI/MiniChess.cpp:84 | the white pawns complete the starting position |
| Echecs.MiniChess.GetMove | arduino/Minitel1B_MiniChess_UI/MiniChess.cpp:104-148 | cursor, selection and keys read as `Saisir` says (SaisirCoup); board and player unchanged |
| Echecs.MiniChess.GetKeyboardInput | arduino/Minitel1B_MiniChess_UI/MiniChess.cpp:237-269 | the next key, filtered by `Commande` |
| Echecs.MiniChess.Traite | arduino/Minitel1B_MiniChess_UI/MiniChess.cpp:111-146 | one key, as `Pas` |
| Echecs.MiniChess.MoveUp | arduino/Minitel1B_MiniChess_UI/MiniChess.cpp:273-280 | one row up unless on row 0 |
| Echecs.MiniChess.MoveDown | arduino/Minitel1B_MiniChess_UI/MiniChess.cpp:284-291 | one row down unless on row 7 |
| Echecs.MiniChess.MoveLeft | arduino/Minitel1B_MiniChess_UI/MiniChess.cpp:295-302 | one column left unless on column 0 |
| Echecs.MiniChess.MoveRight | arduino/Minitel1B_MiniChess_UI/MiniChess.cpp:306-313 | one column right unless on column 7 |
| Echecs.MiniChess.ValidateSelection | arduino/Minitel1B_MiniChess_UI/MiniChess.cpp:414-423 | selected exactly when the square holds a piece of the player's colour; otherwise unchanged |
| Echecs.MiniChess.ValidateMove | arduino/Minitel1B_MiniChess_UI/MiniChess.cpp:427-432 | valid exactly when the destination is not the selected square |
| Echecs.MiniChess.DrawMove | arduino/Minitel1B_MiniChess_UI/MiniChess.cpp:436-449 | the board as `Deplace` (DeplaceCases) |
| Echecs.MiniChess.MakeMove | arduino/Minitel1B_MiniChess_UI/MiniChess.cpp:152-219 | board and cursor as `Jouer` with the castling test as written, so only black castles; the player unchanged |
| Echecs.MiniChess.Roquer | arduino/Minitel1B_MiniChess_UI/MiniChess.cpp:159-197 | the board and cursor as `Roque` for the moved king's colour |
| Echecs.MiniChess.RoquerRang | arduino/Minitel1B_MiniChess_UI/MiniChess.cpp:161-195 | one side's castling, as `RoqueRang` |
| Echecs.MiniChess.DeplaceTour | arduino/Minitel1B_MiniChess_UI/MiniChess.cpp:166-168 | the rook's move, the cursor on its new square with the selection on its old one |
| Echecs.MiniChess.Promouvoir | arduino/Minitel1B_MiniChess_UI/MiniChess.cpp:199-216 | the board as `Promotion` |
| Echecs.MiniChess.ChangePlayer | arduino/Minitel1B_MiniChess_UI/MiniChess.cpp:223-229 | the player is `Adversaire` of the old one (AdversaireInvolutif) |

## Left out

- The serial port itself: UART timing, the one-second timeouts, the `ticks_ms` wait of `recevoir`, `close`, `deinit` and `envoyer_brut`. The line is a script of entries, and a timed-out read is an entry holding nothing.
- The `bloque`, `attente` and `nbytes` parameters of `recevoir`. A read takes at most one character, and whether one arrived in time is decided by the script entry.
- UTF-8 decoding of received bytes. The terminal sends 7-bit characters, so a read is one code.
- Sequences.Ascii: the fallback `caractere.encode('ascii', 'replace')` (Sequence.py:157) for a character in neither table is read as CPython does, giving '?' for a character past ASCII. MicroPython, which the driver runs on, ignores the codec and the error handler and returns the character's UTF-8 bytes: two to four codes of 0x80 or more for a character such as '€' or 'ñ'. The model does not capture those bytes.
- Sequences.UnicodeBorne: the 7-bit bound holds under the '?' reading of `Sequences.Ascii` only; on MicroPython a character outside both tables gives its two to four UTF-8 bytes.
- Sequences.TraduitBorne: the 7-bit bound and the three codes per character hold under the '?' reading of `Sequences.Ascii` only; on MicroPython a character outside both tables gives up to four codes, each 0x80 or more past ASCII.
- Pilote.OctetsTexte: holds under the '?' reading of `Sequences.Ascii` only; on MicroPython the UTF-8 bytes of a character outside both tables would each be sent again as two UTF-8 bytes.
- Threads and anything the docstrings mention about concurrency.
- The driver's other files: demos, fonts, image conversion and file loading are not part of this model.
- Containers nested in containers. An element is a plain UI element, a Label, a ChampTexte or a Menu.
- `UI.executer` for widgets other than a container. It is modelled only as `Conteneurs.Conteneur.Executer`.
- `UI.affiche`, `UI.gere_arrivee` and `UI.gere_depart` of the base class, which do nothing. They appear as the empty cases of `Conteneurs.Peinture`, `Conteneurs.Arrive` and `Conteneurs.Part`.
- MiniChess rendering: `initializeMinitel`, `drawChessBoard`, `drawAllPieces`, `drawPiece`, `erasePiece` and `markCase`. They only draw on the terminal. The board logic does not depend on them, and the `Serial.println` traces are left out too.
- Key codes of the Minitel1B_Hard library. MiniChess keys are a datatype whose codes belong to that library, which is not part of this model.
- Conteneurs.Conteneur.Executer: states only that the container stays valid and keeps its elements. It does not state which keys were handled; each turn is `Tour`, one `GereTouche` each. `executer` reads with `recevoir_sequence()`, blocking with no time-out, so its `assert sequence.longueur != 0` cannot fail there and the source loop never ends on a silent line: when the key script runs out (a None entry) the loop ends; the source would wait for more keys.
- Conteneurs.Conteneur.Tour: states only that a turn that goes on has used up input, not which key it handled.
- Conteneurs.Conteneur.Lire: states only that a key it returns is non-empty and uses up input, not which key. Which key is `Pilote.Minitel.RecevoirSequence`'s contract. Its None is the key script running out, where the source's blocking read would wait.
- Echecs.MiniChess.GetMove: when the key script runs out before a move is complete, it returns false. The sketch would wait for more keys.
- Menus.Menu.constructor: requires the initial selection to be one of the options. `Menu.__init__` accepts any value and fails only later, when the menu is drawn or an arrow is pressed.
- Pilote.Minitel.DefinirVitesse: an unknown speed raises `KeyError` in the source. It is modelled as the result None.
- Pilote.Minitel.RecevoirSequence: the failed `assert sequence.longueur != 0` is modelled as the result None. Every read is a scripted entry, None for nothing read: the model does not tell a blocking read from one with a time-out. A first read with a time-out that gets nothing is that failed assertion; a blocking read (the first one with no time-out, and those after SS2, SEP and the CSI codes) never gets nothing in the source, which waits, so there a None entry is the script running out.
- Sequences: `canonise` on a value of any other type fails an assertion in the source. The `Valeur` datatype has no such value.
- Pilote.Minitel.Identifier: the capacities are a value. In the source `self.capacite` is the module dictionary itself (`CAPACITES_BASIQUES` or an entry of `TYPE_MINITELS`), so the writes of `constructeur` and `version` change that shared dictionary, and a later identification, even a failed one, starts from the changed dictionary. That carry-over is not modelled; the contract describes a first identification.
- Conteneurs.Conteneur.Ajoute: requires the element to draw on the container's own terminal; `Conteneur.ajoute` does not check this, and an element on another terminal is not modelled. It also requires a framed menu wider than 40 columns not to have a '-' separator selected, because the menu's key handling is modelled only without that case (`Menus.Menu.GereTouche`). Any other menu is accepted, wide ones included.
- Conteneurs.Conteneur.Range: the same two requirements as `Ajoute`: the container's own terminal, and no separator selected in a framed menu wider than 40 columns.
- Menus.Menu.GereTouche: requires the selected line to be redrawable: in a framed menu wider than 40 columns it must not be a '-' separator. Such a selection can only be the initial one, since every move lands on an option. In the source, HAUT or BAS that finds an option there redraws the separator with `repeter` and fails its assertion after the line's first codes; that partial output and failure are not modelled.
- Menus.Menu.ChangeSelection: requires both the old and the new line to be redrawable, as `GereTouche`; a '-' separator in a framed menu wider than 40 columns makes `repeter` fail part-way, which is not modelled.
- Pilote.Minitel.Envoyer: the trace holds the code points written, not the bytes. The UTF-8 encoding is modelled separately (`Pilote.Utf8`, `Pilote.Octets`), and codes of 0x80 or more go out as two or more bytes. A negative code makes `chr` raise ValueError after the earlier codes were written; the method has no such failure.
- Pilote.Minitel.EnvoyerListe: as `Envoyer`, the trace holds code points before their UTF-8 encoding, and a negative code does not fail.
- Interface.UI.Efface: requires a width of at most 40 columns. `UI` accepts widths up to 80, and for a wider element `repeter` fails its assertion after the first cursor move; that partial output and failure are not modelled.
- Menus.Menu.Affiche: requires a framed menu's lines to be 1 to 40 columns wide. Wider lines, or only empty options, make `repeter` fail its assertion part-way through the drawing; that partial output and failure are not modelled.
- Conteneurs.Conteneur.Affiche: requires a width of at most 40 columns when the container has a background colour, and every framed menu in it to be 1 to 40 columns wide (`Conteneur.Affichables`), for the same `repeter` assertion; the partial output and failure of a wider background or menu are not modelled.
- Champs.ToucheVisible: keeps the cursor in the window for the field as written only for windows of two columns or more, and for ANNULATION only when the window starts at 0. The program does not keep it otherwise (Findings); the unconditional statement is about the corrected field.
- Champs.DroiteVisible: for the field as written, holds only for windows of two columns or more (Findings).
- Champs.ToucheBornee: for the field as written, bounds the growth to one character per key only; the bound by the total length holds for the corrected field (Findings).
- Echecs.RoqueCourt: castling happens only when the castling test recognises the king; as written that is the black king only (Findings).
- Echecs.RoqueLong: as `Echecs.RoqueCourt`, castling happens as written for the black king only.

## Findings

| source | as written | input that shows it | evidently intended | confidence | as-written member | corrected member |
|---|---|---|---|---|---|---|
| upython/uPyMinitel/uPyMinitel/minitel/Minitel.py:1143-1146 | `if jeu == 'GO'` with the letter O | `redefinir(c, d, 'G0')` ends with ESC 0x29 0x20 0x43, selecting G'1 | select the set just redefined, G'0 for 'G0' | high, not executed | Codage.SelectionJeuTelQuEcritFausse | Codage.SelectionJeuCorrecte |
| upython/uPyMinitel/uPyMinitel/minitel/Minitel.py:436-438 | `version_logiciel == ['4', '5', ';', '<']` compares a one-character string with a list | manufacturer 'C', version '5': never recorded as Telic or Matra | `version_logiciel in [...]` | high, not executed | Pilote.TelicTelQuEcritJamais | Pilote.TelicReconnu |
| upython/uPyMinitel/uPyMinitel/minitel/ui/ChampTexte.py:200-205 | new start `int(decalage + visible / 2)` | a 1-column field with "ab", cursor at 2: the start stays 0 and the cursor is two columns past the window | the window moves by at least one column | medium, not executed | Champs.DecaleTelQuEcritImmobile | Champs.DecaleSuitLeCurseur |
| upython/uPyMinitel/uPyMinitel/minitel/ui/ChampTexte.py:114-142 | no check of `longueur_totale` before inserting | field of total length 1 holding "a": typing 'b' gives "ab" | refuse a character when the field is full | medium, not executed | Champs.InsereTelQuEcritDeborde | Champs.ToucheBornee |
| upython/uPyMinitel/uPyMinitel/minitel/ui/ChampTexte.py:102-107 | ANNULATION resets the text and cursor but not `decalage` | 2-column field after "abc" (start 1): the cursor sits left of the window and a new character shows as ".." | reset the window start too | medium, not executed | Champs.AnnulationTelleQuEcriteCache | Champs.ToucheVisible |
| arduino/Minitel1B_MiniChess_UI/MiniChess.cpp:158 | `(b & 0b01111111) == KING` keeps the colour bit | white king (4,7) to (6,7): the rook stays on (7,7) | `(b & PIECE_MASK) == KING` | high, not executed | Echecs.RoqueBlancEcrit | Echecs.RoqueCourt |
