/**
 * The Minitel driver: a serial line to the terminal, the current mode and
 * speed, what is known of the terminal, and the commands that send escape
 * sequences or talk to the terminal with protocol requests.
 *
 * The line is modelled by two sequences.  `entree` is what the terminal
 * will send, one entry per read: a 7-bit character, or None when nothing
 * arrives within the read's wait.  `trace` is every code written so far.
 */
module Pilote {
  import opened Outils
  import opened Constantes
  import opened Sequences
  import opened Codage

  type Entree = seq<Option<Octet7>>

  // ---------------------------------------------------------------------
  // Reading the line

  /** What one read returns. */
  function Tete(e: Entree): Option<Octet7>
  {
    if e == [] then None else e[0]
  }

  /** The line after one read. */
  function Queue(e: Entree): (r: Entree)
    ensures |r| == if e == [] then 0 else |e| - 1
  {
    if e == [] then [] else e[1..]
  }

  /** The text one read returns: one character, or '' when nothing arrived. */
  function TexteLu(c: Option<Octet7>): string
  {
    if c.Some? then [c.value as char] else ""
  }

  /** Python's `chr` on a code read from the line, which is always a 7-bit character. */
  function Car(c: int): char
  {
    if 0 <= c < 0x80 then c as char else 0 as char
  }

  /** The codes a read adds to a Sequence. */
  function Lu(c: Option<Octet7>): (r: seq<int>)
    ensures |r| <= 1 && (c.Some? <==> |r| == 1)
  {
    if c.Some? then [c.value] else []
  }

  /** Adding what was read to a Sequence adds its code, or nothing for ''. */
  lemma AjoutLu(c: Option<Octet7>)
    ensures Canonise(Videotex, Chaine(TexteLu(c))) == Lu(c)
  {
    if c.Some? {
      TraduitAscii(Videotex, [c.value as char]);
    }
  }

  /** The line after n reads: reading past its end leaves it empty. */
  function Saute(e: Entree, n: nat): Entree
  {
    if n <= |e| then e[n..] else []
  }

  /** What read number k (from 0) returns. */
  function Ieme(e: Entree, k: nat): Option<Octet7>
  {
    if k < |e| then e[k] else None
  }

  /** Reading once more after n reads is read number n, and leaves the line after n + 1 reads. */
  lemma SauteEncore(e: Entree, n: nat)
    ensures Tete(Saute(e, n)) == Ieme(e, n) && Queue(Saute(e, n)) == Saute(e, n + 1)
  {
  }

  /** The codes collected by n reads, an empty read adding nothing. */
  function Collecte(e: Entree, n: nat): (r: seq<int>)
    ensures |r| <= n
  {
    if n == 0 then [] else Collecte(e, n - 1) + Lu(Ieme(e, n - 1))
  }

  /** When the terminal answers every one of the n reads, all n characters are collected. */
  lemma {:induction false} CollecteComplete(e: Entree, n: nat)
    requires n <= |e| && forall i | 0 <= i < n :: e[i].Some?
    ensures |Collecte(e, n)| == n
    ensures forall i | 0 <= i < n :: Collecte(e, n)[i] == e[i].value
  {
    if n > 0 {
      CollecteComplete(e, n - 1);
    }
  }

  /** A read that gets nothing makes the reply shorter than the number of reads. */
  lemma {:induction false} CollecteIncomplete(e: Entree, n: nat, k: nat)
    requires k < n && (k >= |e| || e[k].None?)
    ensures |Collecte(e, n)| < n
  {
    if n - 1 != k {
      CollecteIncomplete(e, n - 1, k);
    }
  }

  /** A framed sequence read from the line, and the line after it. */
  datatype Lecture = Lecture(sequence: Option<seq<int>>, reste: Entree)

  /**
   * The framing of `recevoir_sequence`: a first character (nothing read is
   * an error); after SS2 or SEP one more; after ESC one more within a short
   * wait, and if that makes CSI one more, and if that is 0x32 or 0x34 one more.
   */
  function Trame(e: Entree): (r: Lecture)
    ensures r.sequence.Some? ==> 1 <= |r.sequence.value| <= 4
    ensures r.sequence.None? <==> Tete(e).None?
  {
    var a := Tete(e);
    var e1 := Queue(e);
    if a.None? then Lecture(None, e1)
    else if a.value == SS2 || a.value == SEP then
      Lecture(Some([a.value] + Lu(Tete(e1))), Queue(e1))
    else if a.value == ESC then
      var b := Tete(e1);
      var e2 := Queue(e1);
      if b.None? then Lecture(Some([ESC]), e2)
      else if [ESC, b.value] == CSI then
        var c := Tete(e2);
        var e3 := Queue(e2);
        if c.Some? && (c.value == 0x32 || c.value == 0x34) then
          Lecture(Some(CSI + [c.value] + Lu(Tete(e3))), Queue(e3))
        else Lecture(Some(CSI + Lu(c)), e3)
      else Lecture(Some([ESC, b.value]), e2)
    else Lecture(Some([a.value]), e1)
  }

  /** A read that yields a key consumes at least one entry of the line, and no read adds any. */
  lemma TrameAvance(e: Entree)
    ensures |Trame(e).reste| <= |e|
    ensures Trame(e).sequence.Some? ==> |Trame(e).reste| < |e|
  {
  }

  /** The line entries that send the codes of a key, one character per read. */
  function Frappe(codes: seq<int>): (r: Entree)
    requires forall i | 0 <= i < |codes| :: 0 <= codes[i] < 0x80
    ensures |r| == |codes| && forall i | 0 <= i < |codes| :: r[i].Some? && r[i].value == codes[i]
  {
    if codes == [] then [] else [Some(codes[0] as Octet7)] + Frappe(codes[1..])
  }

  /** A code sequence of one of the three key shapes is framed exactly: its codes, and nothing after them. */
  lemma FormeTramee(k: seq<int>, suite: Entree)
    requires FormeDeTouche(k) && forall j | 0 <= j < |k| :: 0 <= k[j] < 0x80
    ensures Trame(Frappe(k) + suite) == Lecture(Some(k), suite)
  {
    var e := Frappe(k) + suite;
    assert Tete(e) == Some(k[0]) && Queue(e) == e[1..];
    assert Tete(e[1..]) == Some(k[1]) && Queue(e[1..]) == e[2..];
    if |k| == 2 {
      assert e[2..] == suite;
      assert k == [k[0]] + [k[1]];
    } else {
      assert k[0] == ESC && [ESC, k[1]] == CSI;
      TrameCSI(k, e, suite);
    }
  }

  /** The tail of the framing of a CSI key: its third code, and its fourth after 0x32 or 0x34. */
  lemma TrameCSI(k: seq<int>, e: Entree, suite: Entree)
    requires 3 <= |k| <= 4 && k[..2] == CSI && (|k| == 4 <==> k[2] in {0x32, 0x34})
    requires forall j | 0 <= j < |k| :: 0 <= k[j] < 0x80
    requires e == Frappe(k) + suite
    ensures Trame(e) == Lecture(Some(k), suite)
  {
    assert Tete(e) == Some(ESC) && Queue(e) == e[1..];
    assert Tete(e[1..]) == Some(k[1]) && Queue(e[1..]) == e[2..];
    assert Tete(e[2..]) == Some(k[2]) && Queue(e[2..]) == e[3..];
    if |k| == 3 {
      assert e[3..] == suite;
      assert k == CSI + [k[2]];
    } else {
      assert Tete(e[3..]) == Some(k[3]) && Queue(e[3..]) == suite;
      assert k == CSI + [k[2]] + [k[3]];
    }
  }

  /** Every key of the keyboard is framed exactly: its codes, and nothing after them. */
  lemma ToucheTramee(i: int, suite: Entree)
    requires 0 <= i < |TOUCHES|
    ensures forall j | 0 <= j < |TOUCHES[i]| :: 0 <= TOUCHES[i][j] < 0x80
    ensures Trame(Frappe(TOUCHES[i]) + suite) == Lecture(Some(TOUCHES[i]), suite)
  {
    ClesLongues();
    FormeTramee(TOUCHES[i], suite);
  }

  /**
   * A sequence starting with SS2 is never longer than two codes, so the
   * three-code sequence for a cedilla followed by c is never framed.
   */
  lemma CedilleNonTramee(e: Entree)
    ensures Trame(e).sequence != Some(ACCENT_CEDILLE + ['c' as int])
  {
    var a := Tete(e);
    if a.Some? && a.value == SS2 {
      assert |Trame(e).sequence.value| <= 2;
    } else if a.Some? && a.value == ESC {
      assert Trame(e).sequence.value[0] == ESC;
    }
  }

  /** The commands acknowledged by the terminal, and what they expect back. */
  datatype Attendu = Exactement(codes: seq<int>) | Longueur(n: nat)

  /** One protocol call: the command, the number of reads for the reply, the expected reply. */
  datatype Etape = Etape(commande: seq<int>, attente: nat, attendu: Attendu)

  predicate Conforme(reponse: seq<int>, attendu: Attendu)
  {
    match attendu
    case Exactement(codes) => reponse == codes
    case Longueur(n) => |reponse| == n
  }

  /** The outcome of a run of calls: success, codes sent, line left. */
  datatype Bilan = Bilan(ok: bool, envoye: seq<int>, reste: Entree)

  /** Calls in order, stopping at the first reply that is not the expected one. */
  function Dialogue(etapes: seq<Etape>, e: Entree): (r: Bilan)
  {
    if etapes == [] then Bilan(true, [], e)
    else
      var t := etapes[0];
      var reponse := Collecte(e, t.attente);
      var suite := Saute(e, t.attente);
      if Conforme(reponse, t.attendu) then
        var b := Dialogue(etapes[1..], suite);
        Bilan(b.ok, t.commande + b.envoye, b.reste)
      else Bilan(false, t.commande, suite)
  }

  /** All the commands of a run of calls. */
  function Commandes(etapes: seq<Etape>): seq<int>
  {
    if etapes == [] then [] else etapes[0].commande + Commandes(etapes[1..])
  }

  /** A run of calls succeeds when the first call succeeds and the rest succeeds after it. */
  lemma {:induction false} DialogueConcat(a: seq<Etape>, b: seq<Etape>, e: Entree)
    ensures var da := Dialogue(a, e);
      Dialogue(a + b, e) ==
        if da.ok then
          var db := Dialogue(b, da.reste); Bilan(db.ok, da.envoye + db.envoye, db.reste)
        else da
  {
    if a == [] {
      assert a + b == b;
    } else {
      var t := a[0];
      var suite := Saute(e, t.attente);
      assert (a + b)[0] == t;
      assert (a + b)[1..] == a[1..] + b;
      DialogueConcat(a[1..], b, suite);
      if Conforme(Collecte(e, t.attente), t.attendu) {
        var da := Dialogue(a[1..], suite);
        if da.ok {
          Associe(t.commande, da.envoye, Dialogue(b, da.reste).envoye);
        }
      }
    }
  }

  /** Whatever the replies, the codes sent are the commands of the calls made, in order. */
  lemma {:induction false} DialoguePrefixe(etapes: seq<Etape>, e: Entree)
    ensures Dialogue(etapes, e).envoye <= Commandes(etapes)
    ensures Dialogue(etapes, e).ok ==> Dialogue(etapes, e).envoye == Commandes(etapes)
    ensures etapes != [] ==> etapes[0].commande <= Dialogue(etapes, e).envoye
  {
    if etapes != [] {
      DialoguePrefixe(etapes[1..], Saute(e, etapes[0].attente));
    }
  }

  // ---------------------------------------------------------------------
  // Modes

  /** The mode named by the argument of `definir_mode`, if it is one. */
  function ModeNomme(nom: string): (r: Option<Mode>)
    ensures r.Some? <==> nom in {"VIDEOTEX", "MIXTE", "TELEINFORMATIQUE"}
  {
    if nom == "VIDEOTEX" then Some(Videotex)
    else if nom == "MIXTE" then Some(Mixte)
    else if nom == "TELEINFORMATIQUE" then Some(Teleinformatique)
    else None
  }

  const VERS_VIDEOTEX := Etape(CSI + [0x3f, 0x7b], 2, Exactement([SEP, 0x5e]))
  const VERS_MIXTE := Etape(PRO2 + MIXTE1, 2, Exactement([SEP, 0x70]))
  const MIXTE_VERS_VIDEOTEX := Etape(PRO2 + MIXTE2, 2, Exactement([SEP, 0x71]))
  const VERS_TELEINFORMATIQUE := Etape(PRO2 + TELINFO, 4, Exactement(CSI + [0x3f, 0x7a]))

  /** The calls that take the terminal from one mode to another. */
  function Etapes(depart: Mode, arrivee: Mode): (r: seq<Etape>)
    ensures r == [] <==> depart == arrivee
    ensures |r| <= 2
  {
    match (depart, arrivee)
    case (Teleinformatique, Videotex) => [VERS_VIDEOTEX]
    case (Teleinformatique, Mixte) => [VERS_VIDEOTEX, VERS_MIXTE]
    case (Videotex, Mixte) => [VERS_MIXTE]
    case (Videotex, Teleinformatique) => [VERS_TELEINFORMATIQUE]
    case (Mixte, Videotex) => [MIXTE_VERS_VIDEOTEX]
    case (Mixte, Teleinformatique) => [VERS_TELEINFORMATIQUE]
    case _ => []
  }

  /**
   * Leaving TELEINFORMATIQUE for MIXTE goes through VIDEOTEX, and no other
   * change passes through an intermediate mode.
   */
  lemma EtapesTransit()
    ensures Etapes(Teleinformatique, Mixte) ==
            Etapes(Teleinformatique, Videotex) + Etapes(Videotex, Mixte)
    ensures forall d: Mode, a: Mode | (d, a) != (Teleinformatique, Mixte) :: |Etapes(d, a)| <= 1
  {
  }

  /** The mode `identifier` reads from the operating status reply. */
  function ModeDepuisStatut(reponse: seq<int>): (r: Mode)
    ensures |reponse| != LONGUEUR_PRO2 <==> r == Teleinformatique
  {
    if |reponse| != LONGUEUR_PRO2 then Teleinformatique
    else if reponse[3] % 2 == 1 then Mixte   // bit 0 of the status byte
    else Videotex
  }

  // ---------------------------------------------------------------------
  // Identification

  /** The identification request and the operating status request. */
  const DEMANDE_ROM: seq<int> := PRO1 + [ENQROM]
  const DEMANDE_STATUT: seq<int> := PRO1 + [STATUS_FONCTIONNEMENT]

  /** An identification reply: SOH, manufacturer, type, version, EOT. */
  predicate EnqRomValide(reponse: seq<int>)
  {
    |reponse| == 5 && reponse[0] == SOH && reponse[4] == EOT
  }

  /**
   * The software-version test of `identifier` as written: a one-character
   * string compared with a list of four strings, which Python never finds equal.
   */
  predicate VersionTelicTelQuEcrite(version: char)
  {
    Chaine([version]) == Liste([Chaine("4"), Chaine("5"), Chaine(";"), Chaine("<")])
  }

  /** The test as intended: the version is one of the four listed characters. */
  predicate VersionTelic(version: char)
  {
    version in ['4', '5', ';', '<']
  }

  /**
   * The capacities `identifier` records for a manufacturer, a type and a
   * version: the type's record (the default one for an unknown type), with
   * the manufacturer's name when it is known, the version, and the two
   * special cases (a Philips Minitel 2, a Telic or Matra terminal).
   */
  function Fiche(constructeur: char, modele: char, version: char, telic: bool): Capacite
  {
    var base := if modele in TYPE_MINITELS then TYPE_MINITELS[modele] else CAPACITES_BASIQUES;
    var nomme :=
      if constructeur in CONSTRUCTEURS then base.(constructeur := Some(CONSTRUCTEURS[constructeur]))
      else base;
    var versionne := nomme.(version := Some(version));
    if constructeur == 'B' && modele == 'v' then versionne.(constructeur := Some("Philips"))
    else if constructeur == 'C' && telic then versionne.(constructeur := Some("Telic ou Matra"))
    else versionne
  }

  /** As written, no terminal is ever recorded as a Telic or Matra one. */
  lemma TelicTelQuEcritJamais(constructeur: char, modele: char, version: char)
    ensures !VersionTelicTelQuEcrite(version)
    ensures Fiche(constructeur, modele, version, VersionTelicTelQuEcrite(version)).constructeur
            != Some("Telic ou Matra")
  {
  }

  /** With the intended test, a terminal from manufacturer C with one of the four versions is. */
  lemma TelicReconnu(modele: char, version: char)
    requires VersionTelic(version)
    ensures Fiche('C', modele, version, VersionTelic(version)).constructeur == Some("Telic ou Matra")
    ensures Fiche('C', modele, version, VersionTelic(version)).version == Some(version)
  {
  }

  /**
   * What an identification records: the type's name, keyboard, speed and
   * features are always the table's; the version is the reply's.
   */
  lemma FicheDuType(constructeur: char, modele: char, version: char, telic: bool)
    requires modele in TYPE_MINITELS
    ensures var f := Fiche(constructeur, modele, version, telic);
      f.nom == TYPE_MINITELS[modele].nom && f.vitesse == TYPE_MINITELS[modele].vitesse &&
      f.clavier == TYPE_MINITELS[modele].clavier &&
      f.colonnes80 == TYPE_MINITELS[modele].colonnes80 &&
      f.caracteres == TYPE_MINITELS[modele].caracteres && f.version == Some(version)
    ensures constructeur in CONSTRUCTEURS && constructeur != 'B' && constructeur != 'C' ==>
      Fiche(constructeur, modele, version, telic).constructeur == Some(CONSTRUCTEURS[constructeur])
  {
  }

  // ---------------------------------------------------------------------
  // Speeds

  const VITESSES: seq<int> := [9600, 4800, 1200, 300]

  /** The speed codes of the programming command. */
  const CODES_VITESSE: map<int, int> := map[300 := B300, 1200 := B1200, 4800 := B4800, 9600 := B9600]

  const DEMANDE_TERMINAL := Etape(PRO1 + [STATUS_TERMINAL], LONGUEUR_PRO2, Longueur(LONGUEUR_PRO2))

  /** The two ways of probing a speed: a terminal status request, or a switch to VIDEOTEX. */
  datatype Sonde = StatutTerminal | RetourVideotex

  function Sondage(s: Sonde): Etape
  {
    match s
    case StatutTerminal => DEMANDE_TERMINAL
    case RetourVideotex => VERS_VIDEOTEX
  }

  /** Whether the reply to a probe shows that the terminal listens at this speed. */
  predicate Repond(s: Sonde, reponse: seq<int>)
  {
    match s
    case StatutTerminal => |reponse| == LONGUEUR_PRO2 && reponse[2] == REP_STATUS_TERMINAL
    case RetourVideotex => reponse == [SEP, 0x5e]
  }

  /** The outcome of trying speeds in turn: the speed found, codes sent, line left, last port speed. */
  datatype Recherche = Recherche(trouvee: Option<int>, envoye: seq<int>, reste: Entree, debit: int)

  /** Tries the speeds in order, the port set to each in turn, until the probe is answered. */
  function Balayage(e: Entree, vitesses: seq<int>, s: Sonde, debit: int): (r: Recherche)
    decreases |vitesses|
  {
    if vitesses == [] then Recherche(None, [], e, debit)
    else
      var t := Sondage(s);
      var reponse := Collecte(e, t.attente);
      var suite := Saute(e, t.attente);
      if Repond(s, reponse) then Recherche(Some(vitesses[0]), t.commande, suite, vitesses[0])
      else
        var r := Balayage(suite, vitesses[1..], s, vitesses[0]);
        Recherche(r.trouvee, t.commande + r.envoye, r.reste, r.debit)
  }

  /**
   * A speed found is one of the speeds tried, and the port is left at it;
   * when none is found the port is left at the last speed tried.
   */
  lemma {:induction false} BalayageIssue(e: Entree, vitesses: seq<int>, s: Sonde, debit: int)
    ensures var r := Balayage(e, vitesses, s, debit);
      (r.trouvee.Some? ==> r.trouvee.value in vitesses && r.debit == r.trouvee.value) &&
      (r.trouvee.None? ==> r.debit == if vitesses == [] then debit else vitesses[|vitesses| - 1])
    decreases |vitesses|
  {
    if vitesses != [] {
      var t := Sondage(s);
      BalayageEtape(e, vitesses, s, debit);
      BalayageIssue(Saute(e, t.attente), vitesses[1..], s, vitesses[0]);
      if |vitesses| > 1 {
        assert vitesses[1..][|vitesses| - 2] == vitesses[|vitesses| - 1];
      }
    }
  }

  /** One step of the search: an answered probe ends it, otherwise it goes on with the next speed. */
  lemma BalayageEtape(e: Entree, vitesses: seq<int>, s: Sonde, debit: int)
    requires vitesses != []
    ensures var t := Sondage(s);
      var r := Balayage(e, vitesses, s, debit);
      var q := Balayage(Saute(e, t.attente), vitesses[1..], s, vitesses[0]);
      if Repond(s, Collecte(e, t.attente)) then
        r == Recherche(Some(vitesses[0]), t.commande, Saute(e, t.attente), vitesses[0])
      else
        r.trouvee == q.trouvee && r.envoye == t.commande + q.envoye && r.reste == q.reste && r.debit == q.debit
  {
  }

  /** The search stops at the first speed whose probe is answered. */
  lemma BalayagePremier(e: Entree, vitesses: seq<int>, s: Sonde, debit: int)
    requires vitesses != []
    requires Repond(s, Collecte(e, Sondage(s).attente))
    ensures Balayage(e, vitesses, s, debit).trouvee == Some(vitesses[0])
    ensures Balayage(e, vitesses, s, debit).envoye == Sondage(s).commande
  {
  }

  /** A line on which nothing arrives for n reads. */
  function Silence(n: nat): (r: Entree)
    ensures |r| == n && forall i | 0 <= i < n :: r[i].None?
  {
    if n == 0 then [] else [None] + Silence(n - 1)
  }

  /** Reading a silent line collects nothing and leaves a shorter silent line. */
  lemma {:induction false} CollecteMuette(n: nat, k: nat)
    ensures Collecte(Silence(n), k) == []
    ensures Saute(Silence(n), k) == Silence(if n >= k then n - k else 0)
  {
    if k > 0 {
      CollecteMuette(n, k - 1);
      var m := if n >= k - 1 then n - (k - 1) else 0;
      if m > 0 {
        assert Silence(m)[1..] == Silence(m - 1);
      }
    }
  }

  /** A terminal that never answers makes every speed be tried and none be found. */
  lemma {:induction false} BalayageMuet(vitesses: seq<int>, s: Sonde, debit: int, n: nat)
    ensures var r := Balayage(Silence(n), vitesses, s, debit);
      r.trouvee.None? && |r.envoye| == |vitesses| * |Sondage(s).commande|
    decreases |vitesses|
  {
    if vitesses != [] {
      var t := Sondage(s);
      var m := if n >= t.attente then n - t.attente else 0;
      CollecteMuette(n, t.attente);
      assert !Repond(s, []);
      BalayageMuet(vitesses[1..], s, vitesses[0], m);
      var r := Balayage(Silence(m), vitesses[1..], s, vitesses[0]);
      assert |Balayage(Silence(n), vitesses, s, debit).envoye| == |t.commande| + |r.envoye|;
      assert |r.envoye| == (|vitesses| - 1) * |t.commande|;
    }
  }

  /** Appending four pieces one after another appends their concatenation. */
  lemma Regroupe(t: seq<int>, a: seq<int>, b: seq<int>, c: seq<int>, d: seq<int>)
    ensures t + a + b + c + d == t + (a + b + c + d)
  {
  }

  /** The list naming the first character to redefine is sent as US, 0x23, the character's codes, 0x30. */
  lemma PremierCaractere(depuis: char)
    ensures Canonise(Videotex, Liste([Entier(US), Entier(0x23), Chaine([depuis]), Entier(0x30)])) ==
            [US, 0x23] + UnicodeVersMinitel(Videotex, depuis) + [0x30]
  {
    var l := [Entier(US), Entier(0x23), Chaine([depuis]), Entier(0x30)];
    var c := UnicodeVersMinitel(Videotex, depuis);
    assert Traduit(Videotex, [depuis]) == c + Traduit(Videotex, [depuis][1..]);
    assert [depuis][1..] == [];
    assert l[1..][1..][1..][1..] == [];
    assert CanoniseListe(Videotex, l[1..][1..][1..]) == [0x30];
    assert Element(Videotex, l[1..][1..][0]) == c;
    assert CanoniseListe(Videotex, l[1..][1..]) == c + [0x30];
    assert CanoniseListe(Videotex, l[1..]) == [0x23] + (c + [0x30]);
    assert CanoniseListe(Videotex, l) == [US] + ([0x23] + (c + [0x30]));
  }

  /** One more character of the drawings adds itself to the pixels if it is one, and nothing otherwise. */
  lemma PixelSuivant(dessins: string, i: nat)
    requires i < |dessins|
    ensures Pixels(dessins[..i + 1]) ==
      if EstPixel(dessins[i]) then Pixels(dessins[..i]) + [dessins[i]] else Pixels(dessins[..i])
  {
    var x := dessins[i];
    assert dessins[..i + 1] == dessins[..i] + [x];
    PixelsConcat(dessins[..i], [x]);
    assert [x][1..] == [];
    assert Pixels(dessins[..i]) + [] == Pixels(dessins[..i]);
  }

  // ---------------------------------------------------------------------
  // The bytes on the line

  /**
   * The bytes `envoyer` writes for one code, `chr(valeur).encode()`: the
   * UTF-8 form of the code point (MicroPython encodes the surrogates too);
   * None where `chr` raises ValueError, for a negative code or one past
   * 0x10FFFF.
   */
  function Utf8(c: int): (r: Option<seq<int>>)
    ensures r.Some? <==> 0 <= c <= 0x10FFFF
  {
    if c < 0 || c > 0x10FFFF then None
    else if c < 0x80 then Some([c])
    else if c < 0x800 then Some([0xC0 + c / 0x40, 0x80 + c % 0x40])
    else if c < 0x10000 then Some([0xE0 + c / 0x1000, 0x80 + c / 0x40 % 0x40, 0x80 + c % 0x40])
    else Some([0xF0 + c / 0x40000, 0x80 + c / 0x1000 % 0x40, 0x80 + c / 0x40 % 0x40, 0x80 + c % 0x40])
  }

  /** The code point a well-formed UTF-8 byte group stands for. */
  function Utf8Lu(b: seq<int>): int
    requires 1 <= |b| <= 4
  {
    if |b| == 1 then b[0]
    else if |b| == 2 then (b[0] - 0xC0) * 0x40 + (b[1] - 0x80)
    else if |b| == 3 then (b[0] - 0xE0) * 0x1000 + (b[1] - 0x80) * 0x40 + (b[2] - 0x80)
    else (b[0] - 0xF0) * 0x40000 + (b[1] - 0x80) * 0x1000 + (b[2] - 0x80) * 0x40 + (b[3] - 0x80)
  }

  /**
   * Every code `chr` accepts goes out as one to four bytes: the first gives
   * the length, the others are continuation bytes, and the group reads back
   * as the code.
   */
  lemma Utf8AllerRetour(c: int)
    requires 0 <= c <= 0x10FFFF
    ensures var b := Utf8(c).value;
      1 <= |b| <= 4 && Utf8Lu(b) == c &&
      (forall i | 0 <= i < |b| :: 0 <= b[i] < 0x100) &&
      (forall i | 1 <= i < |b| :: 0x80 <= b[i] < 0xC0) &&
      (|b| == 1 <==> b[0] < 0x80) && (|b| == 2 <==> 0xC0 <= b[0] < 0xE0) &&
      (|b| == 3 <==> 0xE0 <= b[0] < 0xF0) && (|b| == 4 <==> 0xF0 <= b[0] < 0xF8)
  {
    if 0x80 <= c < 0x800 {
      assert c == c / 0x40 * 0x40 + c % 0x40;
    } else if 0x800 <= c < 0x10000 {
      assert c / 0x40 == c / 0x1000 * 0x40 + c / 0x40 % 0x40;
      assert c == c / 0x40 * 0x40 + c % 0x40;
    } else if 0x10000 <= c {
      assert c / 0x1000 == c / 0x40000 * 0x40 + c / 0x1000 % 0x40;
      assert c / 0x40 == c / 0x1000 * 0x40 + c / 0x40 % 0x40;
      assert c == c / 0x40 * 0x40 + c % 0x40;
      assert c / 0x40 / 0x40 == c / 0x1000;
      assert c / 0x1000 / 0x40 == c / 0x40000;
    }
  }

  /** The bytes `envoyer` writes for a list of codes, in order; None when one of them makes `chr` raise. */
  function Octets(codes: seq<int>): (r: Option<seq<int>>)
    ensures r.Some? <==> forall i | 0 <= i < |codes| :: 0 <= codes[i] <= 0x10FFFF
  {
    if codes == [] then Some([])
    else
      var t := Octets(codes[1..]);
      if Utf8(codes[0]).None? || t.None? then None
      else Some(Utf8(codes[0]).value + t.value)
  }

  /** Codes of seven bits go out unchanged, one byte each. */
  lemma {:induction false} OctetsAscii(codes: seq<int>)
    requires forall i | 0 <= i < |codes| :: 0 <= codes[i] < 0x80
    ensures Octets(codes) == Some(codes)
  {
    if codes != [] {
      OctetsAscii(codes[1..]);
      assert codes == [codes[0]] + codes[1..];
    }
  }

  /**
   * A string goes out as its translated codes, unchanged, whatever the
   * mode: under the '?' fallback of `Ascii` they are all 7-bit.
   */
  lemma OctetsTexte(standard: Mode, s: string)
    ensures Octets(Canonise(standard, Chaine(s))) == Some(Traduit(standard, s))
  {
    TraduitBorne(standard, s);
    OctetsAscii(Traduit(standard, s));
  }

  /** A position past column 63 has a column code of 0x80 or more, which goes out as two bytes. */
  lemma PositionLointaine()
    ensures Emplacement(70, 5) == [US, 0x45, 0x86]
    ensures Octets(Emplacement(70, 5)) == Some([0x1F, 0x45, 0xC2, 0x86])
  {
    var c: seq<int> := [0x86];
    assert c[1..] == [] && Utf8(0x86) == Some([0xC2, 0x86]);
    assert Octets(c[1..]) == Some([]) && [0xC2, 0x86] + [] == [0xC2, 0x86];
    var l: seq<int> := [0x45, 0x86];
    assert l[1..] == c && Utf8(0x45) == Some([0x45]);
    assert [0x45] + [0xC2, 0x86] == [0x45, 0xC2, 0x86];
    var e: seq<int> := [US, 0x45, 0x86];
    assert e[1..] == l && Utf8(US) == Some([0x1F]);
    assert [0x1F] + [0x45, 0xC2, 0x86] == [0x1F, 0x45, 0xC2, 0x86];
  }

  // ---------------------------------------------------------------------
  // The driver

  /** The speeds the driver can program, and the calls of `configurer_clavier`. */
  function Bascule2(actif: bool): int
  {
    if actif then START else STOP
  }

  function EtapesClavier(etendu: bool, curseur: bool, minuscule: bool): (r: seq<Etape>)
    ensures |r| == 3
  {
    [Etape(PRO3 + [Bascule2(etendu), RCPT_CLAVIER, ETEN], LONGUEUR_PRO3, Longueur(LONGUEUR_PRO3)),
     Etape(PRO3 + [Bascule2(curseur), RCPT_CLAVIER, C0], LONGUEUR_PRO3, Longueur(LONGUEUR_PRO3)),
     Etape(PRO2 + [Bascule2(minuscule), MINUSCULES], LONGUEUR_PRO2, Longueur(LONGUEUR_PRO2))]
  }

  function EchoCommande(actif: bool): seq<int>
  {
    PRO3 + [if actif then AIGUILLAGE_ON else AIGUILLAGE_OFF, RCPT_MODEM, EMET_CLAVIER]
  }

  class Minitel {
    var mode: Mode
    var vitesse: int
    var capacite: Capacite
    /** The speed the serial port is opened at. */
    var debit: int
    /** The script of what the terminal sends: one entry per read. */
    var entree: Entree
    /** The codes written, in order, before their UTF-8 encoding: the bytes on the line are `Octets(trace)`. */
    var trace: seq<int>

    /** The recorded speed and the port speed are always ones the terminal supports. */
    ghost predicate Valid()
      reads this
    {
      vitesse in CODES_VITESSE && debit in CODES_VITESSE
    }

    /** A new driver assumes the terminal's power-on state: VIDEOTEX at 1200 bps, basic capacities. */
    constructor (entree: Entree)
      ensures Valid()
      ensures mode == Videotex && vitesse == 1200 && debit == 1200 && capacite == CAPACITES_BASIQUES
      ensures this.entree == entree && trace == []
    {
      mode := Videotex;
      vitesse := 1200;
      capacite := CAPACITES_BASIQUES;
      debit := 1200;
      this.entree := entree;
      trace := [];
    }

    /** Sends a value: it is made into a Sequence, whose codes are written one by one, each as its `Utf8` bytes. */
    method Envoyer(contenu: Sequences.Valeur)
      modifies this`trace
      ensures trace == old(trace) + Canonise(Videotex, contenu)
    {
      var sequence := new Sequence(Some(contenu), Videotex);
      var valeurs := sequence.valeurs;
      for i := 0 to |valeurs|
        invariant trace == old(trace) + valeurs[..i]
      {
        trace := trace + [valeurs[i]];
      }
      assert valeurs[..|valeurs|] == valeurs;
    }

    /** Sends a list of integer codes. */
    method EnvoyerListe(codes: seq<int>)
      modifies this`trace
      ensures trace == old(trace) + codes
    {
      CanoniseEntiers(Videotex, codes);
      Envoyer(Liste(Entiers(codes)));
    }

    /** Reads one character: the empty string when nothing arrives. */
    method Recevoir() returns (caractere: string)
      modifies this`entree
      ensures caractere == TexteLu(Tete(old(entree))) && entree == Queue(old(entree))
    {
      caractere := "";
      if entree != [] {
        if entree[0].Some? {
          caractere := [entree[0].value as char];
        }
        entree := entree[1..];
      }
    }

    /**
     * Reads one whole key or acknowledgement.  None is a first read that
     * gets nothing: the source's failed assertion after a time-out, or the
     * script running out where the source would wait.
     */
    method RecevoirSequence() returns (r: Option<seq<int>>)
      modifies this`entree
      ensures r == Trame(old(entree)).sequence && entree == Trame(old(entree)).reste
    {
      ghost var e0 := entree;
      var sequence := new Sequence(None, Videotex);
      var c := Recevoir();
      AjoutLu(Tete(e0));
      sequence.Ajoute(Chaine(c));
      assert sequence.valeurs == Lu(Tete(e0));
      if sequence.longueur == 0 {
        return None;
      }
      var premier := sequence.valeurs[0];
      assert Tete(e0) == Some(premier as Octet7);
      ghost var e1 := entree;
      if premier == SS2 || premier == SEP {
        c := Recevoir();
        AjoutLu(Tete(e1));
        sequence.Ajoute(Chaine(c));
      } else if premier == ESC {
        c := Recevoir();
        if c == "" {
          assert Tete(e1).None?;
          return Some(sequence.valeurs);
        }
        assert Tete(e1).Some?;
        AjoutLu(Tete(e1));
        sequence.Ajoute(Chaine(c));
        assert sequence.valeurs == [ESC, Tete(e1).value];
        if sequence.valeurs == CSI {
          ghost var e2 := entree;
          c := Recevoir();
          AjoutLu(Tete(e2));
          sequence.Ajoute(Chaine(c));
          assert sequence.valeurs == CSI + Lu(Tete(e2));
          var dernier := sequence.valeurs[|sequence.valeurs| - 1];
          if dernier == 0x32 || dernier == 0x34 {
            assert Tete(e2) == Some(dernier as Octet7);
            ghost var e3 := entree;
            c := Recevoir();
            AjoutLu(Tete(e3));
            sequence.Ajoute(Chaine(c));
          } else {
            assert !(Tete(e2).Some? && (Tete(e2).value == 0x32 || Tete(e2).value == 0x34));
          }
        }
      }
      r := Some(sequence.valeurs);
    }

    /** Sends a command, then makes `attente` reads and returns what arrived. */
    method Appeler(contenu: Sequences.Valeur, attente: nat) returns (retour: seq<int>)
      modifies this`trace, this`entree
      ensures trace == old(trace) + Canonise(Videotex, contenu)
      ensures retour == Collecte(old(entree), attente) && entree == Saute(old(entree), attente)
    {
      Envoyer(contenu);
      var reponse := new Sequence(None, Videotex);
      for k := 0 to attente
        invariant reponse.valeurs == Collecte(old(entree), k) && entree == Saute(old(entree), k)
        invariant trace == old(trace) + Canonise(Videotex, contenu)
      {
        SauteEncore(old(entree), k);
        var c := Recevoir();
        AjoutLu(Ieme(old(entree), k));
        if c != "" {
          reponse.Ajoute(Chaine(c));
        }
      }
      retour := reponse.valeurs;
    }

    /** Makes one call and checks its reply. */
    method Solliciter(t: Etape) returns (ok: bool)
      modifies this`trace, this`entree
      ensures ok == Conforme(Collecte(old(entree), t.attente), t.attendu)
      ensures trace == old(trace) + t.commande && entree == Saute(old(entree), t.attente)
    {
      CanoniseEntiers(Videotex, t.commande);
      var reponse := Appeler(Liste(Entiers(t.commande)), t.attente);
      ok := Conforme(reponse, t.attendu);
    }

    /** Makes the calls in order, stopping at the first unexpected reply. */
    method Dialoguer(etapes: seq<Etape>) returns (ok: bool)
      modifies this`trace, this`entree
      ensures var b := Dialogue(etapes, old(entree));
        ok == b.ok && trace == old(trace) + b.envoye && entree == b.reste
    {
      ghost var d0 := Dialogue(etapes, entree);
      ghost var t0 := trace;
      ghost var fait: seq<int> := [];
      var restantes := etapes;
      while restantes != []
        invariant trace == t0 + fait
        invariant var d := Dialogue(restantes, entree);
          d.ok == d0.ok && d.reste == d0.reste && d0.envoye == fait + d.envoye
        decreases |restantes|
      {
        var t := restantes[0];
        ghost var q := Dialogue(restantes[1..], Saute(entree, t.attente));
        ok := Solliciter(t);
        Associe(fait, t.commande, q.envoye);
        Associe(t0, fait, t.commande);
        if !ok {
          return;
        }
        fait := fait + t.commande;
        restantes := restantes[1..];
      }
      ok := true;
    }

    /**
     * Changes the operating mode: an unknown name fails, the current mode
     * succeeds at once, any other change goes through the calls of `Etapes`
     * and is recorded only when they all succeed.
     */
    method DefinirMode(nom: string) returns (resultat: bool)
      modifies this`trace, this`entree, this`mode
      ensures ModeNomme(nom).None? ==>
        !resultat && trace == old(trace) && entree == old(entree) && mode == old(mode)
      ensures ModeNomme(nom).Some? ==>
        var b := Dialogue(Etapes(old(mode), ModeNomme(nom).value), old(entree));
        resultat == b.ok && trace == old(trace) + b.envoye && entree == b.reste &&
        mode == (if b.ok then ModeNomme(nom).value else old(mode))
    {
      var cible := ModeNomme(nom);
      if cible.None? {
        return false;
      }
      if mode == cible.value {
        return true;
      }
      resultat := Dialoguer(Etapes(mode, cible.value));
      if resultat {
        mode := cible.value;
      }
    }

    /**
     * Identifies the terminal: the capacities are reset, then filled from the
     * identification reply when it is well formed, with the version test as
     * written (so never as a Telic or Matra terminal), and then the mode is
     * read from the operating status.
     */
    method Identifier()
      modifies this`trace, this`entree, this`capacite, this`mode
      ensures var r := Collecte(old(entree), 5);
        var e1 := Saute(old(entree), 5);
        if !EnqRomValide(r) then
          capacite == CAPACITES_BASIQUES && mode == old(mode) &&
          trace == old(trace) + DEMANDE_ROM && entree == e1
        else
          capacite == Fiche(Car(r[1]), Car(r[2]), Car(r[3]), VersionTelicTelQuEcrite(Car(r[3]))) &&
          mode == ModeDepuisStatut(Collecte(e1, LONGUEUR_PRO2)) &&
          trace == old(trace) + DEMANDE_ROM + DEMANDE_STATUT &&
          entree == Saute(e1, LONGUEUR_PRO2)
    {
      capacite := CAPACITES_BASIQUES;
      CanoniseEntiers(Videotex, DEMANDE_ROM);
      var retour := Appeler(Liste(Entiers(DEMANDE_ROM)), 5);
      if |retour| != 5 || retour[0] != SOH || retour[4] != EOT {
        return;
      }
      var constructeur := Car(retour[1]);
      var modele := Car(retour[2]);
      var version := Car(retour[3]);
      capacite := Fiche(constructeur, modele, version, VersionTelicTelQuEcrite(version));
      CanoniseEntiers(Videotex, DEMANDE_STATUT);
      retour := Appeler(Liste(Entiers(DEMANDE_STATUT)), LONGUEUR_PRO2);
      if |retour| != LONGUEUR_PRO2 {
        mode := Teleinformatique;
      } else if retour[3] % 2 == 1 {
        mode := Mixte;
      } else {
        mode := Videotex;
      }
    }

    /**
     * Tries 9600, 4800, 1200 and 300 bps in turn with a terminal status
     * request; the first speed answered is recorded and returned, -1 if none.
     */
    method DevinerVitesse() returns (v: int)
      requires Valid()
      modifies this`trace, this`entree, this`vitesse, this`debit
      ensures Valid()
      ensures var r := Balayage(old(entree), VITESSES, StatutTerminal, old(debit));
        v == (if r.trouvee.Some? then r.trouvee.value else -1) &&
        vitesse == (if r.trouvee.Some? then r.trouvee.value else old(vitesse)) &&
        trace == old(trace) + r.envoye && entree == r.reste && debit == r.debit
    {
      BalayageIssue(entree, VITESSES, StatutTerminal, debit);
      v := Sonder(StatutTerminal, VITESSES);
      if v != -1 {
        vitesse := v;
      }
    }

    /**
     * Assumes the terminal is in TELEINFORMATIQUE and tries each speed with a
     * request to return to VIDEOTEX; on success records that mode and speed.
     */
    method Recuperation() returns (v: int)
      requires Valid()
      modifies this`trace, this`entree, this`vitesse, this`debit, this`mode
      ensures Valid()
      ensures var r := Balayage(old(entree), VITESSES, RetourVideotex, old(debit));
        v == (if r.trouvee.Some? then r.trouvee.value else -1) &&
        vitesse == (if r.trouvee.Some? then r.trouvee.value else old(vitesse)) &&
        mode == (if r.trouvee.Some? then Videotex else Teleinformatique) &&
        trace == old(trace) + r.envoye && entree == r.reste && debit == r.debit
    {
      mode := Teleinformatique;
      BalayageIssue(entree, VITESSES, RetourVideotex, debit);
      v := Sonder(RetourVideotex, VITESSES);
      if v != -1 {
        mode := Videotex;
        vitesse := v;
      }
    }

    /** The loop shared by the two speed searches: reopen the port at each speed and probe. */
    method Sonder(s: Sonde, vitesses: seq<int>) returns (v: int)
      modifies this`trace, this`entree, this`debit
      ensures var r := Balayage(old(entree), vitesses, s, old(debit));
        v == (if r.trouvee.Some? then r.trouvee.value else -1) &&
        trace == old(trace) + r.envoye && entree == r.reste && debit == r.debit
    {
      ghost var r0 := Balayage(entree, vitesses, s, debit);
      ghost var t0 := trace;
      ghost var fait: seq<int> := [];
      var restantes := vitesses;
      while restantes != []
        invariant trace == t0 + fait
        invariant var r := Balayage(entree, restantes, s, debit);
          r.trouvee == r0.trouvee && r.reste == r0.reste && r.debit == r0.debit && r0.envoye == fait + r.envoye
        decreases |restantes|
      {
        ghost var commande := Sondage(s).commande;
        var repond := EssayerPremiere(s, restantes);
        Associe(fait, commande, Balayage(entree, restantes[1..], s, debit).envoye);
        Associe(t0, fait, commande);
        if repond {
          return restantes[0];
        }
        fait := fait + commande;
        restantes := restantes[1..];
      }
      v := -1;
    }

    /** One turn of the search: probe at the first speed left, and say what the search then does. */
    method EssayerPremiere(s: Sonde, vitesses: seq<int>) returns (repond: bool)
      requires vitesses != []
      modifies this`trace, this`entree, this`debit
      ensures var t := Sondage(s);
        var r := Balayage(old(entree), vitesses, s, old(debit));
        var q := Balayage(entree, vitesses[1..], s, debit);
        trace == old(trace) + t.commande &&
        (repond ==> r == Recherche(Some(vitesses[0]), t.commande, entree, debit)) &&
        (!repond ==> r == q.(envoye := t.commande + q.envoye))
    {
      BalayageEtape(entree, vitesses, s, debit);
      repond := Essayer(s, vitesses[0]);
    }

    /** Reopens the port at one speed and probes the terminal there. */
    method Essayer(s: Sonde, v: int) returns (repond: bool)
      modifies this`trace, this`entree, this`debit
      ensures debit == v
      ensures var t := Sondage(s);
        repond == Repond(s, Collecte(old(entree), t.attente)) &&
        trace == old(trace) + t.commande && entree == Saute(old(entree), t.attente)
    {
      debit := v;
      var t := Sondage(s);
      CanoniseEntiers(Videotex, t.commande);
      var retour := Appeler(Liste(Entiers(t.commande)), t.attente);
      repond := match s
        case StatutTerminal => |retour| == LONGUEUR_PRO2 && retour[2] == REP_STATUS_TERMINAL
        case RetourVideotex => retour == [SEP, 0x5e];
    }

    /**
     * Programs a new speed: nothing to do when it is the current one; an
     * unsupported speed is a lookup error (None); a speed the terminal
     * acknowledges before the port is changed is refused; otherwise the port
     * is reopened at the new speed.
     */
    method DefinirVitesse(v: int) returns (r: Option<bool>)
      requires Valid()
      modifies this`trace, this`entree, this`vitesse, this`debit
      ensures Valid()
      ensures v == old(vitesse) ==>
        r == Some(true) && trace == old(trace) && entree == old(entree) && debit == old(debit)
      ensures v != old(vitesse) && v !in CODES_VITESSE ==>
        r.None? && trace == old(trace) && entree == old(entree) &&
        vitesse == old(vitesse) && debit == old(debit)
      ensures v != old(vitesse) && v in CODES_VITESSE ==>
        var reponse := Collecte(old(entree), LONGUEUR_PRO2);
        var refuse := |reponse| == LONGUEUR_PRO2 && reponse[2] == REP_STATUS_VITESSE;
        trace == old(trace) + PRO2 + [PROG, CODES_VITESSE[v]] &&
        entree == Saute(old(entree), LONGUEUR_PRO2) &&
        r == Some(!refuse) &&
        vitesse == (if refuse then old(vitesse) else v) && debit == (if refuse then old(debit) else v)
      ensures r == Some(true) ==> vitesse == v
      ensures r == Some(true) && v != old(vitesse) ==> debit == vitesse
    {
      if v == vitesse {
        return Some(true);
      }
      if v !in CODES_VITESSE {
        return None;
      }
      CanoniseEntiers(Videotex, PRO2 + [PROG, CODES_VITESSE[v]]);
      var retour := Appeler(Liste(Entiers(PRO2 + [PROG, CODES_VITESSE[v]])), LONGUEUR_PRO2);
      if |retour| == LONGUEUR_PRO2 && retour[2] == REP_STATUS_VITESSE {
        return Some(false);
      }
      debit := v;
      vitesse := v;
      r := Some(true);
    }

    /** Sets the extended keyboard, cursor keys and lower case; fails at the first short reply. */
    method ConfigurerClavier(etendu: bool, curseur: bool, minuscule: bool) returns (ok: bool)
      modifies this`trace, this`entree
      ensures var b := Dialogue(EtapesClavier(etendu, curseur, minuscule), old(entree));
        ok == b.ok && trace == old(trace) + b.envoye && entree == b.reste
    {
      ok := Dialoguer(EtapesClavier(etendu, curseur, minuscule));
    }

    /** Switches the keyboard echo on or off; succeeds when the acknowledgement is complete. */
    method Echo(actif: bool) returns (ok: bool)
      modifies this`trace, this`entree
      ensures ok <==> |Collecte(old(entree), LONGUEUR_PRO3)| == LONGUEUR_PRO3
      ensures trace == old(trace) + EchoCommande(actif)
      ensures entree == Saute(old(entree), LONGUEUR_PRO3)
    {
      CanoniseEntiers(Videotex, EchoCommande(actif));
      var retour := Appeler(Liste(Entiers(EchoCommande(actif))), LONGUEUR_PRO3);
      ok := |retour| == LONGUEUR_PRO3;
    }

    // Display primitives: each sends the codes its encoder gives.

    method Couleur(caractere: Option<Cle>, fond: Option<Cle>)
      modifies this`trace
      ensures trace == old(trace) + CouleurCodes(caractere, fond)
    {
      Associe(trace, Attribut(caractere, 0x40), Attribut(fond, 0x50));
      if caractere.Some? {
        var couleur := NormaliserCouleur(caractere.value);
        if couleur.Some? {
          EnvoyerListe([ESC, 0x40 + couleur.value]);
        }
      }
      if fond.Some? {
        var couleur := NormaliserCouleur(fond.value);
        if couleur.Some? {
          EnvoyerListe([ESC, 0x50 + couleur.value]);
        }
      }
    }

    method Position(colonne: int, ligne: int, relatif: bool)
      modifies this`trace
      ensures !relatif ==> trace == old(trace) + Emplacement(colonne, ligne)
      ensures relatif ==> trace == old(trace) + DeplacementRelatif(colonne, ligne)
    {
      if !relatif {
        if colonne == 1 && ligne == 1 {
          EnvoyerListe([RS]);
        } else {
          EnvoyerListe([US, 0x40 + ligne, 0x40 + colonne]);
        }
      } else {
        Associe(trace, DeplacementLigne(ligne), DeplacementColonne(colonne));
        EnvoyerListe(DeplacementLigne(ligne));
        EnvoyerListe(DeplacementColonne(colonne));
      }
    }

    method Taille(largeur: int, hauteur: int)
      requires largeur in {1, 2} && hauteur in {1, 2}
      modifies this`trace
      ensures trace == old(trace) + TailleCodes(largeur, hauteur)
    {
      EnvoyerListe([ESC, 0x4c + (hauteur - 1) + (largeur - 1) * 2]);
    }

    method Effet(soulignement: Option<bool>, clignotement: Option<bool>, inversion: Option<bool>)
      modifies this`trace
      ensures trace == old(trace) + EffetCodes(soulignement, clignotement, inversion)
    {
      ghost var a, b, c := Bascule(soulignement, 0x5a, 0x59), Bascule(clignotement, 0x48, 0x49), Bascule(inversion, 0x5d, 0x5c);
      Associe(trace, a, b);
      Associe(trace, a + b, c);
      EnvoyerListe(Bascule(soulignement, 0x5a, 0x59));
      EnvoyerListe(Bascule(clignotement, 0x48, 0x49));
      EnvoyerListe(Bascule(inversion, 0x5d, 0x5c));
    }

    method Curseur(visible: bool)
      modifies this`trace
      ensures trace == old(trace) + CurseurCodes(visible)
    {
      EnvoyerListe([if visible then CON else COF]);
    }

    method Efface(portee: string)
      requires portee in PORTEES
      modifies this`trace
      ensures trace == old(trace) + PORTEES[portee]
    {
      EnvoyerListe(PORTEES[portee]);
    }

    method Repeter(caractere: Sequences.Valeur, longueur: int)
      requires 0 < longueur <= 40 && CaractereUnique(caractere)
      modifies this`trace
      ensures trace == old(trace) + RepeterCodes(caractere, longueur)
    {
      RepeterCanonise(caractere, longueur);
      Envoyer(RepeterValeur(caractere, longueur));
    }

    method Bip()
      modifies this`trace
      ensures trace == old(trace) + [BEL]
    {
      EnvoyerListe([BEL]);
    }

    method DebutLigne()
      modifies this`trace
      ensures trace == old(trace) + [CR]
    {
      EnvoyerListe([CR]);
    }

    method Supprime(nb_colonne: Option<nat>, nb_ligne: Option<nat>)
      modifies this`trace
      ensures trace == old(trace) + SupprimeCodes(nb_colonne, nb_ligne)
    {
      ghost var t0 := trace;
      ghost var a := if nb_colonne.Some? then Compte(nb_colonne.value, 'P') else [];
      ghost var b := if nb_ligne.Some? then Compte(nb_ligne.value, 'M') else [];
      if nb_colonne.Some? {
        EnvoyerListe(Compte(nb_colonne.value, 'P'));
      }
      assert trace == t0 + a;
      if nb_ligne.Some? {
        EnvoyerListe(Compte(nb_ligne.value, 'M'));
      }
      Associe(t0, a, b);
    }

    method Insere(nb_colonne: Option<nat>, nb_ligne: Option<nat>)
      modifies this`trace
      ensures trace == old(trace) + InsereCodes(nb_colonne, nb_ligne)
    {
      ghost var t0 := trace;
      ghost var a := if nb_colonne.Some? then CSI + Codes("4h") + Repete(' ' as int, nb_colonne.value) + CSI + Codes("4l") else [];
      ghost var b := if nb_ligne.Some? then Compte(nb_ligne.value, 'L') else [];
      if nb_colonne.Some? {
        EnvoyerListe(CSI + Codes("4h") + Repete(' ' as int, nb_colonne.value) + CSI + Codes("4l"));
      }
      assert trace == t0 + a;
      if nb_ligne.Some? {
        EnvoyerListe(Compte(nb_ligne.value, 'L'));
      }
      Associe(t0, a, b);
    }

    method Semigraphique(actif: bool)
      modifies this`trace
      ensures trace == old(trace) + SemigraphiqueCodes(actif)
    {
      Envoyer(Entier(if actif then SO else SI));
    }

    /**
     * One pixel of the packing loop: it joins the pending group; a full group
     * is sent as a printable code; a full glyph has its last group padded with
     * four zero bits and sent, followed by 0x30.
     */
    method EmettrePixel(octet: string, compte: nat, pixel: char) returns (octet': string, compte': nat)
      modifies this`trace
      ensures trace == old(trace) + Emission(octet, pixel, compte)
      ensures (octet', compte') == Suivant(octet, pixel, compte)
    {
      octet' := octet + [pixel];
      compte' := compte + 1;
      if |octet'| == 6 {
        Envoyer(Entier(0x40 + Codage.Valeur(octet')));
        octet' := "";
      }
      if compte' == 80 {
        Envoyer(Entier(0x40 + Codage.Valeur(octet' + "0000")));
        Envoyer(Entier(0x30));
        octet' := "";
        compte' := 0;
      }
    }

    /** One turn of the packing loop: a character that is not a pixel is skipped. */
    method TraiterCaractere(ghost base: seq<int>, dessins: string, i: nat, octet: string, compte: nat)
      returns (octet': string, compte': nat)
      requires i < |dessins|
      requires trace == base + Emballe(Pixels(dessins[..i]))
      requires octet == Reste(Bloc(Pixels(dessins[..i]))) && compte == |Bloc(Pixels(dessins[..i]))|
      modifies this`trace
      ensures trace == base + Emballe(Pixels(dessins[..i + 1]))
      ensures octet' == Reste(Bloc(Pixels(dessins[..i + 1]))) && compte' == |Bloc(Pixels(dessins[..i + 1]))|
    {
      var pixel := dessins[i];
      ghost var p := Pixels(dessins[..i]);
      PixelSuivant(dessins, i);
      octet', compte' := octet, compte;
      if pixel == '0' || pixel == '1' {
        assert Pixels(dessins[..i + 1]) == p + [pixel];
        EmballeAjout(p, pixel);
        Associe(base, Emballe(p), Emission(octet, pixel, compte));
        octet', compte' := EmettrePixel(octet, compte, pixel);
      } else {
        assert Pixels(dessins[..i + 1]) == p;
      }
    }

    /** The packing loop of `redefinir`: the pixels of the drawings, six per code, glyph by glyph. */
    method EnvoyerPixels(dessins: string)
      modifies this`trace
      ensures trace == old(trace) + Emballe(Pixels(dessins))
    {
      var octet := "";
      var compte := 0;
      for i := 0 to |dessins|
        invariant trace == old(trace) + Emballe(Pixels(dessins[..i]))
        invariant octet == Reste(Bloc(Pixels(dessins[..i]))) && compte == |Bloc(Pixels(dessins[..i]))|
      {
        octet, compte := TraiterCaractere(old(trace), dessins, i, octet, compte);
      }
      assert dessins[..|dessins|] == dessins;
    }

    /**
     * Redefines characters from `depuis` on: the header, the first
     * character, the drawings packed six pixels per code with each complete
     * glyph closed, then the end of definition and the set selection as
     * written, G'1 whatever the set.
     */
    method Redefinir(depuis: char, dessins: string, jeu: string)
      requires jeu == "G0" || jeu == "G1"
      modifies this`trace
      ensures trace == old(trace) + RedefinirCodes(depuis, dessins, jeu)
    {
      ghost var t0 := trace;
      ghost var a, b, c, d := Preambule(depuis, jeu), Emballe(Pixels(dessins)), [US, 0x41, 0x41], SelectionJeuTelQuEcrit(jeu);
      EnvoyerPreambule(depuis, jeu);
      ghost var t1 := trace;
      EnvoyerPixels(dessins);
      ghost var t2 := trace;
      EnvoyerListe([US, 0x41, 0x41]);
      ghost var t3 := trace;
      EnvoyerListe(SelectionJeuTelQuEcrit(jeu));
      assert t1 == t0 + a && t2 == t1 + b && t3 == t2 + c && trace == t3 + d;
      Regroupe(t0, a, b, c, d);
    }

    /** The start of `redefinir`: the set header, then the first character as a one-character string. */
    method EnvoyerPreambule(depuis: char, jeu: string)
      modifies this`trace
      ensures trace == old(trace) + Preambule(depuis, jeu)
    {
      EnvoyerListe(EnTete(jeu));
      PremierCaractere(depuis);
      Envoyer(Liste([Entier(US), Entier(0x23), Chaine([depuis]), Entier(0x30)]));
    }
  }
}
