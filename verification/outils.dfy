/**
 * Small helpers shared by the whole model: an Option type, the 7-bit
 * characters of the serial line, Python's `str()` of an integer, and the two
 * index searches ("first after", "last before") used by menus and containers.
 */
module Outils {

  datatype Option<+T> = None | Some(value: T)

  /** A character as it arrives on the Minitel's 7-bit serial line. */
  type Octet7 = c: int | 0 <= c < 0x80

  /** `[x] * k` in Python. */
  function Repete(x: int, k: nat): (r: seq<int>)
    ensures |r| == k
    ensures forall i | 0 <= i < k :: r[i] == x
  {
    if k == 0 then [] else [x] + Repete(x, k - 1)
  }

  /** The code points of a string, one per character. */
  function Codes(s: string): (r: seq<int>)
    ensures |r| == |s|
    ensures forall i | 0 <= i < |s| :: r[i] == s[i] as int
  {
    if s == [] then [] else [s[0] as int] + Codes(s[1..])
  }

  lemma {:induction false} CodesConcat(a: string, b: string)
    ensures Codes(a + b) == Codes(a) + Codes(b)
  {
    if a == [] {
      assert a + b == b;
    } else {
      assert (a + b)[1..] == a[1..] + b;
      CodesConcat(a[1..], b);
    }
  }

  /** Concatenation is associative; stated once so that proofs can cite it instead of rediscovering it. */
  lemma Associe<T>(a: seq<T>, b: seq<T>, c: seq<T>)
    ensures a + (b + c) == a + b + c
  {
  }

  /** Two writes one after another append the two pieces, in order. */
  lemma Succede<T>(t0: seq<T>, a: seq<T>, t1: seq<T>, b: seq<T>, t2: seq<T>)
    requires t1 == t0 + a && t2 == t1 + b
    ensures t2 == t0 + (a + b)
  {
    Associe(t0, a, b);
  }

  /** Three writes one after another append the three pieces, in order. */
  lemma Enchaine<T>(t0: seq<T>, a: seq<T>, t1: seq<T>, b: seq<T>, t2: seq<T>, c: seq<T>, t3: seq<T>)
    requires t1 == t0 + a && t2 == t1 + b && t3 == t2 + c
    ensures t3 == t0 + (a + b + c)
  {
    Associe(t0, a, b);
    Associe(t0, a + b, c);
  }

  /** Three pieces, the middle one starting with a known prefix, regrouped around that prefix. */
  lemma Regroupement<T>(l: seq<T>, q: seq<T>, c: seq<T>, f: seq<T>, a: seq<T>, b: seq<T>, x: seq<T>, e: seq<T>, ab: seq<T>)
    requires l == q + c + f && q == a && c == b + x && f == e && ab == a + b
    ensures l == ab + x + e
  {
    Associe(a, b, x);
  }

  /** A slice that lies inside the left operand of a concatenation is a slice of that operand. */
  lemma TrancheGauche<T>(l: seq<T>, a: seq<T>, b: seq<T>, i: int, j: int, bloc: seq<T>)
    requires l == a + b && 0 <= i <= j <= |a| && a[i..j] == bloc
    ensures l[i..j] == bloc
  {
    assert forall k | i <= k < j :: (a + b)[k] == a[k];
  }

  /** The slice past the left operand of a concatenation is the right operand. */
  lemma TrancheDroite<T>(l: seq<T>, a: seq<T>, b: seq<T>, i: int, j: int)
    requires l == a + b && i == |a| && j == |a| + |b|
    ensures l[i..j] == b
  {
  }

  /** Decimal digits of a natural number, most significant first. */
  function Chiffres(n: nat): (s: string)
    ensures |s| >= 1
    ensures forall i | 0 <= i < |s| :: '0' <= s[i] <= '9'
    decreases n
  {
    if n < 10 then [('0' as int + n) as char]
    else Chiffres(n / 10) + [('0' as int + n % 10) as char]
  }

  /** Python's `str(n)` for an integer: a minus sign, then the digits. */
  function Decimal(n: int): (s: string)
    ensures |s| >= 1
    ensures forall i | 0 <= i < |s| :: s[i] == '-' || '0' <= s[i] <= '9'
    ensures (s[0] == '-') <==> n < 0
  {
    if n < 0 then "-" + Chiffres(-n) else Chiffres(n)
  }

  /** The value of a list of decimal digit codes (Python's `int` on digits). */
  function ValeurChiffres(c: seq<int>): int
  {
    if c == [] then 0
    else ValeurChiffres(c[..|c| - 1]) * 10 + (c[|c| - 1] - '0' as int)
  }

  /** Python's `int()` on the codes of the text that `str` produces. */
  function LireDecimal(c: seq<int>): int
  {
    if |c| > 0 && c[0] == '-' as int then -ValeurChiffres(c[1..]) else ValeurChiffres(c)
  }

  lemma {:induction false} ChiffresAllerRetour(n: nat)
    ensures ValeurChiffres(Codes(Chiffres(n))) == n
    decreases n
  {
    if n >= 10 {
      var d := [('0' as int + n % 10) as char];
      CodesConcat(Chiffres(n / 10), d);
      var c := Codes(Chiffres(n));
      assert c[..|c| - 1] == Codes(Chiffres(n / 10));
      assert c[|c| - 1] == '0' as int + n % 10;
      ChiffresAllerRetour(n / 10);
      assert ValeurChiffres(c) == n / 10 * 10 + n % 10;
    }
  }

  /** Reading back what `str(n)` wrote gives `n`: the decimal text is lossless. */
  lemma {:induction false} DecimalAllerRetour(n: int)
    ensures LireDecimal(Codes(Decimal(n))) == n
  {
    if n < 0 {
      CodesConcat("-", Chiffres(-n));
      assert Codes(Decimal(n))[1..] == Codes(Chiffres(-n));
      ChiffresAllerRetour(-n);
    } else {
      ChiffresAllerRetour(n);
    }
  }

  function Max(a: int, b: int): int
  {
    if a >= b then a else b
  }

  /** The smallest index i with n < i < |p| and p[i], if there is one. */
  function PremierApres(p: seq<bool>, n: int): (r: Option<nat>)
    requires -1 <= n < |p|
    ensures r.Some? ==> n < r.value < |p| && p[r.value]
    ensures r.Some? ==> forall j | n < j < r.value :: !p[j]
    ensures r.None? ==> forall j | n < j < |p| :: !p[j]
    decreases |p| - n
  {
    if n + 1 == |p| then None
    else if p[n + 1] then Some(n + 1)
    else PremierApres(p, n + 1)
  }

  /** The largest index i with 0 <= i < n and p[i], if there is one. */
  function DernierAvant(p: seq<bool>, n: int): (r: Option<nat>)
    requires 0 <= n <= |p|
    ensures r.Some? ==> r.value < n && p[r.value]
    ensures r.Some? ==> forall j | r.value < j < n :: !p[j]
    ensures r.None? ==> forall j | 0 <= j < n :: !p[j]
  {
    if n == 0 then None
    else if p[n - 1] then Some(n - 1)
    else DernierAvant(p, n - 1)
  }

  /** A marked index with nothing marked between it and `m` is the last marked one before `m`. */
  lemma {:induction false} DernierAvantEst(p: seq<bool>, n: nat, m: int)
    requires n < m <= |p| && p[n]
    requires forall j | n < j < m :: !p[j]
    ensures DernierAvant(p, m) == Some(n)
    decreases m - n
  {
    if m - 1 != n {
      DernierAvantEst(p, n, m - 1);
    }
  }

  /** A marked index with nothing marked between `m` and it is the first marked one after `m`. */
  lemma {:induction false} PremierApresEst(p: seq<bool>, n: nat, m: int)
    requires -1 <= m < n < |p| && p[n]
    requires forall j | m < j < n :: !p[j]
    ensures PremierApres(p, m) == Some(n)
    decreases n - m
  {
    if m + 1 != n {
      PremierApresEst(p, n, m + 1);
    }
  }

  /**
   * From a marked index, one step forward then one step back (or back then
   * forward) returns to it: the two searches are inverse.
   */
  lemma AllerRetour(p: seq<bool>, n: nat)
    requires n < |p| && p[n]
    ensures PremierApres(p, n).Some? ==> DernierAvant(p, PremierApres(p, n).value) == Some(n)
    ensures DernierAvant(p, n).Some? ==> PremierApres(p, DernierAvant(p, n).value) == Some(n)
  {
    var s := PremierApres(p, n);
    if s.Some? {
      DernierAvantEst(p, n, s.value);
    }
    var d := DernierAvant(p, n);
    if d.Some? {
      PremierApresEst(p, n, d.value);
    }
  }
}
