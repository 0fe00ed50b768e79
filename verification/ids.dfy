/** Identity generation for message headers.

The bus asks a uuid library for a new identifier each time a header is
created or re-identified.  Here that library is replaced by a deterministic
generator: the k-th identifier it hands out is the decimal spelling of k, and
the ghost set `Issued` collects every identifier handed out so far.  The one
property the rest of the model relies on is freshness: a new identifier is
never in the issued set, and issuing it adds exactly that identifier.
 */
module Ids {

  /** The character spelling a decimal digit. */
  function DigitChar(d: nat): (c: char)
    requires d < 10
    ensures '0' <= c <= '9'
  {
    (('0' as int) + d) as char
  }

  /** The digit a decimal character spells; the inverse of `DigitChar`. */
  function DigitValue(c: char): (d: nat)
    requires '0' <= c <= '9'
    ensures d < 10
    ensures DigitChar(d) == c
  {
    (c as int) - ('0' as int)
  }

  ghost predicate AllDigits(s: string) {
    forall i :: 0 <= i < |s| ==> '0' <= s[i] <= '9'
  }

  /** The decimal spelling of `n`, most significant digit first. */
  function Decimal(n: nat): (s: string)
    ensures |s| > 0
    ensures AllDigits(s)
    ensures n < 10 <==> |s| == 1
    decreases n
  {
    if n < 10 then [DigitChar(n)] else Decimal(n / 10) + [DigitChar(n % 10)]
  }

  /** Reads a string of decimal digits back as a number. */
  function ParseDecimal(s: string): nat
    requires AllDigits(s)
  {
    if |s| == 0 then 0
    else ParseDecimal(s[..|s| - 1]) * 10 + DigitValue(s[|s| - 1])
  }

  /** Reading a decimal spelling back gives the number spelled. */
  lemma {:induction false} ParseDecimalInvertsDecimal(n: nat)
    ensures ParseDecimal(Decimal(n)) == n
    decreases n
  {
    if n >= 10 {
      var prefix := Decimal(n / 10);
      var s := prefix + [DigitChar(n % 10)];
      assert s[..|s| - 1] == prefix;
      assert DigitValue(s[|s| - 1]) == n % 10;
      ParseDecimalInvertsDecimal(n / 10);
    } else {
      var s := Decimal(n);
      assert s[..0] == [];
      assert DigitValue(s[0]) == n;
    }
  }

  /** Two numbers with the same decimal spelling are equal. */
  lemma DecimalInjective(a: nat, b: nat)
    ensures Decimal(a) == Decimal(b) <==> a == b
  {
    ParseDecimalInvertsDecimal(a);
    ParseDecimalInvertsDecimal(b);
  }

  /** The generator's state: how many identifiers it has handed out.  The
      k-th identifier it hands out is `Decimal(k)`. */
  datatype IdGen = IdGen(next: nat)

  /** A generator that has handed out nothing yet. */
  const Initial: IdGen := IdGen(0)

  /** Every identifier the generator has handed out so far. */
  ghost function Issued(g: IdGen): set<string> {
    set k | 0 <= k < g.next :: Decimal(k)
  }

  /** The identifier the generator hands out next has not been handed out. */
  lemma {:induction false} NextIsNotIssued(g: IdGen)
    ensures Decimal(g.next) !in Issued(g)
  {
    forall k | 0 <= k < g.next
      ensures Decimal(k) != Decimal(g.next)
    {
      DecimalInjective(k, g.next);
    }
  }

  /** Hands out a fresh identifier: one never handed out before, which from
      now on counts as issued. */
  function NewId(g: IdGen): (r: (string, IdGen))
    ensures |r.0| > 0
    ensures r.0 !in Issued(g)
    ensures Issued(r.1) == Issued(g) + {r.0}
  {
    NextIsNotIssued(g);
    var g' := IdGen(g.next + 1);
    assert Issued(g') == Issued(g) + {Decimal(g.next)};
    (Decimal(g.next), g')
  }
}
