/**
  The line label that the listing prints in front of every line: `printf("%4d| ", n)`,
  i.e. the decimal numeral of `n` right-aligned in a field of width four (wider numbers
  are not truncated), followed by a bar and a space.
*/
module LineLabels {

  import opened Wrappers

  const LabelWidth: nat := 4

  function DigitChar(d: nat): (c: char)
    requires d < 10
    ensures '0' <= c <= '9'
  {
    ['0', '1', '2', '3', '4', '5', '6', '7', '8', '9'][d]
  }

  function DigitValue(c: char): nat
    requires '0' <= c <= '9'
  {
    c as int - '0' as int
  }

  /** Decimal numeral of `n`, most significant digit first, without leading zeros. */
  function Decimal(n: nat): (s: seq<char>)
    ensures 1 <= |s|
    ensures forall i :: 0 <= i < |s| ==> '0' <= s[i] <= '9'
    ensures |s| > 1 ==> s[0] != '0'
  {
    if n < 10 then [DigitChar(n)] else Decimal(n / 10) + [DigitChar(n % 10)]
  }

  /** Value of a numeral of decimal digits. */
  function ParseDecimal(s: seq<char>): nat
    requires forall i :: 0 <= i < |s| ==> '0' <= s[i] <= '9'
  {
    if s == [] then 0 else 10 * ParseDecimal(s[..|s| - 1]) + DigitValue(s[|s| - 1])
  }

  lemma DigitRoundTrip(d: nat)
    requires d < 10
    ensures DigitValue(DigitChar(d)) == d
  {
  }

  /** The numeral of `n >= 10` is the numeral of `n / 10` followed by the last digit. */
  lemma DecimalSplit(n: nat)
    requires n >= 10
    ensures var s := Decimal(n);
      s[..|s| - 1] == Decimal(n / 10) && s[|s| - 1] == DigitChar(n % 10)
  {
  }

  /** Round trip: parsing the numeral of `n` gives `n`. */
  lemma {:induction false} ParseDecimalOfDecimal(n: nat)
    ensures ParseDecimal(Decimal(n)) == n
  {
    DigitRoundTrip(n % 10);
    if n >= 10 {
      ParseDecimalOfDecimal(n / 10);
      DecimalSplit(n);
    }
  }

  /** The blanks `%4d` puts in front of the numeral of `n`. */
  function Padding(n: nat): seq<char>
  {
    if n < 10 then "   " else if n < 100 then "  " else if n < 1000 then " " else ""
  }

  /** `k` blanks. */
  function Blanks(k: nat): seq<char>
  {
    seq(k, _ => ' ')
  }

  /**
    `%4d` of a non-negative number: the numeral right-aligned with blanks in a
    field of width four; a numeral of four or more digits is printed whole.
  */
  function PadDecimal(n: nat): (s: seq<char>)
    ensures |Decimal(n)| < LabelWidth ==> s == Blanks(LabelWidth - |Decimal(n)|) + Decimal(n)
    ensures |Decimal(n)| >= LabelWidth ==> s == Decimal(n)
  {
    DecimalLength(n);
    Padding(n) + Decimal(n)
  }

  /** Number of decimal digits of `n`. */
  lemma DecimalLength(n: nat)
    ensures n < 10 ==> |Decimal(n)| == 1
    ensures 10 <= n < 100 ==> |Decimal(n)| == 2
    ensures 100 <= n < 1000 ==> |Decimal(n)| == 3
    ensures 1000 <= n ==> |Decimal(n)| >= 4
  {
    if n >= 10 {
      DecimalLength(n / 10);
    }
  }

  /** Drops the blanks in front of a right-aligned number. */
  function TrimLeft(s: seq<char>): seq<char>
  {
    if s != [] && s[0] == ' ' then TrimLeft(s[1..]) else s
  }

  /** Reads the number back from a label: drop the "| ", then the padding. */
  function LabelValue(l: seq<char>): Option<nat>
  {
    if |l| < 2 || l[|l| - 2..] != "| " then None
    else
      var digits := TrimLeft(l[..|l| - 2]);
      if forall i :: 0 <= i < |digits| ==> '0' <= digits[i] <= '9' then
        Some(ParseDecimal(digits))
      else None
  }

  lemma {:induction false} TrimLeftSpaces(sp: seq<char>, d: seq<char>)
    requires forall i :: 0 <= i < |sp| ==> sp[i] == ' '
    requires d != [] && d[0] != ' '
    ensures TrimLeft(sp + d) == d
    decreases |sp|
  {
    if sp != [] {
      assert (sp + d)[1..] == sp[1..] + d;
      TrimLeftSpaces(sp[1..], d);
    } else {
      assert sp + d == d;
    }
  }

  /** Round trip: `%4d` of `n` followed by "| " reads back as `n`. */
  lemma PadDecimalReadsBack(n: nat)
    ensures LabelValue(PadDecimal(n) + "| ") == Some(n)
  {
    var d, pad, p := Decimal(n), Padding(n), PadDecimal(n);
    assert p == pad + d;
    var l := p + "| ";
    assert l[|l| - 2..] == "| ";
    assert l[..|l| - 2] == p;
    assert forall i :: 0 <= i < |pad| ==> pad[i] == ' ';
    TrimLeftSpaces(pad, d);
    ParseDecimalOfDecimal(n);
  }

  /**
    The label of line `n`: `%4d` of `n`, then "| ". It is at least six characters
    wide and reads back as `n`.
  */
  function Label(n: nat): (l: seq<char>)
    ensures |l| >= LabelWidth + 2
    ensures LabelValue(l) == Some(n)
  {
    PadDecimalReadsBack(n);
    PadDecimal(n) + "| "
  }

  /** A label ends with "| " and contains no newline. */
  lemma LabelShape(n: nat)
    ensures Label(n)[|Label(n)| - 2..] == "| "
    ensures '\n' !in Label(n)
  {
    PadDecimalNoNewline(n);
  }

  /** `%4d` prints blanks and digits only. */
  lemma PadDecimalNoNewline(n: nat)
    ensures '\n' !in PadDecimal(n)
  {
    var s, d := PadDecimal(n), Decimal(n);
    forall i | 0 <= i < |s|
      ensures s[i] != '\n'
    {
      if i >= |s| - |d| {
        assert s[i] == s[|s| - |d|..][i - (|s| - |d|)];
      }
    }
  }

  /** Different lines get different labels. */
  lemma LabelInjective(m: nat, n: nat)
    requires Label(m) == Label(n)
    ensures m == n
  {
  }

  /** The first label is printed as three blanks, a zero, a bar and a blank. */
  lemma LabelZero()
    ensures Label(0) == "   0| "
  {
    assert Decimal(0) == "0";
  }
}
