/** The rows of the daily CSV report: a header, then one row per sorted key. */
module Report {
  import opened Aggregate

  /** The first row written. */
  const Header: seq<string> := ["magazine", "articles"]

  predicate IsDigit(c: char)
  {
    '0' <= c <= '9'
  }

  function DigitChar(d: nat): (c: char)
    requires d < 10
    ensures IsDigit(c)
  {
    ('0' as int + d) as char
  }

  function DigitValue(c: char): nat
    requires IsDigit(c)
  {
    c as int - '0' as int
  }

  /** Decimal digits of `n`, most significant first, without leading zeros. */
  function DigitsOf(n: nat): (s: string)
    ensures |s| > 0
    ensures AllDigits(s)
    ensures |s| > 1 ==> s[0] != '0'
  {
    if n < 10 then [DigitChar(n)] else DigitsOf(n / 10) + [DigitChar(n % 10)]
  }

  /** `strconv.Itoa`: decimal, with a leading '-' for negative values. */
  function Itoa(n: int): string
  {
    if n < 0 then "-" + DigitsOf(-n) else DigitsOf(n)
  }

  predicate AllDigits(s: string)
  {
    forall i :: 0 <= i < |s| ==> IsDigit(s[i])
  }

  /** A decimal numeral as Itoa writes it: optional '-', then digits. */
  predicate IsDecimal(s: string)
  {
    if |s| > 0 && s[0] == '-' then |s| > 1 && AllDigits(s[1..]) else |s| > 0 && AllDigits(s)
  }

  function ParseDigits(s: string): nat
    requires AllDigits(s)
  {
    if s == [] then 0 else ParseDigits(s[..|s| - 1]) * 10 + DigitValue(s[|s| - 1])
  }

  /** Reads back a decimal numeral: the inverse of Itoa. */
  function ParseInt(s: string): int
    requires IsDecimal(s)
  {
    if |s| > 0 && s[0] == '-' then -(ParseDigits(s[1..]) as int) else ParseDigits(s)
  }

  lemma {:induction false} DigitsRoundTrip(n: nat)
    ensures ParseDigits(DigitsOf(n)) == n
  {
    var s := DigitsOf(n);
    if n >= 10 {
      DigitsRoundTrip(n / 10);
      assert s[..|s| - 1] == DigitsOf(n / 10);
    }
  }

  /** Itoa writes a well-formed decimal numeral that reads back as its input,
      with a '-' exactly for negative values and no leading zero. */
  lemma ItoaRoundTrip(n: int)
    ensures IsDecimal(Itoa(n))
    ensures ParseInt(Itoa(n)) == n
    ensures Itoa(n)[0] == '-' <==> n < 0
    ensures n >= 0 && |Itoa(n)| > 1 ==> Itoa(n)[0] != '0'
    ensures n < 0 ==> Itoa(n)[1] != '0'
  {
    if n < 0 {
      assert Itoa(n)[1..] == DigitsOf(-n);
      DigitsRoundTrip(-n);
    } else {
      DigitsRoundTrip(n);
    }
  }

  /** The row written for one key: the key and its count in decimal. */
  function Row(m: map<string, nat>, key: string): seq<string>
  {
    [key, Itoa(Count(m, key))]
  }

  /** A row holds the key and a numeral that reads back as the key's count. */
  lemma RowReadsBack(m: map<string, nat>, key: string)
    ensures |Row(m, key)| == 2 && Row(m, key)[0] == key
    ensures IsDecimal(Row(m, key)[1]) && ParseInt(Row(m, key)[1]) == Count(m, key)
  {
    ItoaRoundTrip(Count(m, key));
  }

  /** The row sequence BuildCSV writes: the header, then one row per key in the
      order of `keys`, each holding the key and a numeral that reads back as
      the key's count. */
  method BuildRows(m: map<string, nat>, keys: seq<string>) returns (rows: seq<seq<string>>)
    ensures |rows| == |keys| + 1
    ensures rows[0] == Header
    ensures forall i :: 0 < i < |rows| ==> rows[i] == Row(m, keys[i - 1])
    ensures forall i :: 0 < i < |rows| ==>
              |rows[i]| == 2 && rows[i][0] == keys[i - 1]
              && IsDecimal(rows[i][1]) && ParseInt(rows[i][1]) == Count(m, keys[i - 1])
  {
    rows := [Header];
    for i := 0 to |keys|
      invariant |rows| == i + 1
      invariant rows[0] == Header
      invariant forall k :: 0 < k < |rows| ==> rows[k] == Row(m, keys[k - 1])
    {
      rows := rows + [Row(m, keys[i])];
    }
    forall i | 0 < i < |rows|
      ensures |rows[i]| == 2 && rows[i][0] == keys[i - 1]
      ensures IsDecimal(rows[i][1]) && ParseInt(rows[i][1]) == Count(m, keys[i - 1])
    {
      RowReadsBack(m, keys[i - 1]);
    }
  }
}
