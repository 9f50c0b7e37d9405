/**
 * `generateReliefId()`: `RP-WB-<date>-<count>`, where the count is the global
 * ledger's length in decimal, left-padded with zeros to three characters.
 * The date (`YYYYMMDD` from the clock) is a parameter.
 */
module ReliefIds {

  predicate IsDigit(c: char)
  {
    '0' <= c <= '9'
  }

  predicate AllDigits(s: string)
  {
    forall i :: 0 <= i < |s| ==> IsDigit(s[i])
  }

  function DigitChar(d: nat): (c: char)
    requires d < 10
    ensures IsDigit(c) && c as int - '0' as int == d
  {
    ('0' as int + d) as char
  }

  /** `Number.prototype.toString()` for a non-negative integer: its decimal digits, no leading zero. */
  function Decimal(n: nat): (s: string)
    ensures |s| > 0 && AllDigits(s)
    ensures n < 10 <==> |s| == 1
    ensures n < 1000 ==> |s| <= 3
  {
    if n < 10 then [DigitChar(n)] else Decimal(n / 10) + [DigitChar(n % 10)]
  }

  /** `String.prototype.padStart(width, fill)`: strings already `width` long are left as they are. */
  function PadStart(s: string, width: nat, fill: char): (r: string)
    ensures |r| == if |s| >= width then |s| else width
    ensures r == Repeat(fill, |r| - |s|) + s
    decreases width - |s|
  {
    if |s| >= width then s else PadStart([fill] + s, width, fill)
  }

  function Repeat(c: char, n: nat): (r: string)
    ensures |r| == n && forall i :: 0 <= i < n ==> r[i] == c
  {
    if n == 0 then [] else [c] + Repeat(c, n - 1)
  }

  const ReliefIdPrefix: string := "RP-WB-"

  function GenerateReliefId(date: string, count: nat): (id: string)
    ensures |id| >= |ReliefIdPrefix| + |date| + 4
    ensures id[..|ReliefIdPrefix|] == ReliefIdPrefix
    ensures id[|ReliefIdPrefix|..|ReliefIdPrefix| + |date|] == date
    ensures id[|ReliefIdPrefix| + |date|] == '-'
    ensures AllDigits(id[|ReliefIdPrefix| + |date| + 1..])
    ensures ParseDecimal(id[|ReliefIdPrefix| + |date| + 1..]) == count
  {
    var suffix := PadStart(Decimal(count), 3, '0');
    PaddedCountRoundTrip(count);
    IdParts(date, suffix);
    ReliefIdPrefix + date + "-" + suffix
  }

  /** Where the prefix, the date, the dash and the count sit in an id. */
  lemma IdParts(date: string, suffix: string)
    ensures var id := ReliefIdPrefix + date + "-" + suffix;
      && |id| == |ReliefIdPrefix| + |date| + 1 + |suffix|
      && id[..|ReliefIdPrefix|] == ReliefIdPrefix
      && id[|ReliefIdPrefix|..|ReliefIdPrefix| + |date|] == date
      && id[|ReliefIdPrefix| + |date|] == '-'
      && id[|ReliefIdPrefix| + |date| + 1..] == suffix
  {
  }

  /** Reads a string of decimal digits as a number; leading zeros are allowed. */
  function ParseDecimal(s: string): nat
    requires AllDigits(s)
  {
    if s == [] then 0
    else 10 * ParseDecimal(s[..|s| - 1]) + (s[|s| - 1] as int - '0' as int)
  }

  lemma {:induction false} ParseDecimalOfDecimal(n: nat)
    ensures ParseDecimal(Decimal(n)) == n
  {
    if n >= 10 {
      var s := Decimal(n);
      assert s[..|s| - 1] == Decimal(n / 10);
      ParseDecimalOfDecimal(n / 10);
    }
  }

  lemma {:induction false} LeadingZerosIgnored(k: nat, s: string)
    requires AllDigits(s)
    ensures AllDigits(Repeat('0', k) + s) && ParseDecimal(Repeat('0', k) + s) == ParseDecimal(s)
    decreases |s|
  {
    var z := Repeat('0', k);
    if s == [] {
      assert z + s == z;
      ZerosParseToZero(k);
    } else {
      var t := z + s;
      assert t[..|t| - 1] == z + s[..|s| - 1];
      LeadingZerosIgnored(k, s[..|s| - 1]);
    }
  }

  lemma {:induction false} ZerosParseToZero(k: nat)
    ensures AllDigits(Repeat('0', k)) && ParseDecimal(Repeat('0', k)) == 0
  {
    if k > 0 {
      var z := Repeat('0', k);
      assert z[..k - 1] == Repeat('0', k - 1) by {
        assert z == Repeat('0', k - 1) + ['0'] by {
          RepeatSnoc(k - 1);
        }
      }
      ZerosParseToZero(k - 1);
    }
  }

  lemma RepeatSnoc(n: nat)
    ensures Repeat('0', n + 1) == Repeat('0', n) + ['0']
  {
  }

  /** The padded count reads back as the count: nothing is lost by the padding. */
  lemma PaddedCountRoundTrip(count: nat)
    ensures AllDigits(PadStart(Decimal(count), 3, '0'))
    ensures ParseDecimal(PadStart(Decimal(count), 3, '0')) == count
  {
    var d := Decimal(count);
    var p := PadStart(d, 3, '0');
    LeadingZerosIgnored(|p| - |d|, d);
    ParseDecimalOfDecimal(count);
  }

  /**
   * Relief ids generated on the same date at different global ledger lengths
   * differ; below a thousand blocks the count is exactly three characters.
   */
  lemma ReliefIdInjective(date: string, m: nat, n: nat)
    ensures GenerateReliefId(date, m) == GenerateReliefId(date, n) ==> m == n
    ensures m < 1000 ==> |GenerateReliefId(date, m)| == |ReliefIdPrefix| + |date| + 4
  {
    var prefix := ReliefIdPrefix + date + "-";
    var pm, pn := PadStart(Decimal(m), 3, '0'), PadStart(Decimal(n), 3, '0');
    assert GenerateReliefId(date, m) == prefix + pm;
    assert GenerateReliefId(date, n) == prefix + pn;
    if GenerateReliefId(date, m) == GenerateReliefId(date, n) {
      assert pm == (prefix + pm)[|prefix|..];
      assert pn == (prefix + pn)[|prefix|..];
      PaddedCountRoundTrip(m);
      PaddedCountRoundTrip(n);
    }
  }
}
