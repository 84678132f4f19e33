/**
 The next invoice number: one more than the number of regular files in the
 invoices directory, written as "DVT" followed by the decimal number padded
 with zeros to at least five digits (`"DVT{:05d}"`).
 */
module InvoiceNumbering {

  /** A name from the directory listing, with whether it names a regular file. */
  datatype Entry = Entry(name: string, isFile: bool)

  const Prefix := "DVT"
  const MinDigits := 5

  function Max(a: int, b: int): int {
    if a < b then b else a
  }

  /** Number of regular-file entries; directories and other entries are skipped. */
  function FileCount(listing: seq<Entry>): (n: nat)
    ensures n <= |listing|
  {
    if listing == [] then 0
    else (if listing[0].isFile then 1 else 0) + FileCount(listing[1..])
  }

  lemma {:induction false} FileCountAppend(a: seq<Entry>, b: seq<Entry>)
    ensures FileCount(a + b) == FileCount(a) + FileCount(b)
    decreases |a|
  {
    if a == [] {
      assert a + b == b;
    } else {
      assert (a + b)[1..] == a[1..] + b;
      FileCountAppend(a[1..], b);
    }
  }

  predicate IsDigit(c: char) {
    '0' <= c <= '9'
  }

  predicate AllDigits(s: string) {
    forall i :: 0 <= i < |s| ==> IsDigit(s[i])
  }

  function DigitChar(d: int): (c: char)
    requires 0 <= d < 10
    ensures IsDigit(c)
  {
    ('0' as int + d) as char
  }

  /** The number a string of decimal digits denotes; leading zeros allowed. */
  function ValueOf(s: string): nat
    requires AllDigits(s)
  {
    if s == [] then 0
    else ValueOf(s[..|s| - 1]) * 10 + (s[|s| - 1] as int - '0' as int)
  }

  /** `str(n)`: the decimal digits of `n`, without leading zeros. */
  function Decimal(n: nat): (s: string)
    ensures 1 <= |s| && AllDigits(s)
    ensures |s| == 1 || s[0] != '0'
    ensures ValueOf(s) == n
  {
    if n < 10 then [DigitChar(n)]
    else
      var s := Decimal(n / 10) + [DigitChar(n % 10)];
      assert s[..|s| - 1] == Decimal(n / 10);
      s
  }

  /** A zero in front of a digit string does not change its value. */
  lemma {:induction false} LeadingZero(s: string)
    requires AllDigits(s)
    ensures AllDigits(['0'] + s) && ValueOf(['0'] + s) == ValueOf(s)
    decreases |s|
  {
    if s != [] {
      var t := ['0'] + s;
      assert t[..|t| - 1] == ['0'] + s[..|s| - 1];
      LeadingZero(s[..|s| - 1]);
    }
  }

  function Zeros(k: nat): (z: string)
    ensures |z| == k && forall i :: 0 <= i < k ==> z[i] == '0'
  {
    seq(k, i => '0')
  }

  /** Zeros in front of a digit string do not change its value. */
  lemma {:induction false} LeadingZeros(k: nat, s: string)
    requires AllDigits(s)
    ensures AllDigits(Zeros(k) + s) && ValueOf(Zeros(k) + s) == ValueOf(s)
    decreases k
  {
    if k == 0 {
      assert Zeros(k) + s == s;
    } else {
      LeadingZeros(k - 1, s);
      assert Zeros(k) + s == ['0'] + (Zeros(k - 1) + s);
      LeadingZero(Zeros(k - 1) + s);
    }
  }

  /** Left-pads `s` with zeros to at least `width` characters, keeping its value. */
  function ZeroPad(s: string, width: nat): (r: string)
    requires AllDigits(s)
    ensures |r| == Max(|s|, width)
    ensures AllDigits(r) && ValueOf(r) == ValueOf(s)
  {
    var k := if |s| >= width then 0 else width - |s|;
    LeadingZeros(k, s);
    Zeros(k) + s
  }

  /**
   `get_invoice_number()` on a given listing: "DVT" and then at least five
   digits whose value is one more than the number of regular files; a number
   wider than five digits carries no leading zero.
   */
  function InvoiceNumber(listing: seq<Entry>): (r: string)
    ensures |r| >= |Prefix| + MinDigits && r[..|Prefix|] == Prefix
    ensures AllDigits(r[|Prefix|..]) && ValueOf(r[|Prefix|..]) == FileCount(listing) + 1
    ensures |r| > |Prefix| + MinDigits ==> r[|Prefix|] != '0'
  {
    var digits := ZeroPad(Decimal(FileCount(listing) + 1), MinDigits);
    var r := Prefix + digits;
    assert r[|Prefix|..] == digits;
    r
  }

  /** An entry that is not a regular file, wherever it appears, does not change the number. */
  lemma NonFilesIgnored(before: seq<Entry>, name: string, after: seq<Entry>)
    ensures InvoiceNumber(before + [Entry(name, false)] + after) == InvoiceNumber(before + after)
  {
    FileCountAppend(before + [Entry(name, false)], after);
    FileCountAppend(before, [Entry(name, false)]);
    FileCountAppend(before, after);
  }

  /** Each further regular file advances the number by one. */
  lemma NextFileAdvances(listing: seq<Entry>, name: string)
    ensures ValueOf(InvoiceNumber(listing + [Entry(name, true)])[|Prefix|..])
         == ValueOf(InvoiceNumber(listing)[|Prefix|..]) + 1
  {
    FileCountAppend(listing, [Entry(name, true)]);
  }

  /** An empty directory gives "DVT00001"; four files give "DVT00005". */
  lemma FirstNumbers()
    ensures InvoiceNumber([]) == "DVT00001"
    ensures InvoiceNumber([Entry("a", true), Entry("b", true), Entry("c", true), Entry("d", true)]) == "DVT00005"
  {
  }
}
