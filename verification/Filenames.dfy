/** The names of the log's files: how they are formatted, parsed back and sorted. */
module Filenames {

  function Pow10(w: nat): (p: nat)
    ensures p >= 1
  {
    if w == 0 then 1 else 10 * Pow10(w - 1)
  }

  function Digit(d: nat): char
    requires d < 10
  {
    "0123456789"[d]
  }

  /** The number in exactly `w` decimal digits, padded with zeros, as `%0wlu` prints it. */
  function Padded(n: nat, w: nat): (s: string)
    ensures |s| == w
    ensures forall i :: 0 <= i < w ==> '0' <= s[i] <= '9'
  {
    if w == 0 then "" else Padded(n / 10, w - 1) + [Digit(n % 10)]
  }

  /** The shortest decimal form, as `to_string` prints it. */
  function Decimal(n: nat): (s: string)
    ensures |s| >= 1
  {
    if n < 10 then [Digit(n)] else Decimal(n / 10) + [Digit(n % 10)]
  }

  /** The value of a string of digits, as `stoi` reads it. */
  function Value(s: string): int {
    if s == "" then 0 else Value(s[..|s| - 1]) * 10 + (s[|s| - 1] as int - '0' as int)
  }

  const WIDTH := 20

  function ClosedName(start: nat, end: nat): string {
    Padded(start, WIDTH) + "-" + Padded(end, WIDTH)
  }

  function OpenName(start: nat): string {
    "open-" + Decimal(start)
  }

  predicate IsOpenName(name: string) {
    |name| >= 4 && name[..4] == "open"
  }

  predicate IsMetadata(name: string) {
    name == "metadata1" || name == "metadata2"
  }

  /** The position of the first dash, or the length of the name when there is none. */
  function DashIndex(name: string): (d: nat)
    ensures d <= |name|
    ensures d < |name| ==> name[d] == '-'
    ensures forall i :: 0 <= i < d ==> name[i] != '-'
  {
    if name == "" || name[0] == '-' then 0 else 1 + DashIndex(name[1..])
  }

  /** The start index that a closed file's name begins with. */
  function ParsedStart(name: string): int {
    Value(name[..DashIndex(name)])
  }

  /** Lexicographic order on characters, by which the directory listing is sorted. */
  predicate Less(a: string, b: string) {
    b != "" && (a == "" || a[0] < b[0] || (a[0] == b[0] && Less(a[1..], b[1..])))
  }

  // ---------------------------------------------------------------- formatting and parsing

  /** A digit at the end is the last decimal place. */
  lemma ValueAppends(s: string, d: nat)
    requires d < 10
    ensures Value(s + [Digit(d)]) == Value(s) * 10 + d
  {
    assert (s + [Digit(d)])[..|s|] == s;
    DigitValue(d);
  }

  lemma DigitValue(d: nat)
    requires d < 10
    ensures Digit(d) as int == '0' as int + d
  {
  }

  lemma PowTenth(n: nat, w: nat)
    requires 0 < w && n < Pow10(w)
    ensures n / 10 < Pow10(w - 1) && n == n / 10 * 10 + n % 10
  {
  }

  /** Digits of a tenth of the number, and its last digit, make the number. */
  lemma ValueStep(n: nat, s: string)
    requires Value(s) == n / 10
    ensures Value(s + [Digit(n % 10)]) == n
  {
    ValueAppends(s, n % 10);
  }

  lemma {:induction false} ValueOfPadded(n: nat, w: nat)
    requires n < Pow10(w)
    ensures Value(Padded(n, w)) == n
  {
    if w > 0 {
      PowTenth(n, w);
      ValueOfPadded(n / 10, w - 1);
      ValueStep(n, Padded(n / 10, w - 1));
    }
  }

  lemma {:induction false} ValueOfDecimal(n: nat)
    ensures Value(Decimal(n)) == n
  {
    if n < 10 {
      ValueAppends("", n);
      assert "" + [Digit(n)] == [Digit(n)];
    } else {
      ValueOfDecimal(n / 10);
      ValueStep(n, Decimal(n / 10));
    }
  }

  /** Open files of different pages have different names. */
  lemma OpenNamesDiffer(a: nat, b: nat)
    requires a != b
    ensures OpenName(a) != OpenName(b)
  {
    ValueOfDecimal(a);
    ValueOfDecimal(b);
    assert OpenName(a)[5..] == Decimal(a) && OpenName(b)[5..] == Decimal(b);
  }

  lemma IntsFit()
    ensures Pow10(WIDTH) > 0x8000_0000
  {
  }

  /** Parsing the prefix of a closed file's name gives back the start index it was made from. */
  lemma ParsedClosedName(start: nat, end: nat)
    requires start < 0x8000_0000
    ensures ParsedStart(ClosedName(start, end)) == start
  {
    IntsFit();
    var name := ClosedName(start, end);
    assert DashIndex(name) == WIDTH by {
      assert name[WIDTH] == '-';
      assert forall i :: 0 <= i < WIDTH ==> name[i] == Padded(start, WIDTH)[i];
    }
    assert name[..WIDTH] == Padded(start, WIDTH);
    ValueOfPadded(start, WIDTH);
  }

  // ---------------------------------------------------------------- order

  lemma {:induction false} LessAsymmetric(a: string, b: string)
    requires Less(a, b)
    ensures !Less(b, a) && a != b
  {
    if a != "" && a[0] == b[0] {
      LessAsymmetric(a[1..], b[1..]);
    }
  }

  lemma {:induction false} LessExtends(a: string, b: string, x: string, y: string)
    requires |a| == |b| && Less(a, b)
    ensures Less(a + x, b + y)
  {
    assert (a + x)[0] == a[0] && (b + y)[0] == b[0];
    if a[0] == b[0] {
      LessExtends(a[1..], b[1..], x, y);
      assert (a + x)[1..] == a[1..] + x && (b + y)[1..] == b[1..] + y;
    }
  }

  lemma {:induction false} LessSuffix(p: string, x: string, y: string)
    requires Less(x, y)
    ensures Less(p + x, p + y)
  {
    if p == "" {
      assert p + x == x && p + y == y;
    } else {
      LessSuffix(p[1..], x, y);
      assert (p + x)[1..] == p[1..] + x && (p + y)[1..] == p[1..] + y;
    }
  }

  /** Numbers padded to one width sort as numbers do. */
  lemma {:induction false} PaddedSorts(a: nat, b: nat, w: nat)
    requires a < b < Pow10(w)
    ensures Less(Padded(a, w), Padded(b, w))
  {
    var x, y := [Digit(a % 10)], [Digit(b % 10)];
    if a / 10 < b / 10 {
      PaddedSorts(a / 10, b / 10, w - 1);
      LessExtends(Padded(a / 10, w - 1), Padded(b / 10, w - 1), x, y);
    } else {
      assert a % 10 < b % 10;
      assert Less(x, y);
      LessSuffix(Padded(a / 10, w - 1), x, y);
    }
  }

  lemma ClosedNamesSort(a: nat, b: nat, c: nat, d: nat)
    requires a < c < 0x8000_0000
    ensures Less(ClosedName(a, b), ClosedName(c, d))
  {
    IntsFit();
    PaddedSorts(a, c, WIDTH);
    LessExtends(Padded(a, WIDTH), Padded(c, WIDTH), "-" + Padded(b, WIDTH), "-" + Padded(d, WIDTH));
    assert ClosedName(a, b) == Padded(a, WIDTH) + ("-" + Padded(b, WIDTH));
    assert ClosedName(c, d) == Padded(c, WIDTH) + ("-" + Padded(d, WIDTH));
  }

  /** Closed files sort before the metadata files, and those before the open file. */
  lemma KindsSort(a: nat, b: nat, meta: string, start: nat)
    requires IsMetadata(meta)
    ensures Less(ClosedName(a, b), meta) && Less(meta, OpenName(start)) && Less(ClosedName(a, b), OpenName(start))
    ensures !IsMetadata(ClosedName(a, b)) && !IsOpenName(ClosedName(a, b))
    ensures IsOpenName(OpenName(start)) && !IsMetadata(OpenName(start))
  {
  }

  lemma OpenNameOpens(start: nat)
    ensures IsOpenName(OpenName(start)) && !IsMetadata(OpenName(start))
  {
    assert OpenName(start)[..4] == "open" && "open"[0] == 'o';
  }

  lemma ClosedNameCloses(start: nat, end: nat)
    ensures !IsOpenName(ClosedName(start, end)) && !IsMetadata(ClosedName(start, end))
  {
    var name := ClosedName(start, end);
    assert name[0] == Padded(start, WIDTH)[0] && name[..4][0] == name[0];
  }

  lemma MetadataCloses(name: string)
    requires IsMetadata(name)
    ensures !IsOpenName(name)
  {
    assert name[..4][0] == 'm';
  }

  /** Any open file sorts after the files of the other kinds. */
  lemma OpenSorts(name: string)
    requires IsOpenName(name)
    ensures !IsMetadata(name) && forall m :: IsMetadata(m) ==> Less(m, name)
    ensures forall a, b :: Less(ClosedName(a, b), name)
  {
    assert name[0] == name[..4][0];
    forall a, b ensures Less(ClosedName(a, b), name) {
      assert ClosedName(a, b)[0] == Padded(a, WIDTH)[0];
    }
  }

  lemma {:induction false} DecimalLeads(n: nat)
    requires n > 0
    ensures Decimal(n)[0] > '0'
  {
    if n >= 10 {
      DecimalLeads(n / 10);
    }
  }

  /** The open file of a page that starts the log sorts before every other. */
  lemma ZeroFirst(start: nat)
    requires start > 0
    ensures Less(OpenName(0), OpenName(start))
  {
    DecimalLeads(start);
    LessSuffix("open-", Decimal(0), Decimal(start));
  }

  ghost predicate Sorted(names: seq<string>) {
    forall i, j :: 0 <= i < j < |names| ==> Less(names[i], names[j])
  }

  /** A sorted listing is determined by the names it lists. */
  lemma {:induction false} SortedUnique(a: seq<string>, b: seq<string>)
    requires Sorted(a) && Sorted(b) && forall x :: x in a <==> x in b
    ensures a == b
  {
    if a != [] || b != [] {
      assert a != [] ==> a[0] in b;
      assert b != [] ==> b[0] in a;
      assert a[0] in a && a[0] in b && b[0] in b;
      if a[0] != b[0] {
        LessAsymmetric(a[0], b[0]);
      }
      forall x ensures x in a[1..] <==> x in b[1..] {
        TailWithout(a, x);
        TailWithout(b, x);
      }
      SortedUnique(a[1..], b[1..]);
    }
  }

  lemma TailWithout(a: seq<string>, x: string)
    requires Sorted(a) && a != []
    ensures x in a[1..] <==> x in a && x != a[0]
  {
    if x in a[1..] {
      var i :| 0 < i < |a| && a[i] == x;
      LessAsymmetric(a[0], a[i]);
    }
  }
}
