/**
 The correction table as text, and the 8-byte frame in which it travels with
 the recorded packets. Angles are kept in thousandths of a degree when printed
 (three decimals, below 1000 degrees, the range the default stream precision of
 six digits prints exactly) and read back as exact reals.
 */
module CorrectionText {
  import opened Common

  const MAX_ROWS := 64
  const FRAME_SIZE := 8
  const TITLE: string := "Laser id,Elevation,Azimuth"

  /** Elevation and azimuth offset of one laser, in thousandths of a degree. */
  datatype Angles = Angles(elevation: int, azimuth: int)

  // ---------------------------------------------------------------- printing

  function Digit(d: nat): char
    requires d < 10
  {
    '0' + d as char
  }

  function PrintNat(n: nat): string {
    if n < 10 then [Digit(n)] else PrintNat(n / 10) + [Digit(n % 10)]
  }

  /** How many digits f / 1000 has after the point, trailing zeros left out. */
  function FractionLength(f: nat): nat {
    if f == 0 then 0 else if f % 100 == 0 then 1 else if f % 10 == 0 then 2 else 3
  }

  function FractionDigits(f: nat): string
    requires f < 1000
    decreases FractionLength(f)
  {
    if f == 0 then "" else [Digit(f / 100)] + FractionDigits(f % 100 * 10)
  }

  function PrintFraction(f: nat): string
    requires f < 1000
  {
    if f == 0 then "" else "." + FractionDigits(f)
  }

  function PrintMagnitude(m: nat): string {
    PrintNat(m / 1000) + PrintFraction(m % 1000)
  }

  function PrintThousandths(v: int): string {
    if v < 0 then "-" + PrintMagnitude(-v) else PrintMagnitude(v)
  }

  function PrintRow(id: nat, a: Angles): string {
    PrintNat(id) + "," + PrintThousandths(a.elevation) + "," + PrintThousandths(a.azimuth)
  }

  /** The rows numbered from `first` on, each ended by a newline. */
  function PrintRows(table: seq<Angles>, first: nat): string {
    if table == [] then "" else PrintRow(first, table[0]) + "\n" + PrintRows(table[1..], first + 1)
  }

  function PrintTable(table: seq<Angles>): string {
    TITLE + "\n" + PrintRows(table, 1)
  }

  function Bytes(text: string): seq<byte> {
    seq(|text|, i requires 0 <= i < |text| => text[i] as int % 0x100)
  }

  function Text(bytes: seq<byte>): string {
    seq(|bytes|, i requires 0 <= i < |bytes| => bytes[i] as char)
  }

  function FrameBytes(text: string): seq<byte> {
    var n := |text|;
    [0x47, 0x74, 0x05, 0x00 as byte, n / 0x100_0000 % 0x100, n / 0x1_0000 % 0x100, n / 0x100 % 0x100, n % 0x100] + Bytes(text)
  }

  lemma PrintRowsCons(content: string, table: seq<Angles>, i: nat)
    requires i < |table|
    ensures content + PrintRows(table[i..], i + 1)
         == content + PrintRow(i + 1, table[i]) + "\n" + PrintRows(table[i + 1..], i + 2)
  {
    assert table[i..][1..] == table[i + 1..];
    ReassociateFour(content, PrintRow(i + 1, table[i]), "\n", PrintRows(table[i + 1..], i + 2));
  }

  lemma ReassociateFour(a: string, b: string, c: string, d: string)
    ensures a + (b + c + d) == a + b + c + d
  {
  }

  method AppendRows(start: string, table: seq<Angles>) returns (content: string)
    ensures content == start + PrintRows(table, 1)
  {
    content := start;
    for i := 0 to |table|
      invariant content + PrintRows(table[i..], i + 1) == start + PrintRows(table, 1)
    {
      PrintRowsCons(content, table, i);
      content := content + PrintRow(i + 1, table[i]) + "\n";
    }
    assert PrintRows(table[|table|..], |table| + 1) == "";
  }

  /** The bytes of the packet SaveCorrectionFile builds; its size field holds the text length only. */
  method SaveCorrectionFile(table: seq<Angles>, laserNumber: nat) returns (data: seq<byte>, size: nat)
    requires laserNumber <= |table|
    ensures data == FrameBytes(PrintTable(table[..laserNumber]))
    ensures size == |PrintTable(table[..laserNumber])|
    ensures "Laser id,Elevation,Azimuth\n" <= PrintTable(table[..laserNumber])
  {
    var content := AppendRows(TITLE + "\n", table[..laserNumber]);
    size := |content|;
    data := FrameBytes(content);
  }

  // ----------------------------------------------------------------- reading

  /** Text before the first `c`, and what follows it; None when `c` does not occur. */
  function Cut(s: string, c: char): (r: (string, Option<string>))
    ensures r.1.Some? ==> |r.1.value| < |s|
  {
    if s == "" then ("", None)
    else if s[0] == c then ("", Some(s[1..]))
    else
      var (before, after) := Cut(s[1..], c);
      ([s[0]] + before, after)
  }

  function Remainder(after: Option<string>): string {
    if after.Some? then after.value else ""
  }

  predicate IsDigit(c: char) {
    '0' <= c <= '9'
  }

  function DigitValue(c: char): nat
    requires IsDigit(c)
  {
    c as int - '0' as int
  }

  /** The integer the leading digits spell, `acc` being what was read before them. */
  function ReadDigits(s: string, acc: nat): nat {
    if s == "" || !IsDigit(s[0]) then acc else ReadDigits(s[1..], 10 * acc + DigitValue(s[0]))
  }

  /** The digits after the point: 0.d0d1d2... */
  function ReadFraction(s: string): real {
    if s == "" || !IsDigit(s[0]) then 0.0 else (DigitValue(s[0]) as real + ReadFraction(s[1..])) / 10.0
  }

  function ReadUnsigned(s: string, acc: nat): real {
    if s == "" then acc as real
    else if IsDigit(s[0]) then ReadUnsigned(s[1..], 10 * acc + DigitValue(s[0]))
    else if s[0] == '.' then acc as real + ReadFraction(s[1..])
    else acc as real
  }

  /** Reading a number from an empty field leaves the variable as it was. */
  function ReadInt(s: string): Option<int> {
    if s == "" then None
    else if s[0] == '-' then Some(-(ReadDigits(s[1..], 0) as int))
    else Some(ReadDigits(if s[0] == '+' then s[1..] else s, 0))
  }

  function ReadReal(s: string): Option<real> {
    if s == "" then None
    else if s[0] == '-' then Some(-ReadUnsigned(s[1..], 0))
    else Some(ReadUnsigned(if s[0] == '+' then s[1..] else s, 0))
  }

  /** The next comma-separated field; once the line is used up, the previous field is seen again. */
  function NextField(rest: Option<string>, previous: string): (string, Option<string>) {
    match rest
    case None => (previous, None)
    case Some(s) => Cut(s, ',')
  }

  /** What one line assigns: the id (0 when absent) and two values, None where nothing was read. */
  datatype Line = Line(id: int, elevation: Option<real>, azimuth: Option<real>)

  function Fields(rest: Option<string>, previous: string, n: nat): (r: seq<string>)
    ensures |r| == n
    decreases n
  {
    if n == 0 then []
    else
      var (field, next) := NextField(rest, previous);
      [field] + Fields(next, field, n - 1)
  }

  function ReadLine(line: string): Line {
    var fields := Fields(Some(line), "", 3);
    var id := ReadInt(fields[0]);
    Line(if id.Some? then id.value else 0, ReadReal(fields[1]), ReadReal(fields[2]))
  }

  /** A loaded row; None stands for a value that was never assigned. */
  datatype LoadedRow = LoadedRow(elevation: Option<real>, azimuth: Option<real>)

  /** The rows after the title: a short line ends the table, a wrong id is still counted, then ends it. */
  function LoadRows(s: string, counter: nat): seq<LoadedRow>
    decreases |s|
  {
    if s == "" then []
    else
      var (line, rest) := Cut(s, '\n');
      if |line| < 5 then []
      else
        var l := ReadLine(line);
        if l.id != counter + 1 then [LoadedRow(None, None)]
        else [LoadedRow(l.elevation, l.azimuth)] + LoadRows(Remainder(rest), counter + 1)
  }

  function LoadTable(content: string): seq<LoadedRow> {
    LoadRows(Remainder(Cut(content, '\n').1), 0)
  }

  /** One counted line: stored in the scratch arrays when its id is the line count. */
  method StoreLine(line: string, lineCounter: nat, elevation: array<Option<real>>, azimuth: array<Option<real>>)
    returns (ok: bool)
    requires elevation != azimuth && elevation.Length == azimuth.Length == 64
    requires ReadLine(line).id == lineCounter ==> 1 <= lineCounter <= MAX_ROWS
    modifies elevation, azimuth
    ensures ok <==> ReadLine(line).id == lineCounter
    ensures elevation[..] == if ok then old(elevation[..])[lineCounter - 1 := ReadLine(line).elevation] else old(elevation[..])
    ensures azimuth[..] == if ok then old(azimuth[..])[lineCounter - 1 := ReadLine(line).azimuth] else old(azimuth[..])
  {
    var l := ReadLine(line);
    ok := l.id == lineCounter;
    if ok {
      elevation[l.id - 1], azimuth[l.id - 1] := l.elevation, l.azimuth;
    }
  }

  /** The first `n` rows of the two scratch arrays. */
  function Scratch(elevation: seq<Option<real>>, azimuth: seq<Option<real>>, n: nat): seq<LoadedRow>
    requires n <= |elevation| && n <= |azimuth|
  {
    seq(n, i requires 0 <= i < n => LoadedRow(elevation[i], azimuth[i]))
  }

  /** A counted line with the right id adds its row. */
  lemma LoadRowsNext(n: nat, rest: string)
    requires rest != "" && |Cut(rest, '\n').0| >= 5 && ReadLine(Cut(rest, '\n').0).id == n + 1
    ensures var (line, next) := Cut(rest, '\n');
            var l := ReadLine(line);
            LoadRows(rest, n) == [LoadedRow(l.elevation, l.azimuth)] + LoadRows(Remainder(next), n + 1)
  {
  }

  lemma LoadRowsCons(elevation: seq<Option<real>>, azimuth: seq<Option<real>>, n: nat, rest: string)
    requires n < |elevation| && n < |azimuth| && rest != "" && |Cut(rest, '\n').0| >= 5
    requires ReadLine(Cut(rest, '\n').0).id == n + 1
    ensures var (line, next) := Cut(rest, '\n');
            var l := ReadLine(line);
            Scratch(elevation, azimuth, n) + LoadRows(rest, n) ==
            Scratch(elevation[n := l.elevation], azimuth[n := l.azimuth], n + 1) + LoadRows(Remainder(next), n + 1)
  {
    var (line, next) := Cut(rest, '\n');
    var l := ReadLine(line);
    ScratchGrows(elevation, azimuth, n, l.elevation, l.azimuth);
    LoadRowsNext(n, rest);
    Reassociate(Scratch(elevation, azimuth, n), [LoadedRow(l.elevation, l.azimuth)], LoadRows(Remainder(next), n + 1));
  }

  lemma LoadRowsWrongId(elevation: seq<Option<real>>, azimuth: seq<Option<real>>, n: nat, rest: string)
    requires n < |elevation| && n < |azimuth| && elevation[n] == azimuth[n] == None
    requires rest != "" && |Cut(rest, '\n').0| >= 5 && ReadLine(Cut(rest, '\n').0).id != n + 1
    ensures Scratch(elevation, azimuth, n) + LoadRows(rest, n) == Scratch(elevation, azimuth, n + 1)
  {
  }

  lemma ScratchGrows(elevation: seq<Option<real>>, azimuth: seq<Option<real>>, n: nat, e: Option<real>, a: Option<real>)
    requires n < |elevation| && n < |azimuth|
    ensures Scratch(elevation[n := e], azimuth[n := a], n + 1) == Scratch(elevation, azimuth, n) + [LoadedRow(e, a)]
  {
  }

  ghost predicate UnassignedFrom(values: seq<Option<real>>, n: nat) {
    forall i :: n <= i < |values| ==> values[i] == None
  }

  /** One pass of the loop: what is stored plus what is still to come stays the same. */
  method LoadLine(rest: string, counter: nat, elevation: array<Option<real>>, azimuth: array<Option<real>>)
    returns (more: bool, rest': string, counter': nat)
    requires elevation != azimuth && elevation.Length == azimuth.Length == MAX_ROWS
    requires rest != "" && counter + |LoadRows(rest, counter)| <= MAX_ROWS
    requires UnassignedFrom(elevation[..], counter) && UnassignedFrom(azimuth[..], counter)
    modifies elevation, azimuth
    ensures counter' <= MAX_ROWS && |rest'| <= |rest| && (more ==> |rest'| < |rest|)
    ensures Scratch(elevation[..], azimuth[..], counter') + (if more then LoadRows(rest', counter') else [])
         == old(Scratch(elevation[..], azimuth[..], counter)) + LoadRows(rest, counter)
    ensures more ==> UnassignedFrom(elevation[..], counter') && UnassignedFrom(azimuth[..], counter')
  {
    var (line, next) := Cut(rest, '\n');
    rest', counter' := Remainder(next), counter;
    if |line| < 5 {
      return false, rest', counter';
    }
    if ReadLine(line).id == counter + 1 {
      LoadRowsCons(elevation[..], azimuth[..], counter, rest);
    } else {
      LoadRowsWrongId(elevation[..], azimuth[..], counter, rest);
    }
    counter' := counter + 1;
    more := StoreLine(line, counter', elevation, azimuth);
  }

  /** The loader's loop over the lines, with its two 64-entry scratch arrays. */
  method LoadCorrectionFile(content: string) returns (rows: seq<LoadedRow>)
    requires |LoadTable(content)| <= 64
    ensures rows == LoadTable(content)
  {
    var rest := Remainder(Cut(content, '\n').1);
    var elevation := new Option<real>[MAX_ROWS](_ => None);
    var azimuth := new Option<real>[MAX_ROWS](_ => None);
    var lineCounter: nat := 0;
    var more := true;
    while more && rest != ""
      invariant lineCounter <= MAX_ROWS && fresh(elevation) && fresh(azimuth)
      invariant Scratch(elevation[..], azimuth[..], lineCounter) + (if more then LoadRows(rest, lineCounter) else [])
             == LoadTable(content)
      invariant more ==> UnassignedFrom(elevation[..], lineCounter) && UnassignedFrom(azimuth[..], lineCounter)
      decreases more, |rest|
    {
      more, rest, lineCounter := LoadLine(rest, lineCounter, elevation, azimuth);
    }
    rows := CopyRows(elevation, azimuth, lineCounter);
  }

  method CopyRows(elevation: array<Option<real>>, azimuth: array<Option<real>>, n: nat) returns (rows: seq<LoadedRow>)
    requires n <= elevation.Length && n <= azimuth.Length
    ensures rows == Scratch(elevation[..], azimuth[..], n)
  {
    rows := [];
    for i := 0 to n
      invariant rows == Scratch(elevation[..], azimuth[..], i)
    {
      rows := rows + [LoadedRow(elevation[i], azimuth[i])];
    }
  }

  /** The text carried by a framed packet, when the announced length is the packet's size. */
  function Unframe(data: seq<byte>, size: nat): Option<string>
    requires FRAME_SIZE + size <= |data|
  {
    var length: int := 0x100_0000 * data[4] as int + 0x1_0000 * data[5] as int + 0x100 * data[6] as int + data[7];
    if length == size then Some(Text(data[FRAME_SIZE..FRAME_SIZE + size])) else None
  }

  // -------------------------------------------------------------- round trip

  lemma {:induction false} CutAt(a: string, c: char, rest: string)
    requires c !in a
    ensures Cut(a + [c] + rest, c) == (a, Some(rest))
    ensures Cut(a, c) == (a, None)
  {
    var s := a + [c] + rest;
    if a != "" {
      CutAt(a[1..], c, rest);
      assert s[1..] == a[1..] + [c] + rest && s[0] == a[0] != c;
      assert a == [a[0]] + a[1..];
    } else {
      assert s[0] == c && s[1..] == rest;
    }
  }

  /**
   Lines out of shape: a field that a line does not have repeats the field before
   it, and an id that is not there counts as 0.
   */
  lemma FieldsSeenAgain(a: string, b: string)
    requires ',' !in a && ',' !in b
    ensures ReadLine(a) == Line(if a == "" then 0 else ReadInt(a).value, ReadReal(a), ReadReal(a))
    ensures ReadLine(a + [','] + b) == Line(if a == "" then 0 else ReadInt(a).value, ReadReal(b), ReadReal(b))
  {
    CutAt(a, ',', b);
    CutAt(b, ',', "");
  }

  predicate AllDigits(s: string) {
    forall i :: 0 <= i < |s| ==> IsDigit(s[i])
  }

  lemma {:induction false} ReadDigitsSnoc(s: string, c: char, acc: nat)
    requires AllDigits(s) && IsDigit(c)
    ensures ReadDigits(s + [c], acc) == 10 * ReadDigits(s, acc) + DigitValue(c)
  {
    if s != "" {
      assert (s + [c])[1..] == s[1..] + [c];
      ReadDigitsSnoc(s[1..], c, 10 * acc + DigitValue(s[0]));
    } else {
      assert s + [c] == [c] && [c][1..] == "";
    }
  }

  lemma {:induction false} NatRoundTrip(n: nat)
    ensures PrintNat(n) != "" && AllDigits(PrintNat(n))
    ensures ReadDigits(PrintNat(n), 0) == n
  {
    assert IsDigit(Digit(n % 10)) && DigitValue(Digit(n % 10)) == n % 10;
    if n >= 10 {
      NatRoundTrip(n / 10);
      ReadDigitsSnoc(PrintNat(n / 10), Digit(n % 10), 0);
    } else {
      assert [Digit(n)][1..] == "";
    }
  }

  /** Reading a number stops at the first character that does not belong to it. */
  lemma {:induction false} ReadStops(whole: string, c: char, rest: string, acc: nat)
    requires AllDigits(whole) && !IsDigit(c)
    ensures ReadDigits(whole + [c] + rest, acc) == ReadDigits(whole, acc)
    ensures c != '.' ==> ReadUnsigned(whole + [c] + rest, acc) == ReadDigits(whole, acc) as real
  {
    var s := whole + [c] + rest;
    if whole != "" {
      assert s[1..] == whole[1..] + [c] + rest;
      ReadStops(whole[1..], c, rest, 10 * acc + DigitValue(whole[0]));
    } else {
      assert s[0] == c;
    }
  }

  /** An id with a sign in front of it, or something else behind it. */
  lemma SignedRoundTrip(n: nat, c: char, rest: string)
    requires !IsDigit(c)
    ensures ReadInt(PrintNat(n) + [c] + rest) == Some(n) == ReadInt("+" + PrintNat(n))
    ensures ReadInt("-" + PrintNat(n)).Some? && ReadInt("-" + PrintNat(n)).value + n == 0
    ensures ReadReal("+" + PrintNat(n)) == Some(n as real) && ReadReal("") == None
  {
    var digits := PrintNat(n);
    NatRoundTrip(n);
    ReadStops(digits, c, rest, 0);
    ReadParts(digits, "", 0);
    assert IsDigit(digits[0]) && (digits + [c] + rest)[0] == digits[0];
    assert ("+" + digits)[1..] == digits && ("-" + digits)[1..] == digits;
  }

  /** A run of digits, then a point and more digits or nothing, reads as the sum of the two parts. */
  lemma {:induction false} ReadParts(whole: string, fraction: string, acc: nat)
    requires AllDigits(whole)
    ensures ReadUnsigned(whole + "." + fraction, acc) == ReadDigits(whole, acc) as real + ReadFraction(fraction)
    ensures ReadUnsigned(whole, acc) == ReadDigits(whole, acc) as real
  {
    var s := whole + "." + fraction;
    if whole != "" {
      assert s[1..] == whole[1..] + "." + fraction;
      ReadParts(whole[1..], fraction, 10 * acc + DigitValue(whole[0]));
    } else {
      assert s == "." + fraction && s[1..] == fraction;
    }
  }

  lemma DigitsBehind(d: nat, rest: string, r: real)
    requires d < 10 && AllDigits(rest) && ReadFraction(rest) == r
    ensures AllDigits([Digit(d)] + rest) && ReadFraction([Digit(d)] + rest) == (d as real + r) / 10.0
  {
    var s := [Digit(d)] + rest;
    assert IsDigit(Digit(d)) && DigitValue(Digit(d)) == d && s[1..] == rest;
  }

  lemma FractionShrinks(f: nat)
    requires 0 < f < 1000
    ensures f % 100 * 10 < 1000 && FractionLength(f % 100 * 10) < FractionLength(f)
    ensures FractionDigits(f) == [Digit(f / 100)] + FractionDigits(f % 100 * 10)
  {
    ShiftedDigits(f);
  }

  lemma ShiftedDigits(f: nat)
    ensures f % 100 * 10 < 1000 && f % 100 * 10 % 10 == 0
    ensures f % 100 == 0 ==> f % 100 * 10 == 0
    ensures f % 10 == 0 ==> f % 100 * 10 % 100 == 0
  {
    var tens, ones := f % 100 / 10, f % 10;
    assert f % 100 == 10 * tens + ones;
    assert f % 100 * 10 == 100 * tens + 10 * ones;
  }

  lemma FirstDigit(f: nat)
    ensures ((f / 100) as real + (f % 100 * 10) as real / 1000.0) / 10.0 == f as real / 1000.0
  {
    assert f == 100 * (f / 100) + f % 100;
  }

  lemma {:induction false} FractionRoundTrip(f: nat)
    requires f < 1000
    ensures AllDigits(FractionDigits(f)) && ReadFraction(FractionDigits(f)) == f as real / 1000.0
    decreases FractionLength(f)
  {
    if f != 0 {
      FractionShrinks(f);
      FractionRoundTrip(f % 100 * 10);
      DigitsBehind(f / 100, FractionDigits(f % 100 * 10), (f % 100 * 10) as real / 1000.0);
      FirstDigit(f);
    }
  }

  lemma Thousandths(m: nat)
    ensures (m / 1000) as real + (m % 1000) as real / 1000.0 == m as real / 1000.0
  {
    assert m == 1000 * (m / 1000) + m % 1000;
  }

  lemma ReadMagnitude(whole: string, f: nat)
    requires AllDigits(whole) && f < 1000
    ensures ReadUnsigned(whole + PrintFraction(f), 0) == ReadDigits(whole, 0) as real + f as real / 1000.0
  {
    FractionRoundTrip(f);
    ReadParts(whole, FractionDigits(f), 0);
    assert whole + PrintFraction(f) == if f == 0 then whole else whole + "." + FractionDigits(f);
  }

  lemma MagnitudeRoundTrip(m: nat)
    ensures PrintMagnitude(m) != "" && IsDigit(PrintMagnitude(m)[0])
    ensures ReadUnsigned(PrintMagnitude(m), 0) == m as real / 1000.0
  {
    NatRoundTrip(m / 1000);
    ReadMagnitude(PrintNat(m / 1000), m % 1000);
    Thousandths(m);
  }

  lemma ReadNegative(body: string)
    ensures ReadReal("-" + body) == Some(-ReadUnsigned(body, 0))
  {
    assert ("-" + body)[1..] == body && ("-" + body)[0] == '-';
  }

  lemma ReadPositive(body: string)
    requires body != "" && IsDigit(body[0])
    ensures ReadReal(body) == Some(ReadUnsigned(body, 0))
  {
  }

  /** Reading back what was printed gives the exact value. */
  lemma NumberRoundTrip(v: int)
    ensures PrintThousandths(v) != "" && ReadReal(PrintThousandths(v)) == Some(v as real / 1000.0)
  {
    var m := if v < 0 then -v else v;
    MagnitudeRoundTrip(m);
    ReadNegative(PrintMagnitude(m));
    ReadPositive(PrintMagnitude(m));
  }

  predicate Plain(s: string) {
    forall i :: 0 <= i < |s| ==> IsDigit(s[i]) || s[i] == '.' || s[i] == '-'
  }

  lemma PrintedIsPlain(v: int)
    ensures Plain(PrintThousandths(v))
  {
    var m := if v < 0 then -v else v;
    NatRoundTrip(m / 1000);
    FractionRoundTrip(m % 1000);
    assert Plain(PrintMagnitude(m));
  }

  lemma FieldsOf(f0: string, f1: string, f2: string)
    requires ',' !in f0 && ',' !in f1 && ',' !in f2
    ensures Fields(Some(f0 + "," + f1 + "," + f2), "", 3) == [f0, f1, f2]
  {
    CutAt(f0, ',', f1 + "," + f2);
    CutAt(f1, ',', f2);
    CutAt(f2, ',', "");
    assert f0 + "," + f1 + "," + f2 == f0 + [','] + (f1 + "," + f2);
    assert Fields(Some(f2), f1, 1) == [f2];
    assert Fields(Some(f1 + "," + f2), f0, 2) == [f1] + Fields(Some(f2), f1, 1);
  }

  lemma IdRoundTrip(id: nat)
    ensures PrintNat(id) != "" && Plain(PrintNat(id)) && ReadInt(PrintNat(id)) == Some(id)
  {
    NatRoundTrip(id);
  }

  lemma ReadFields(f0: string, f1: string, f2: string, id: nat)
    requires ',' !in f0 && ',' !in f1 && ',' !in f2 && ReadInt(f0) == Some(id)
    ensures ReadLine(f0 + "," + f1 + "," + f2) == Line(id, ReadReal(f1), ReadReal(f2))
  {
    FieldsOf(f0, f1, f2);
  }

  lemma PlainFields(f0: string, f1: string, f2: string)
    requires Plain(f0) && Plain(f1) && Plain(f2)
    ensures ',' !in f0 && ',' !in f1 && ',' !in f2 && '\n' !in f0 + "," + f1 + "," + f2
  {
  }

  /** `row` is a line that loads as row number `id` with values `r`. */
  ghost predicate LoadsAs(row: string, id: nat, r: LoadedRow) {
    |row| >= 5 && '\n' !in row && ReadLine(row) == Line(id, r.elevation, r.azimuth)
  }

  lemma LoadRowsStep(row: string, rest: string, counter: nat, r: LoadedRow)
    requires LoadsAs(row, counter + 1, r)
    ensures LoadRows(row + "\n" + rest, counter) == [r] + LoadRows(rest, counter + 1)
  {
    CutAt(row, '\n', rest);
  }

  /** Three plain fields load as the numbers they spell. */
  lemma PlainRowLoads(f0: string, f1: string, f2: string, id: nat, r: LoadedRow)
    requires Plain(f0) && Plain(f1) && Plain(f2) && f0 != "" && f1 != "" && f2 != ""
    requires ReadInt(f0) == Some(id) && r == LoadedRow(ReadReal(f1), ReadReal(f2))
    ensures LoadsAs(f0 + "," + f1 + "," + f2, id, r)
  {
    PlainFields(f0, f1, f2);
    ReadFields(f0, f1, f2, id);
  }

  /** The loaded form of a table: every row present, every value exact. */
  function Exact(table: seq<Angles>): seq<LoadedRow> {
    if table == [] then [] else [ExactRow(table[0])] + Exact(table[1..])
  }

  function ExactRow(a: Angles): LoadedRow {
    LoadedRow(Some(a.elevation as real / 1000.0), Some(a.azimuth as real / 1000.0))
  }

  lemma RowRoundTrip(id: nat, a: Angles)
    ensures LoadsAs(PrintRow(id, a), id, ExactRow(a))
  {
    IdRoundTrip(id);
    NumberRoundTrip(a.elevation);
    NumberRoundTrip(a.azimuth);
    PrintedIsPlain(a.elevation);
    PrintedIsPlain(a.azimuth);
    PlainRowLoads(PrintNat(id), PrintThousandths(a.elevation), PrintThousandths(a.azimuth), id, ExactRow(a));
  }

  lemma {:induction false} RowsRoundTrip(table: seq<Angles>, counter: nat)
    ensures LoadRows(PrintRows(table, counter + 1), counter) == Exact(table)
    decreases |table|
  {
    if table != [] {
      RowRoundTrip(counter + 1, table[0]);
      LoadRowsStep(PrintRow(counter + 1, table[0]), PrintRows(table[1..], counter + 2), counter, ExactRow(table[0]));
      RowsRoundTrip(table[1..], counter + 1);
    }
  }

  ghost predicate Ascii(text: string) {
    forall i :: 0 <= i < |text| ==> text[i] as int < 0x80
  }

  lemma AsciiJoin(a: string, b: string)
    requires Ascii(a) && Ascii(b)
    ensures Ascii(a + b)
  {
  }

  lemma RowIsAscii(id: nat, a: Angles)
    ensures Ascii(PrintRow(id, a))
  {
    IdRoundTrip(id);
    PrintedIsPlain(a.elevation);
    PrintedIsPlain(a.azimuth);
  }

  lemma {:induction false} RowsAreAscii(table: seq<Angles>, first: nat)
    ensures Ascii(PrintRows(table, first))
    decreases |table|
  {
    if table != [] {
      var row := PrintRow(first, table[0]);
      RowIsAscii(first, table[0]);
      RowsAreAscii(table[1..], first + 1);
      AsciiJoin(row, "\n");
      AsciiJoin(row + "\n", PrintRows(table[1..], first + 1));
    }
  }

  /** A length below 2^31 in four bytes, the highest first. */
  lemma LengthBytes(n: nat)
    requires n < TWO_POW_31
    ensures 0x100_0000 * (n / 0x100_0000 % 0x100) + 0x1_0000 * (n / 0x1_0000 % 0x100) + 0x100 * (n / 0x100 % 0x100) + n % 0x100 == n
  {
    var a, b, c := n / 0x100, n / 0x1_0000, n / 0x100_0000;
    assert n == 0x100 * a + n % 0x100;
    assert a == 0x100 * b + a % 0x100;
    assert b == 0x100 * c + b % 0x100;
    assert c < 0x100;
  }

  lemma TextOfFrame(text: string)
    requires Ascii(text)
    ensures |FrameBytes(text)| == FRAME_SIZE + |text| && Text(FrameBytes(text)[FRAME_SIZE..FRAME_SIZE + |text|]) == text
  {
    assert FrameBytes(text)[FRAME_SIZE..FRAME_SIZE + |text|] == Bytes(text);
  }

  /** Unframing gives back the text, and only for the size it was framed with. */
  lemma FrameRoundTrip(text: string, size: nat)
    requires Ascii(text) && |text| < TWO_POW_31 && size <= |text|
    ensures |FrameBytes(text)| == FRAME_SIZE + |text|
    ensures Unframe(FrameBytes(text), size) == if size == |text| then Some(text) else None
  {
    LengthBytes(|text|);
    TextOfFrame(text);
  }

  lemma TitleIsSkipped(title: string, rows: string)
    requires '\n' !in title
    ensures LoadTable(title + "\n" + rows) == LoadRows(rows, 0)
  {
    CutAt(title, '\n', rows);
  }

  lemma TitledRoundTrip(title: string, table: seq<Angles>, text: string)
    requires '\n' !in title && Ascii(title) && text == title + "\n" + PrintRows(table, 1)
    ensures Ascii(text) && LoadTable(text) == Exact(table)
  {
    RowsAreAscii(table, 1);
    AsciiJoin(title, "\n");
    AsciiJoin(title + "\n", PrintRows(table, 1));
    TitleIsSkipped(title, PrintRows(table, 1));
    RowsRoundTrip(table, 0);
  }

  lemma TitleIsPlain()
    ensures '\n' !in TITLE && Ascii(TITLE)
  {
  }

  /** Angles below 1000 degrees in magnitude, which print exactly. */
  ghost predicate Printable(table: seq<Angles>) {
    forall i :: 0 <= i < |table| ==>
      -1_000_000 < table[i].elevation < 1_000_000 && -1_000_000 < table[i].azimuth < 1_000_000
  }

  lemma {:induction false} FractionIsShort(f: nat)
    requires f < 1000
    ensures |FractionDigits(f)| == FractionLength(f)
    decreases FractionLength(f)
  {
    if f != 0 {
      FractionIsShort(f % 100 * 10);
    }
  }

  lemma NatIsShort(n: nat)
    requires n < 1000
    ensures |PrintNat(n)| <= 3
  {
    assert n >= 10 ==> |PrintNat(n / 10)| <= 2 by {
      assert n >= 100 ==> |PrintNat(n / 10 / 10)| == 1;
    }
  }

  lemma {:induction false} RowsAreShort(table: seq<Angles>, first: nat)
    requires Printable(table) && first + |table| <= 1000
    ensures |PrintRows(table, first)| <= 22 * |table|
    decreases |table|
  {
    if table != [] {
      var a := table[0];
      NatIsShort(first);
      ThousandthsAreShort(a.elevation);
      ThousandthsAreShort(a.azimuth);
      RowsAreShort(table[1..], first + 1);
    }
  }

  lemma ThousandthsAreShort(v: int)
    requires -1_000_000 < v < 1_000_000
    ensures |PrintThousandths(v)| <= 8
  {
    var m := if v < 0 then -v else v;
    NatIsShort(m / 1000);
    FractionIsShort(m % 1000);
  }

  lemma TableIsShort(table: seq<Angles>)
    requires Printable(table) && |table| <= MAX_ROWS
    ensures |PrintTable(table)| < TWO_POW_31
  {
    RowsAreShort(table, 1);
  }

  /**
   Print, frame, unframe, parse: every row of a table of at most 64 rows of
   printable angles comes back exactly.
   */
  lemma CorrectionRoundTrip(table: seq<Angles>)
    requires Printable(table) && |table| <= 64
    ensures var text := PrintTable(table);
            && |FrameBytes(text)| == FRAME_SIZE + |text|
            && Unframe(FrameBytes(text), |text|) == Some(text)
            && LoadTable(text) == Exact(table)
  {
    TableIsShort(table);
    TitleIsPlain();
    TitledRoundTrip(TITLE, table, PrintTable(table));
    FrameRoundTrip(PrintTable(table), |PrintTable(table)|);
  }
}
