/**
 * Queue numbers of developer applications: `DEV-<year>-<sequence>`, where
 * the sequence is the number of stored applications plus one, written in
 * decimal and left-padded with zeros to at least three digits.
 */
module QueueNumber {
  import opened Text
  import opened Wrappers

  /** `String(seqNo).padStart(3, '0')`. */
  function SequenceText(seqNo: nat): string {
    PadStart(NatToString(seqNo), 3, '0')
  }

  /** `DEV-${year}-${number}`. */
  function Format(year: nat, seqNo: nat): string {
    "DEV-" + (NatToString(year) + "-" + SequenceText(seqNo))
  }

  /** Position of the first `c` in `s`, or `|s|` when there is none. */
  function FindChar(s: string, c: char): (i: nat)
    ensures i <= |s|
    ensures i < |s| ==> s[i] == c
    ensures forall j :: 0 <= j < i ==> s[j] != c
  {
    if s == [] then 0 else if s[0] == c then 0 else 1 + FindChar(s[1..], c)
  }

  /** Reads a queue number back into its year and sequence number. */
  function Parse(q: string): Option<(nat, nat)> {
    if |q| < 4 || q[..4] != "DEV-" then None else ParseFields(q[4..])
  }

  /** The part after `DEV-`: digits, a dash, digits. */
  function ParseFields(rest: string): Option<(nat, nat)> {
    var k := FindChar(rest, '-');
    if k == |rest| then None
    else
      var year := rest[..k];
      var number := rest[k + 1..];
      if year != [] && number != [] && AllDigits(year) && AllDigits(number)
      then Some((ParseNat(year), ParseNat(number)))
      else None
  }

  /** The first dash after a run of digits is the one that ends it. */
  lemma DashAfterDigits(y: string, p: string)
    requires AllDigits(y)
    ensures FindChar(y + "-" + p, '-') == |y|
  {
    var rest := y + "-" + p;
    assert rest[|y|] == '-';
    forall j | 0 <= j < |y| ensures rest[j] != '-' {
      assert rest[j] == y[j];
    }
  }

  /** Two digit runs joined by a dash read back as their values. */
  lemma ParseFieldsJoined(y: string, p: string)
    requires y != [] && p != [] && AllDigits(y) && AllDigits(p)
    ensures ParseFields(y + "-" + p) == Some((ParseNat(y), ParseNat(p)))
  {
    var rest := y + "-" + p;
    DashAfterDigits(y, p);
    assert rest[..|y|] == y && rest[|y| + 1..] == p;
  }

  /** Parsing strips the `DEV-` prefix and reads the rest. */
  lemma ParsePrefixed(rest: string)
    ensures Parse("DEV-" + rest) == ParseFields(rest)
  {
    var q := "DEV-" + rest;
    assert q[..4] == "DEV-" && q[4..] == rest;
  }

  /** A `DEV-` prefix followed by two digit runs joined by a dash reads back as their values. */
  lemma ParseJoined(y: string, p: string)
    requires y != [] && p != [] && AllDigits(y) && AllDigits(p)
    ensures Parse("DEV-" + (y + "-" + p)) == Some((ParseNat(y), ParseNat(p)))
  {
    ParseFieldsJoined(y, p);
    ParsePrefixed(y + "-" + p);
  }

  /** Reading a formatted queue number gives back the year and the sequence number. */
  lemma ParseFormat(year: nat, seqNo: nat)
    ensures Parse(Format(year, seqNo)) == Some((year, seqNo))
  {
    var y := NatToString(year);
    var p := SequenceText(seqNo);
    ParseNatToString(year);
    ParseNatToString(seqNo);
    ParsePadded(NatToString(seqNo), 3);
    PadStartShape(NatToString(seqNo), 3, '0');
    ParseJoined(y, p);
  }

  /** Distinct (year, sequence) pairs never share a queue number. */
  lemma FormatInjective(y1: nat, s1: nat, y2: nat, s2: nat)
    ensures Format(y1, s1) == Format(y2, s2) ==> y1 == y2 && s1 == s2
  {
    ParseFormat(y1, s1);
    ParseFormat(y2, s2);
  }

  /** The sequence part has three characters below 1000 and is the full decimal number from 1000 on: nothing is cut. */
  lemma SequenceTextWidth(seqNo: nat)
    ensures seqNo < 1000 ==> |SequenceText(seqNo)| == 3
    ensures seqNo >= 1000 ==> SequenceText(seqNo) == NatToString(seqNo)
  {
    DecimalLength(seqNo);
  }

  /** How many digits `String(n)` has, for the thresholds that matter. */
  lemma {:induction false} DecimalLength(n: nat)
    ensures n < 100 ==> |NatToString(n)| <= 2
    ensures n < 1000 ==> |NatToString(n)| <= 3
    ensures n >= 100 ==> |NatToString(n)| >= 3
    ensures n >= 1000 ==> |NatToString(n)| >= 4
  {
    if n >= 10 {
      DecimalLength(n / 10);
      assert |NatToString(n)| == |NatToString(n / 10)| + 1;
    }
  }

  /** The first two sequence numbers, as they are displayed. */
  lemma FirstSequenceTexts()
    ensures SequenceText(1) == "001" && SequenceText(2) == "002"
  {
    assert NatToString(1) == "1" && NatToString(2) == "2";
    assert Repeat('0', 2) == "00";
  }

  lemma SampleQueueNumbers()
    ensures Format(2025, 7) == "DEV-2025-007"
    ensures Format(2025, 1200) == "DEV-2025-1200"
  {
  }
}
