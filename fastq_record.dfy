/** FASTQ records, the digit-per-character quality codec, the printed form of
    a record, and the mate check of a paired record. */
module Fastq {
  import opened Common

  /** One FASTQ read: the name line, the sequence line and the quality line,
      each without its terminator. The quality type Q is seq<int> in the later
      FASTQRecord, which decodes the quality line, and string in the earlier
      one, which keeps it raw. */
  datatype FastqRecord<Q> = FastqRecord(name: string, sequence: string, quality: Q)

  /** The later record: quality decoded to one int per character. */
  type Record = FastqRecord<seq<int>>

  /** Two reads of the same fragment, one per mate. */
  datatype PairedRecord<Q> = PairedRecord(read1: FastqRecord<Q>, read2: FastqRecord<Q>)

  // ---------------------------------------------------------------------------
  // Quality codec: one decimal digit per base.
  // ---------------------------------------------------------------------------

  predicate IsDigit(c: char)
  {
    '0' <= c <= '9'
  }

  predicate IsDigits(s: string)
  {
    forall i :: 0 <= i < |s| ==> IsDigit(s[i])
  }

  /** Every value is one a single decimal digit can stand for. */
  predicate InDigitRange(q: seq<int>)
  {
    forall i :: 0 <= i < |q| ==> 0 <= q[i] <= 9
  }

  function DigitChar(d: int): (c: char)
    requires 0 <= d <= 9
    ensures IsDigit(c) && c as int - '0' as int == d
  {
    ('0' as int + d) as char
  }

  /** qual_str2num: int(c) for every character, in order; int() raises
      ValueError at the first character that is not a digit. */
  function QualStrToNum(quality: string): (r: Result<seq<int>, ReadError>)
    ensures r.Ok? <==> IsDigits(quality)
    ensures r.Err? ==> r.error == InvalidQuality
    ensures r.Ok? ==> |r.value| == |quality|
    ensures r.Ok? ==> forall i :: 0 <= i < |quality| ==> r.value[i] == quality[i] as int - '0' as int
  {
    if quality == [] then Ok([])
    else if !IsDigit(quality[0]) then Err(InvalidQuality)
    else
      match QualStrToNum(quality[1..])
      case Ok(rest) => Ok([quality[0] as int - '0' as int] + rest)
      case Err(e) => Err(e)
  }

  /** The value of a string of decimal digits. */
  function DecimalValue(s: string): nat
    requires IsDigits(s)
  {
    if s == [] then 0 else 10 * DecimalValue(s[..|s| - 1]) + (s[|s| - 1] as int - '0' as int)
  }

  /** str(n) for a non-negative int: its decimal digits, no leading zero. */
  function NatToStr(n: nat): (s: string)
    ensures s != [] && IsDigits(s)
    ensures |s| == 1 <==> n < 10
    ensures s[0] == '0' ==> n == 0
    decreases n
  {
    if n < 10 then [DigitChar(n)] else NatToStr(n / 10) + [DigitChar(n % 10)]
  }

  /** str(i): a '-' in front of the digits of a negative value. */
  function IntToStr(i: int): string
  {
    if i < 0 then "-" + NatToStr(-i) else NatToStr(i)
  }

  /** qual_num2str: str(i) of every value, joined in order. */
  function QualNumToStr(q: seq<int>): (s: string)
    ensures InDigitRange(q) ==> |s| == |q| && forall i :: 0 <= i < |q| ==> s[i] == DigitChar(q[i])
  {
    if q == [] then "" else IntToStr(q[0]) + QualNumToStr(q[1..])
  }

  /** str() and the decimal value are inverse on naturals. */
  lemma {:induction false} NatToStrValue(n: nat)
    ensures DecimalValue(NatToStr(n)) == n
    decreases n
  {
    var s := NatToStr(n);
    if n >= 10 {
      NatToStrValue(n / 10);
      assert s[..|s| - 1] == NatToStr(n / 10);
    }
  }

  /** Decoding the printed qualities gives them back, when each is one digit. */
  lemma {:induction false} QualNumStrRoundTrip(q: seq<int>)
    requires InDigitRange(q)
    ensures QualStrToNum(QualNumToStr(q)) == Ok(q)
  {
    var s := QualNumToStr(q);
    assert IsDigits(s);
    var r := QualStrToNum(s);
    assert |r.value| == |q|;
    forall i | 0 <= i < |q| ensures r.value[i] == q[i] {
      assert s[i] == DigitChar(q[i]);
    }
    assert r.value == q;
  }

  /** Printing the decoded qualities gives back a digit string. */
  lemma {:induction false} QualStrNumRoundTrip(s: string)
    requires IsDigits(s)
    ensures QualStrToNum(s).Ok? && QualNumToStr(QualStrToNum(s).value) == s
  {
    var q := QualStrToNum(s).value;
    assert InDigitRange(q);
    var t := QualNumToStr(q);
    forall i | 0 <= i < |s| ensures t[i] == s[i] {
      assert t[i] == DigitChar(q[i]);
    }
  }

  /** The round trip needs one digit per value: 10 prints as two characters
      and comes back as two values. */
  lemma MultiDigitQualityDoesNotRoundTrip()
    ensures QualNumToStr([10]) == "10"
    ensures QualStrToNum(QualNumToStr([10])) == Ok([1, 0])
  {
    assert NatToStr(10) == NatToStr(1) + [DigitChar(0)] == "10";
    assert QualNumToStr([10]) == "10";
    var r := QualStrToNum("10");
    assert r.Ok? && |r.value| == 2;
    assert r.value[0] == 1 && r.value[1] == 0;
    assert r.value == [1, 0];
  }

  // ---------------------------------------------------------------------------
  // FASTQRecord
  // ---------------------------------------------------------------------------

  /** FASTQRecord(name, sequence, quality) of the later snapshot: the name and
      sequence are stored as given, the quality line is decoded. */
  function NewRecord(name: string, sequence: string, quality: string): (r: Result<Record, ReadError>)
    ensures r.Ok? <==> IsDigits(quality)
    ensures r.Err? ==> r.error == InvalidQuality
    ensures r.Ok? ==> r.value.name == name && r.value.sequence == sequence
    ensures r.Ok? ==> InDigitRange(r.value.quality) && QualNumToStr(r.value.quality) == quality
  {
    match QualStrToNum(quality)
    case Ok(q) =>
      QualStrNumRoundTrip(quality);
      Ok(FastqRecord(name, sequence, q))
    case Err(e) => Err(e)
  }

  /** A record str() can print so that it reads back as itself: no line break
      inside the name or the sequence, one digit per quality value. */
  predicate Printable(r: Record)
  {
    '\n' !in r.name && '\n' !in r.sequence && InDigitRange(r.quality)
  }

  /** str(record): the four lines of the record, the separator written as "+". */
  function Format(r: Record): string
  {
    r.name + "\n" + r.sequence + "\n" + "+\n" + QualNumToStr(r.quality) + "\n"
  }

  // ---------------------------------------------------------------------------
  // PairedFASTQRecord
  // ---------------------------------------------------------------------------

  /** name.split(' ')[0]: the name up to its first space character (a literal
      ' ', not any whitespace), or the whole name when it has none. */
  function MateId(name: string): (id: string)
    ensures id <= name
    ensures ' ' !in id
    ensures |id| < |name| ==> name[|id|] == ' '
  {
    if name == [] || name[0] == ' ' then [] else [name[0]] + MateId(name[1..])
  }

  /** PairedFASTQRecord(read1, read2): the pair, or FASTQError when the names
      differ before their first space. */
  function MakePaired<Q>(read1: FastqRecord<Q>, read2: FastqRecord<Q>): (r: Result<PairedRecord<Q>, ReadError>)
    ensures r.Ok? <==> MateId(read1.name) == MateId(read2.name)
    ensures r.Ok? ==> r.value.read1 == read1 && r.value.read2 == read2
    ensures r.Err? ==> r.error == MismatchedPair
  {
    if MateId(read1.name) != MateId(read2.name) then Err(MismatchedPair)
    else Ok(PairedRecord(read1, read2))
  }

  /** A sequencer's mate names share the read identifier before the space and
      differ after it ("TESTA:1 R1" and "TESTA:1 R2"). */
  lemma {:induction false} MateIdOfSuffixedName(id: string, suffix: string)
    requires ' ' !in id
    ensures MateId(id) == id
    ensures MateId(id + " " + suffix) == id
  {
    var name := id + " " + suffix;
    var m := MateId(name);
    assert name[|id|] == ' ';
    assert m == name[..|m|] == id;
  }

  /** Names with the same identifier pair whatever follows the space; names
      whose identifiers differ do not pair. */
  lemma {:induction false} PairingBySuffixedNames<Q>(id1: string, id2: string, s1: string, s2: string, q1: Q, q2: Q, seq1: string, seq2: string)
    requires ' ' !in id1 && ' ' !in id2
    ensures MakePaired(FastqRecord(id1 + " " + s1, seq1, q1), FastqRecord(id2 + " " + s2, seq2, q2)).Ok? <==> id1 == id2
  {
    MateIdOfSuffixedName(id1, s1);
    MateIdOfSuffixedName(id2, s2);
  }
}
