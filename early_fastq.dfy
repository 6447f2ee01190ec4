/** The earlier snapshot of the reader (fastq_reader.py at the repository
    root). Its FASTQReader.__next__, PairedFASTQRecord and PairedFASTQReader
    are the same code as the later ones and share their model; what differs
    is FASTQRecord, which keeps the quality line as the raw string. */
module EarlyFastq {
  import opened Common
  import opened Fastq
  import opened FastqReading

  /** The earlier record: quality kept as the raw line. */
  type RawRecord = FastqRecord<string>

  /** FASTQRecord(name, sequence, quality) of the earlier snapshot: three
      plain assignments, which cannot fail. */
  function NewRawRecord(name: string, sequence: string, quality: string): (r: Result<RawRecord, ReadError>)
    ensures r.Ok?
    ensures r.value.name == name && r.value.sequence == sequence && r.value.quality == quality
  {
    Ok(FastqRecord(name, sequence, quality))
  }

  /** One step of the earlier reader: the only error is the incomplete record,
      and a record holds its three lines, each without the last character. */
  lemma RawStep(lines: seq<string>, pos: nat)
    requires pos <= |lines|
    ensures var (s, p) := ReadStep(NewRawRecord, lines, pos);
      (s.Error? <==> pos < |lines| < pos + 4) &&
      (s.Error? ==> s.error == IncompleteRecord && p == |lines|) &&
      (pos + 4 <= |lines| ==> s == Item(FastqRecord(Chomp(lines[pos]), Chomp(lines[pos + 1]), Chomp(lines[pos + 3]))) && p == pos + 4)
  {
  }

  /** The earlier reader drains a file without error exactly when the lines
      left come in whole groups of four, one record per group. */
  lemma {:induction false} RawReadAll(lines: seq<string>, pos: nat)
    requires pos <= |lines|
    ensures ReadAll(NewRawRecord, lines, pos).Ok? <==> (|lines| - pos) % 4 == 0
    ensures ReadAll(NewRawRecord, lines, pos).Err? ==> ReadAll(NewRawRecord, lines, pos).error == IncompleteRecord
    decreases |lines| - pos
  {
    RawStep(lines, pos);
    if pos + 4 <= |lines| {
      RawReadAll(lines, pos + 4);
      ReadAllAfterItem(NewRawRecord, lines, pos);
      RemainderAfterFour(|lines| - (pos + 4));
    } else {
      ShortReadAll(NewRawRecord, lines, pos);
    }
  }

  /** Two files of whole records: the earlier paired reader pairs the n-th
      records positionally, and fails with a length or a mate error exactly as
      ZipRecords does. */
  lemma RawPairAll(lines1: seq<string>, lines2: seq<string>)
    requires |lines1| % 4 == 0 && |lines2| % 4 == 0
    ensures ReadAll(NewRawRecord, lines1, 0).Ok? && ReadAll(NewRawRecord, lines2, 0).Ok?
    ensures PairAll(NewRawRecord, lines1, 0, lines2, 0).result ==
      ZipRecords(ReadAll(NewRawRecord, lines1, 0).value, ReadAll(NewRawRecord, lines2, 0).value)
  {
    RawReadAll(lines1, 0);
    RawReadAll(lines2, 0);
    PairAllOfWellFormed(NewRawRecord, lines1, 0, lines2, 0);
  }
}
