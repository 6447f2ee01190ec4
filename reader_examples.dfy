/** The records of the reader's unit tests, and how the paired reader pairs
    them. The test files are these records printed one after another, so
    FastqReading.ReadFormattedPairs reads them as ZipRecords of the lists. */
module ReaderExamples {
  import opened Common
  import opened Fastq
  import opened FastqReading

  const Mate1First: Record := FastqRecord("TESTA:1 R1", "AGCT", [1, 2, 3, 4])
  const Mate1Second: Record := FastqRecord("TESTA:2 R1", "TCGA", [5, 6, 7, 8])
  const Mate2First: Record := FastqRecord("TESTA:1 R2", "CCGT", [1, 4, 8, 3])
  const Mate2Second: Record := FastqRecord("TESTA:2 R2", "GTCT", [0, 9, 6, 8])

  /** FASTQRecord("TESTA:1 R1", "AGCT", "1234") decodes its qualities. */
  lemma RecordDecodesQualities()
    ensures NewRecord("TESTA:1 R1", "AGCT", "1234") == Ok(Mate1First)
  {
    var line := "1234";
    assert line[0] == '1' && line[1] == '2' && line[2] == '3' && line[3] == '4';
    var q := QualStrToNum(line);
    assert q.Ok? && |q.value| == 4;
    assert q.value[0] == 1 && q.value[1] == 2 && q.value[2] == 3 && q.value[3] == 4;
    assert q.value == [1, 2, 3, 4];
  }

  lemma TestMateIds()
    ensures MateId(Mate1First.name) == MateId(Mate2First.name) == "TESTA:1"
    ensures MateId(Mate1Second.name) == MateId(Mate2Second.name) == "TESTA:2"
  {
    assert "TESTA:1 R1" == "TESTA:1" + " " + "R1";
    assert "TESTA:1 R2" == "TESTA:1" + " " + "R2";
    assert "TESTA:2 R1" == "TESTA:2" + " " + "R1";
    assert "TESTA:2 R2" == "TESTA:2" + " " + "R2";
    MateIdOfSuffixedName("TESTA:1", "R1");
    MateIdOfSuffixedName("TESTA:1", "R2");
    MateIdOfSuffixedName("TESTA:2", "R1");
    MateIdOfSuffixedName("TESTA:2", "R2");
  }

  /** Two records a side whose mates agree pair up positionally. */
  lemma ZipTwo<Q>(a1: FastqRecord<Q>, a2: FastqRecord<Q>, b1: FastqRecord<Q>, b2: FastqRecord<Q>)
    requires MateId(a1.name) == MateId(b1.name) && MateId(a2.name) == MateId(b2.name)
    ensures ZipRecords([a1, a2], [b1, b2]) == Ok([PairedRecord(a1, b1), PairedRecord(a2, b2)])
  {
    var rs1, rs2 := [a1, a2], [b1, b2];
    assert MatesAgree(rs1, rs2, 2);
    var z := ZipRecords(rs1, rs2);
    var expected := [PairedRecord(a1, b1), PairedRecord(a2, b2)];
    assert z.Ok? && |z.value| == 2;
    assert z.value[0] == expected[0] && z.value[1] == expected[1];
    assert z.value == expected;
  }

  /** Two records against one whose mate agrees: the lengths differ. */
  lemma ZipTwoAgainstOne<Q>(a1: FastqRecord<Q>, a2: FastqRecord<Q>, b1: FastqRecord<Q>)
    requires MateId(a1.name) == MateId(b1.name)
    ensures ZipRecords([a1, a2], [b1]) == Err(DifferentLength)
  {
    assert MatesAgree([a1, a2], [b1], 1);
  }

  /** The test files, read through ReadFormattedPairs: two files of two
      records each pair the first records, then the second ones, and end; a
      file of two records against one of one record is a length error. */
  lemma PairTestRecords()
    ensures ZipRecords([Mate1First, Mate1Second], [Mate2First, Mate2Second]) ==
      Ok([PairedRecord(Mate1First, Mate2First), PairedRecord(Mate1Second, Mate2Second)])
    ensures ZipRecords([Mate1First, Mate2First], [Mate2First]) == Err(DifferentLength)
  {
    TestMateIds();
    ZipTwo(Mate1First, Mate1Second, Mate2First, Mate2Second);
    ZipTwoAgainstOne(Mate1First, Mate2First, Mate2First);
  }
}
