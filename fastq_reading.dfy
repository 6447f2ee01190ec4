/** FASTQReader and PairedFASTQReader: records read four lines at a time from
    a text file, and two such readers advanced in lockstep. The readers are
    generic in the record's quality type, because the two snapshots of
    FASTQReader.__next__ are the same code and differ only in the FASTQRecord
    constructor they call (`construct` below). */
module FastqReading {
  import opened Common
  import opened Fastq
  import opened TextSource

  /** line[:-1]: the line without its last character, whatever that character
      is; an empty line stays empty. */
  function Chomp(line: string): string
  {
    if |line| == 0 then [] else line[..|line| - 1]
  }

  /** The FASTQRecord constructor, called with the name, sequence and quality fields. */
  type Constructor<Q> = (string, string, string) -> Result<FastqRecord<Q>, ReadError>

  // ---------------------------------------------------------------------------
  // One record
  // ---------------------------------------------------------------------------

  /** One call of FASTQReader.__next__ on a file whose first `pos` lines are
      consumed: the outcome, and how many lines are consumed afterwards. */
  function ReadStep<Q>(construct: Constructor<Q>, lines: seq<string>, pos: nat): (r: (Step<FastqRecord<Q>>, nat))
    requires pos <= |lines|
    ensures pos <= r.1 <= |lines|
    // Clean end exactly when no line is left, and nothing is consumed.
    ensures r.0.End? <==> pos == |lines|
    ensures r.0.End? ==> r.1 == pos
    // A name line with fewer than three lines after it: error, file drained.
    ensures pos < |lines| < pos + 4 ==> r == (Error(IncompleteRecord), |lines|)
    // Otherwise exactly four lines are consumed; the fields are lines 1, 2
    // and 4 without their last character, and line 3 is never looked at.
    ensures pos + 4 <= |lines| ==> r.1 == pos + 4
    ensures pos + 4 <= |lines| ==>
      var made := construct(Chomp(lines[pos]), Chomp(lines[pos + 1]), Chomp(lines[pos + 3]));
      (made.Ok? ==> r.0 == Item(made.value)) && (made.Err? ==> r.0 == Error(made.error))
    ensures r.0.Item? ==> r.1 == pos + 4
  {
    if pos == |lines| then (End, pos)
    else if |lines| < pos + 4 then (Error(IncompleteRecord), |lines|)
    else
      match construct(Chomp(lines[pos]), Chomp(lines[pos + 1]), Chomp(lines[pos + 3]))
      case Ok(record) => (Item(record), pos + 4)
      case Err(e) => (Error(e), pos + 4)
  }

  /** The separator line is read and discarded: whatever it holds, the step is the same. */
  lemma SeparatorIgnored<Q>(construct: Constructor<Q>, lines: seq<string>, pos: nat, separator: string)
    requires pos + 2 < |lines|
    ensures ReadStep(construct, lines[pos + 2 := separator], pos) == ReadStep(construct, lines, pos)
  {
  }

  class FastqReader<Q> {
    const file: TextFile
    const construct: Constructor<Q>

    ghost predicate Valid()
      reads this, file
    {
      file.Valid()
    }

    /** FASTQReader(file). */
    constructor (file: TextFile, construct: Constructor<Q>)
      requires file.Valid()
      ensures Valid() && this.file == file && this.construct == construct
    {
      this.file := file;
      this.construct := construct;
    }

    /** __next__: four next() calls on the file; StopIteration on the first is
        a clean end, on any later one an incomplete record. */
    method Next() returns (s: Step<FastqRecord<Q>>)
      requires Valid()
      modifies file
      ensures Valid()
      ensures (s, file.pos) == ReadStep(construct, file.lines, old(file.pos))
    {
      var nameLine := file.NextLine();
      if nameLine.None? {
        return End;
      }
      var sequenceLine := file.NextLine();
      if sequenceLine.None? {
        return Error(IncompleteRecord);
      }
      var separatorLine := file.NextLine();
      if separatorLine.None? {
        return Error(IncompleteRecord);
      }
      var qualityLine := file.NextLine();
      if qualityLine.None? {
        return Error(IncompleteRecord);
      }
      var made := construct(Chomp(nameLine.value), Chomp(sequenceLine.value), Chomp(qualityLine.value));
      match made {
        case Ok(record) => s := Item(record);
        case Err(e) => s := Error(e);
      }
    }
  }

  /** The first k steps from line `pos` each yield a record. */
  ghost predicate ItemsBefore<Q>(construct: Constructor<Q>, lines: seq<string>, pos: nat, k: nat)
  {
    pos + 4 * k <= |lines| &&
    forall i :: 0 <= i < k ==> ReadStep(construct, lines, pos + 4 * i).0.Item?
  }

  lemma ItemsBeforeCons<Q>(construct: Constructor<Q>, lines: seq<string>, pos: nat, k: nat)
    requires pos <= |lines| && ReadStep(construct, lines, pos).0.Item?
    requires ItemsBefore(construct, lines, pos + 4, k)
    ensures ItemsBefore(construct, lines, pos, k + 1)
  {
    forall i | 0 <= i < k + 1 ensures ReadStep(construct, lines, pos + 4 * i).0.Item? {
      if i > 0 {
        assert pos + 4 * i == (pos + 4) + 4 * (i - 1);
      }
    }
  }

  /** Iterating a reader to its end: every record, or the first error. */
  function ReadAll<Q>(construct: Constructor<Q>, lines: seq<string>, pos: nat): (r: Result<seq<FastqRecord<Q>>, ReadError>)
    requires pos <= |lines|
    // The first step ends the file: no records; the first step fails: its error.
    ensures ReadStep(construct, lines, pos).0.End? ==> r == Ok([])
    ensures ReadStep(construct, lines, pos).0.Error? ==> r == Err(ReadStep(construct, lines, pos).0.error)
    ensures r.Ok? ==> |lines| - pos == 4 * |r.value|
    ensures r.Ok? ==> forall i :: 0 <= i < |r.value| ==> ReadStep(construct, lines, pos + 4 * i).0 == Item(r.value[i])
    decreases |lines| - pos
  {
    var step := ReadStep(construct, lines, pos);
    match step.0
    case End => Ok([])
    case Error(e) => Err(e)
    case Item(record) =>
      match ReadAll(construct, lines, step.1)
      case Ok(rest) =>
        assert forall i :: 1 <= i < |rest| + 1 ==> pos + 4 * i == step.1 + 4 * (i - 1);
        Ok([record] + rest)
      case Err(e) => Err(e)
  }

  /** A drain that fails stops at its first failing step: every step before
      it yields a record, and the drain's error is that step's error. */
  lemma ReadAllError<Q>(construct: Constructor<Q>, lines: seq<string>, pos: nat)
    requires pos <= |lines| && ReadAll(construct, lines, pos).Err?
    ensures exists k: nat ::
              ItemsBefore(construct, lines, pos, k) &&
              ReadStep(construct, lines, pos + 4 * k).0 == Error(ReadAll(construct, lines, pos).error)
  {
    var k := FirstFailure(construct, lines, pos, ReadAll(construct, lines, pos).error);
  }

  /** The number of records a failing drain reads before its failing step. */
  lemma {:induction false} FirstFailure<Q>(construct: Constructor<Q>, lines: seq<string>, pos: nat, e: ReadError) returns (k: nat)
    requires pos <= |lines| && ReadAll(construct, lines, pos) == Err(e)
    ensures ItemsBefore(construct, lines, pos, k) && ReadStep(construct, lines, pos + 4 * k).0 == Error(e)
    decreases |lines| - pos
  {
    if ReadStep(construct, lines, pos).0.Item? {
      ReadAllAfterItem(construct, lines, pos);
      var j := FirstFailure(construct, lines, pos + 4, e);
      ItemsBeforeCons(construct, lines, pos, j);
      k := j + 1;
      assert pos + 4 * k == pos + 4 + 4 * j;
    } else {
      k := 0;
      assert pos + 4 * k == pos;
    }
  }

  /** The quality lines of the records left from line `pos` are all digits. */
  ghost predicate DigitQualities(lines: seq<string>, pos: nat)
    requires pos <= |lines|
  {
    forall k :: 0 <= k < (|lines| - pos) / 4 ==> IsDigits(Chomp(lines[pos + 4 * k + 3]))
  }

  lemma DigitQualitiesCons(lines: seq<string>, pos: nat)
    requires pos + 4 <= |lines|
    ensures DigitQualities(lines, pos) <==> IsDigits(Chomp(lines[pos + 3])) && DigitQualities(lines, pos + 4)
  {
    var n := (|lines| - pos) / 4;
    assert (|lines| - (pos + 4)) / 4 == n - 1;
    if DigitQualities(lines, pos) {
      assert IsDigits(Chomp(lines[pos + 4 * 0 + 3]));
      forall k | 0 <= k < n - 1 ensures IsDigits(Chomp(lines[pos + 4 + 4 * k + 3])) {
        assert pos + 4 + 4 * k + 3 == pos + 4 * (k + 1) + 3;
      }
    }
    if IsDigits(Chomp(lines[pos + 3])) && DigitQualities(lines, pos + 4) {
      forall k | 0 <= k < n ensures IsDigits(Chomp(lines[pos + 4 * k + 3])) {
        if k > 0 {
          assert pos + 4 * k + 3 == pos + 4 + 4 * (k - 1) + 3;
        }
      }
    }
  }

  /** The later reader drains a file without error exactly when the lines left
      come in whole groups of four and every quality line, without its last
      character, is all digits; its errors are the incomplete record and the
      ValueError of a non-digit quality. */
  lemma DecodedReadAll(lines: seq<string>, pos: nat)
    requires pos <= |lines|
    ensures ReadAll(NewRecord, lines, pos).Ok? <==> (|lines| - pos) % 4 == 0 && DigitQualities(lines, pos)
    ensures ReadAll(NewRecord, lines, pos).Err? ==>
      ReadAll(NewRecord, lines, pos).error in {IncompleteRecord, InvalidQuality}
  {
    DecodedReadAllOk(lines, pos);
    ReadAllErrors(NewRecord, lines, pos, {InvalidQuality});
  }

  /** A drain fails only with the incomplete record or with an error the
      record constructor raises. */
  lemma {:induction false} ReadAllErrors<Q>(construct: Constructor<Q>, lines: seq<string>, pos: nat, errors: set<ReadError>)
    requires pos <= |lines|
    requires forall name, sequence, quality :: construct(name, sequence, quality).Err? ==> construct(name, sequence, quality).error in errors
    ensures ReadAll(construct, lines, pos).Err? ==> ReadAll(construct, lines, pos).error in errors + {IncompleteRecord}
    decreases |lines| - pos
  {
    if pos + 4 <= |lines| {
      ReadAllErrors(construct, lines, pos + 4, errors);
    }
  }

  lemma {:induction false} DecodedReadAllOk(lines: seq<string>, pos: nat)
    requires pos <= |lines|
    ensures ReadAll(NewRecord, lines, pos).Ok? <==> (|lines| - pos) % 4 == 0 && DigitQualities(lines, pos)
    decreases |lines| - pos
  {
    if pos + 4 <= |lines| {
      DecodedReadAllOk(lines, pos + 4);
      DigitQualitiesCons(lines, pos);
      RemainderAfterFour(|lines| - (pos + 4));
      DecodedReadStep(lines, pos);
    } else {
      ShortReadAll(NewRecord, lines, pos);
    }
  }

  /** Fewer than four lines left: a clean end on none, the incomplete record
      otherwise. */
  lemma ShortReadAll<Q>(construct: Constructor<Q>, lines: seq<string>, pos: nat)
    requires pos <= |lines| < pos + 4
    ensures ReadAll(construct, lines, pos).Ok? <==> (|lines| - pos) % 4 == 0
    ensures ReadAll(construct, lines, pos).Err? ==> ReadAll(construct, lines, pos).error == IncompleteRecord
    ensures (|lines| - pos) / 4 == 0
  {
  }

  /** One record of the later reader: the drain goes on exactly when the
      quality line is all digits, and otherwise stops with the ValueError. */
  lemma DecodedReadStep(lines: seq<string>, pos: nat)
    requires pos + 4 <= |lines|
    ensures var whole, rest := ReadAll(NewRecord, lines, pos), ReadAll(NewRecord, lines, pos + 4);
      (whole.Ok? <==> IsDigits(Chomp(lines[pos + 3])) && rest.Ok?) &&
      (whole.Err? ==> whole.error == InvalidQuality || whole == rest)
  {
    if IsDigits(Chomp(lines[pos + 3])) {
      ReadAllAfterItem(NewRecord, lines, pos);
    }
  }

  lemma RemainderAfterFour(n: nat)
    ensures (n + 4) % 4 == n % 4
  {
  }

  // ---------------------------------------------------------------------------
  // Pairs
  // ---------------------------------------------------------------------------

  /** One call of PairedFASTQReader.__next__. zip_longest advances reader 1,
      then reader 2, and an error from either propagates at once (reader 2 is
      not advanced when reader 1 fails). Both ended: a clean end; one ended:
      FASTQError for files of different length; otherwise the pair is built. */
  function PairStep<Q>(construct: Constructor<Q>, lines1: seq<string>, pos1: nat, lines2: seq<string>, pos2: nat): (r: (Step<PairedRecord<Q>>, nat, nat))
    requires pos1 <= |lines1| && pos2 <= |lines2|
    ensures pos1 <= r.1 <= |lines1| && pos2 <= r.2 <= |lines2|
    ensures r.0.End? <==> pos1 == |lines1| && pos2 == |lines2|
    ensures r.0.Item? ==> r.1 == pos1 + 4 && r.2 == pos2 + 4
    ensures r.0.Item? ==>
      ReadStep(construct, lines1, pos1).0 == Item(r.0.value.read1) &&
      ReadStep(construct, lines2, pos2).0 == Item(r.0.value.read2) &&
      MateId(r.0.value.read1.name) == MateId(r.0.value.read2.name)
    // Reader 1 fails: its error, and reader 2 is not advanced.
    ensures var st1 := ReadStep(construct, lines1, pos1);
      st1.0.Error? ==> r == (Error(st1.0.error), st1.1, pos2)
    // Otherwise both readers take one step, and a reader-2 error propagates.
    ensures var st1, st2 := ReadStep(construct, lines1, pos1), ReadStep(construct, lines2, pos2);
      !st1.0.Error? ==> r.1 == st1.1 && r.2 == st2.1 && (st2.0.Error? ==> r.0 == Error(st2.0.error))
    // Exactly one side ended while the other holds a record: files of different length.
    ensures var s1, s2 := ReadStep(construct, lines1, pos1).0, ReadStep(construct, lines2, pos2).0;
      (s1.Item? && s2.End?) || (s1.End? && s2.Item?) ==> r.0 == Error(DifferentLength)
    // Two records pair exactly when their mate identities agree; otherwise the mate error.
    ensures var s1, s2 := ReadStep(construct, lines1, pos1).0, ReadStep(construct, lines2, pos2).0;
      s1.Item? && s2.Item? ==>
        (r.0.Item? <==> MateId(s1.value.name) == MateId(s2.value.name)) &&
        (!r.0.Item? ==> r.0 == Error(MismatchedPair))
  {
    var (s1, p1) := ReadStep(construct, lines1, pos1);
    if s1.Error? then (Error(s1.error), p1, pos2)
    else
      var (s2, p2) := ReadStep(construct, lines2, pos2);
      if s2.Error? then (Error(s2.error), p1, p2)
      else if s1.End? && s2.End? then (End, p1, p2)
      else if s1.End? || s2.End? then (Error(DifferentLength), p1, p2)
      else
        match MakePaired(s1.value, s2.value)
        case Ok(pair) => (Item(pair), p1, p2)
        case Err(e) => (Error(e), p1, p2)
  }

  class PairedFastqReader<Q> {
    const reader1: FastqReader<Q>
    const reader2: FastqReader<Q>

    ghost predicate Valid()
      reads this, reader1, reader2, reader1.file, reader2.file
    {
      reader1.Valid() && reader2.Valid() && reader1.file != reader2.file &&
      reader1.construct == reader2.construct
    }

    /** PairedFASTQReader(read1_file, read2_file): one fresh reader per file. */
    constructor (file1: TextFile, file2: TextFile, construct: Constructor<Q>)
      requires file1.Valid() && file2.Valid() && file1 != file2
      ensures Valid() && fresh(reader1) && fresh(reader2)
      ensures reader1.file == file1 && reader2.file == file2 && reader1.construct == construct
    {
      reader1 := new FastqReader(file1, construct);
      reader2 := new FastqReader(file2, construct);
    }

    /** __next__ over zip_longest(reader1, reader2). */
    method Next() returns (s: Step<PairedRecord<Q>>)
      requires Valid()
      modifies reader1.file, reader2.file
      ensures Valid()
      ensures (s, reader1.file.pos, reader2.file.pos) ==
        PairStep(reader1.construct, reader1.file.lines, old(reader1.file.pos), reader2.file.lines, old(reader2.file.pos))
    {
      var s1 := reader1.Next();
      if s1.Error? {
        return Error(s1.error);
      }
      var s2 := reader2.Next();
      if s2.Error? {
        return Error(s2.error);
      }
      if s1.End? && s2.End? {
        return End;
      }
      if s1.End? || s2.End? {
        return Error(DifferentLength);
      }
      var pair := MakePaired(s1.value, s2.value);
      match pair {
        case Ok(p) => s := Item(p);
        case Err(e) => s := Error(e);
      }
    }
  }

  /** What draining a paired reader yields, and where it leaves both files. */
  datatype Drained<T> = Drained(result: Result<seq<T>, ReadError>, pos1: nat, pos2: nat)

  /** Iterating a paired reader to its end: every pair in order, or the first
      error, with the lines each file has consumed by then. */
  function PairAll<Q>(construct: Constructor<Q>, lines1: seq<string>, pos1: nat, lines2: seq<string>, pos2: nat): (d: Drained<PairedRecord<Q>>)
    requires pos1 <= |lines1| && pos2 <= |lines2|
    ensures d.pos1 <= |lines1| && d.pos2 <= |lines2|
    ensures d.result.Ok? ==> d.pos1 == |lines1| && d.pos2 == |lines2|
    // Both files already exhausted: no pairs.
    ensures pos1 == |lines1| && pos2 == |lines2| ==> d.result == Ok([])
    decreases |lines1| - pos1 + |lines2| - pos2
  {
    var (s, p1, p2) := PairStep(construct, lines1, pos1, lines2, pos2);
    match s
    case End => Drained(Ok([]), p1, p2)
    case Error(e) => Drained(Err(e), p1, p2)
    case Item(pair) =>
      var rest := PairAll(construct, lines1, p1, lines2, p2);
      match rest.result
      case Ok(pairs) => Drained(Ok([pair] + pairs), rest.pos1, rest.pos2)
      case Err(e) => rest
  }

  /** A paired drain without error: both files read without error, and the
      pairs are the positional pairing of their records. */
  lemma PairAllOk<Q>(construct: Constructor<Q>, lines1: seq<string>, pos1: nat, lines2: seq<string>, pos2: nat)
    requires pos1 <= |lines1| && pos2 <= |lines2|
    requires PairAll(construct, lines1, pos1, lines2, pos2).result.Ok?
    ensures ReadAll(construct, lines1, pos1).Ok? && ReadAll(construct, lines2, pos2).Ok?
    ensures PairAll(construct, lines1, pos1, lines2, pos2).result ==
      ZipRecords(ReadAll(construct, lines1, pos1).value, ReadAll(construct, lines2, pos2).value)
  {
    BothRead(construct, lines1, pos1, lines2, pos2);
    PairAllOfWellFormed(construct, lines1, pos1, lines2, pos2);
  }

  /** A paired drain without error: both files read without error. */
  lemma {:induction false} BothRead<Q>(construct: Constructor<Q>, lines1: seq<string>, pos1: nat, lines2: seq<string>, pos2: nat)
    requires pos1 <= |lines1| && pos2 <= |lines2|
    requires PairAll(construct, lines1, pos1, lines2, pos2).result.Ok?
    ensures ReadAll(construct, lines1, pos1).Ok? && ReadAll(construct, lines2, pos2).Ok?
    decreases |lines1| - pos1 + |lines2| - pos2
  {
    if PairStep(construct, lines1, pos1, lines2, pos2).0.Item? {
      PairAllAfterItem(construct, lines1, pos1, lines2, pos2);
      BothRead(construct, lines1, pos1 + 4, lines2, pos2 + 4);
      assert ReadStep(construct, lines1, pos1).1 == pos1 + 4 && ReadStep(construct, lines2, pos2).1 == pos2 + 4;
      ReadAllAfterItem(construct, lines1, pos1);
      ReadAllAfterItem(construct, lines2, pos2);
    } else {
      PairAllEnds(construct, lines1, pos1, lines2, pos2);
      ReadAllAtEnd(construct, lines1);
      ReadAllAtEnd(construct, lines2);
    }
  }

  /** A paired drain without error whose first step yields no pair: both
      files were already exhausted. */
  lemma PairAllEnds<Q>(construct: Constructor<Q>, lines1: seq<string>, pos1: nat, lines2: seq<string>, pos2: nat)
    requires pos1 <= |lines1| && pos2 <= |lines2|
    requires PairAll(construct, lines1, pos1, lines2, pos2).result.Ok?
    requires !PairStep(construct, lines1, pos1, lines2, pos2).0.Item?
    ensures pos1 == |lines1| && pos2 == |lines2|
  {
    PairAllStops(construct, lines1, pos1, lines2, pos2);
  }

  lemma ReadAllAtEnd<Q>(construct: Constructor<Q>, lines: seq<string>)
    ensures ReadAll(construct, lines, |lines|) == Ok([])
  {
  }

  /** Draining after a paired record: the record goes in front of what the
      rest of the files drain to, and the drain stops where the rest stops. */
  lemma PairAllAfterItem<Q>(construct: Constructor<Q>, lines1: seq<string>, pos1: nat, lines2: seq<string>, pos2: nat)
    requires pos1 <= |lines1| && pos2 <= |lines2|
    requires PairStep(construct, lines1, pos1, lines2, pos2).0.Item?
    ensures var st := PairStep(construct, lines1, pos1, lines2, pos2);
      var whole, rest := PairAll(construct, lines1, pos1, lines2, pos2), PairAll(construct, lines1, st.1, lines2, st.2);
      whole.pos1 == rest.pos1 && whole.pos2 == rest.pos2 &&
      (rest.result.Ok? ==> whole.result == Ok([st.0.value] + rest.result.value)) &&
      (rest.result.Err? ==> whole.result == rest.result)
  {
  }

  /** The first k paired steps, from lines pos1 and pos2, each yield a pair
      (and so each consumes four lines of both files). */
  ghost predicate PairsBefore<Q>(construct: Constructor<Q>, lines1: seq<string>, pos1: nat, lines2: seq<string>, pos2: nat, k: nat)
    decreases k
  {
    pos1 + 4 * k <= |lines1| && pos2 + 4 * k <= |lines2| &&
    (k > 0 ==>
      PairStep(construct, lines1, pos1, lines2, pos2).0.Item? &&
      PairsBefore(construct, lines1, pos1 + 4, lines2, pos2 + 4, k - 1))
  }

  /** The paired reader, started at lines pos1 and pos2, yields k pairs and
      then `outcome` from its next step. */
  ghost predicate StopsAfter<Q>(construct: Constructor<Q>, lines1: seq<string>, pos1: nat, lines2: seq<string>, pos2: nat,
                                k: nat, outcome: (Step<PairedRecord<Q>>, nat, nat))
  {
    PairsBefore(construct, lines1, pos1, lines2, pos2, k) &&
    PairStep(construct, lines1, pos1 + 4 * k, lines2, pos2 + 4 * k) == outcome
  }

  /** One more pair in front: the same outcome, one pair later. */
  lemma StopsAfterCons<Q>(construct: Constructor<Q>, lines1: seq<string>, pos1: nat, lines2: seq<string>, pos2: nat,
                          k: nat, outcome: (Step<PairedRecord<Q>>, nat, nat))
    requires pos1 <= |lines1| && pos2 <= |lines2| && PairStep(construct, lines1, pos1, lines2, pos2).0.Item?
    requires StopsAfter(construct, lines1, pos1 + 4, lines2, pos2 + 4, k, outcome)
    ensures StopsAfter(construct, lines1, pos1, lines2, pos2, k + 1, outcome)
  {
    assert pos1 + 4 * (k + 1) == pos1 + 4 + 4 * k && pos2 + 4 * (k + 1) == pos2 + 4 + 4 * k;
  }

  /** A paired drain that fails stops at its first failing step: every step
      before it yields a pair, and the drain's error and final positions are
      that step's. */
  lemma PairAllError<Q>(construct: Constructor<Q>, lines1: seq<string>, pos1: nat, lines2: seq<string>, pos2: nat,
                        e: ReadError, q1: nat, q2: nat)
    requires pos1 <= |lines1| && pos2 <= |lines2|
    requires PairAll(construct, lines1, pos1, lines2, pos2) == Drained(Err(e), q1, q2)
    ensures exists k: nat :: StopsAfter(construct, lines1, pos1, lines2, pos2, k, (Error(e), q1, q2))
  {
    var k := FirstPairFailure(construct, lines1, pos1, lines2, pos2, e, q1, q2);
  }

  /** The number of pairs a failing paired drain yields before its failing step. */
  lemma {:induction false} FirstPairFailure<Q>(construct: Constructor<Q>, lines1: seq<string>, pos1: nat, lines2: seq<string>, pos2: nat,
                                               e: ReadError, q1: nat, q2: nat) returns (k: nat)
    requires pos1 <= |lines1| && pos2 <= |lines2|
    requires PairAll(construct, lines1, pos1, lines2, pos2) == Drained(Err(e), q1, q2)
    ensures StopsAfter(construct, lines1, pos1, lines2, pos2, k, (Error(e), q1, q2))
    decreases |lines1| - pos1 + |lines2| - pos2
  {
    if PairStep(construct, lines1, pos1, lines2, pos2).0.Item? {
      PairAllSkipsItem(construct, lines1, pos1, lines2, pos2);
      var j := FirstPairFailure(construct, lines1, pos1 + 4, lines2, pos2 + 4, e, q1, q2);
      StopsAfterCons(construct, lines1, pos1, lines2, pos2, j, (Error(e), q1, q2));
      k := j + 1;
    } else {
      PairAllFailsHere(construct, lines1, pos1, lines2, pos2, e, q1, q2);
      k := 0;
    }
  }

  /** A failed paired drain whose first step yields no pair fails at that step. */
  lemma PairAllFailsHere<Q>(construct: Constructor<Q>, lines1: seq<string>, pos1: nat, lines2: seq<string>, pos2: nat,
                            e: ReadError, q1: nat, q2: nat)
    requires pos1 <= |lines1| && pos2 <= |lines2|
    requires !PairStep(construct, lines1, pos1, lines2, pos2).0.Item?
    requires PairAll(construct, lines1, pos1, lines2, pos2) == Drained(Err(e), q1, q2)
    ensures StopsAfter(construct, lines1, pos1, lines2, pos2, 0, (Error(e), q1, q2))
  {
    PairAllStops(construct, lines1, pos1, lines2, pos2);
    assert pos1 + 4 * 0 == pos1 && pos2 + 4 * 0 == pos2;
  }

  /** A failed paired drain whose first step pairs fails as the drain after
      that pair does. */
  lemma PairAllSkipsItem<Q>(construct: Constructor<Q>, lines1: seq<string>, pos1: nat, lines2: seq<string>, pos2: nat)
    requires pos1 <= |lines1| && pos2 <= |lines2|
    requires PairStep(construct, lines1, pos1, lines2, pos2).0.Item?
    requires PairAll(construct, lines1, pos1, lines2, pos2).result.Err?
    ensures pos1 + 4 <= |lines1| && pos2 + 4 <= |lines2|
    ensures PairAll(construct, lines1, pos1 + 4, lines2, pos2 + 4) == PairAll(construct, lines1, pos1, lines2, pos2)
  {
    PairAllAfterItem(construct, lines1, pos1, lines2, pos2);
  }

  /** A paired step that yields no pair ends the drain with its outcome. */
  lemma PairAllStops<Q>(construct: Constructor<Q>, lines1: seq<string>, pos1: nat, lines2: seq<string>, pos2: nat)
    requires pos1 <= |lines1| && pos2 <= |lines2|
    requires !PairStep(construct, lines1, pos1, lines2, pos2).0.Item?
    ensures var st, d := PairStep(construct, lines1, pos1, lines2, pos2), PairAll(construct, lines1, pos1, lines2, pos2);
      d.pos1 == st.1 && d.pos2 == st.2 &&
      (st.0.End? ==> d.result == Ok([])) && (st.0.Error? ==> d.result == Err(st.0.error))
  {
  }

  /** The file, from line `pos`, holds exactly the records rs: step i yields
      record i, and the records take up the rest of the file. */
  ghost predicate ReadsAs<Q>(construct: Constructor<Q>, lines: seq<string>, pos: nat, rs: seq<FastqRecord<Q>>)
  {
    pos + 4 * |rs| == |lines| &&
    forall i :: 0 <= i < |rs| ==> ReadStep(construct, lines, pos + 4 * i).0 == Item(rs[i])
  }

  /** The mate identities agree at the first n positions. */
  ghost predicate MatesAgree<Q>(rs1: seq<FastqRecord<Q>>, rs2: seq<FastqRecord<Q>>, n: nat)
    requires n <= |rs1| && n <= |rs2|
  {
    forall i :: 0 <= i < n ==> MateId(rs1[i].name) == MateId(rs2[i].name)
  }

  function Min(a: nat, b: nat): nat
  {
    if a <= b then a else b
  }

  /** Reference definition of pairing two complete record lists positionally:
      the n-th pair joins the n-th records, a length difference or a mate
      mismatch is an error. */
  function ZipRecords<Q>(rs1: seq<FastqRecord<Q>>, rs2: seq<FastqRecord<Q>>): (r: Result<seq<PairedRecord<Q>>, ReadError>)
    ensures r.Ok? <==> |rs1| == |rs2| && MatesAgree(rs1, rs2, |rs1|)
    ensures r.Ok? ==> |r.value| == |rs1| && forall i :: 0 <= i < |rs1| ==> r.value[i] == PairedRecord(rs1[i], rs2[i])
    ensures r == Err(DifferentLength) <==> |rs1| != |rs2| && MatesAgree(rs1, rs2, Min(|rs1|, |rs2|))
    ensures r == Err(MismatchedPair) <==> !MatesAgree(rs1, rs2, Min(|rs1|, |rs2|))
  {
    if rs1 == [] && rs2 == [] then Ok([])
    else if rs1 == [] || rs2 == [] then Err(DifferentLength)
    else
      match MakePaired(rs1[0], rs2[0])
      case Err(e) => Err(e)
      case Ok(pair) =>
        match ZipRecords(rs1[1..], rs2[1..])
        case Ok(pairs) => Ok([pair] + pairs)
        case Err(e) => Err(e)
  }

  /** How many lines of each file the positional pairing of rs1 and rs2 has
      consumed when it stops: four for every record it reads, the record that
      shows a mate mismatch or a length difference included. */
  function ZipConsumed<Q>(rs1: seq<FastqRecord<Q>>, rs2: seq<FastqRecord<Q>>): (nat, nat)
  {
    if rs1 == [] && rs2 == [] then (0, 0)
    else if rs1 == [] then (0, 4)
    else if rs2 == [] then (4, 0)
    else if MateId(rs1[0].name) != MateId(rs2[0].name) then (4, 4)
    else
      var c := ZipConsumed(rs1[1..], rs2[1..]);
      (c.0 + 4, c.1 + 4)
  }

  /** A pairing without error reads both lists to their end. */
  lemma {:induction false} ZipConsumedOk<Q>(rs1: seq<FastqRecord<Q>>, rs2: seq<FastqRecord<Q>>)
    requires ZipRecords(rs1, rs2).Ok?
    ensures ZipConsumed(rs1, rs2) == (4 * |rs1|, 4 * |rs2|)
    decreases |rs1|
  {
    if rs1 != [] && rs2 != [] {
      ZipConsumedOk(rs1[1..], rs2[1..]);
    }
  }

  /** Mates agreeing at the first n positions agree at the first one, and at
      the first n - 1 after it. */
  lemma MatesAgreeTail<Q>(rs1: seq<FastqRecord<Q>>, rs2: seq<FastqRecord<Q>>, n: nat)
    requires 0 < n <= |rs1| && n <= |rs2| && MatesAgree(rs1, rs2, n)
    ensures MateId(rs1[0].name) == MateId(rs2[0].name) && MatesAgree(rs1[1..], rs2[1..], n - 1)
  {
    forall i | 0 <= i < n - 1 ensures MateId(rs1[1..][i].name) == MateId(rs2[1..][i].name) {
      assert rs1[1..][i] == rs1[i + 1] && rs2[1..][i] == rs2[i + 1];
    }
  }

  /** Mates that agree before position k and disagree at k: the pairing fails
      with the mate error, having read record k of both lists. */
  lemma ZipMismatchAt<Q>(rs1: seq<FastqRecord<Q>>, rs2: seq<FastqRecord<Q>>, k: nat)
    requires k < |rs1| && k < |rs2| && MatesAgree(rs1, rs2, k) && MateId(rs1[k].name) != MateId(rs2[k].name)
    ensures ZipRecords(rs1, rs2) == Err(MismatchedPair)
    ensures ZipConsumed(rs1, rs2) == (4 * (k + 1), 4 * (k + 1))
  {
    ConsumedAtMismatch(rs1, rs2, k);
    assert !MatesAgree(rs1, rs2, Min(|rs1|, |rs2|));
  }

  lemma {:induction false} ConsumedAtMismatch<Q>(rs1: seq<FastqRecord<Q>>, rs2: seq<FastqRecord<Q>>, k: nat)
    requires k < |rs1| && k < |rs2| && MatesAgree(rs1, rs2, k) && MateId(rs1[k].name) != MateId(rs2[k].name)
    ensures ZipConsumed(rs1, rs2) == (4 * (k + 1), 4 * (k + 1))
    decreases k
  {
    if k > 0 {
      MatesAgreeTail(rs1, rs2, k);
      assert rs1[1..][k - 1] == rs1[k] && rs2[1..][k - 1] == rs2[k];
      ConsumedAtMismatch(rs1[1..], rs2[1..], k - 1);
    }
  }

  /** Lists of different lengths whose mates agree as far as both go: the
      pairing fails with the length error, having read every record of the
      shorter list and one more of the longer. */
  lemma ZipLengthAt<Q>(rs1: seq<FastqRecord<Q>>, rs2: seq<FastqRecord<Q>>)
    requires |rs1| != |rs2| && MatesAgree(rs1, rs2, Min(|rs1|, |rs2|))
    ensures ZipRecords(rs1, rs2) == Err(DifferentLength)
    ensures |rs1| < |rs2| ==> ZipConsumed(rs1, rs2) == (4 * |rs1|, 4 * (|rs1| + 1))
    ensures |rs2| < |rs1| ==> ZipConsumed(rs1, rs2) == (4 * (|rs2| + 1), 4 * |rs2|)
  {
    ConsumedAtLength(rs1, rs2);
  }

  lemma {:induction false} ConsumedAtLength<Q>(rs1: seq<FastqRecord<Q>>, rs2: seq<FastqRecord<Q>>)
    requires |rs1| != |rs2| && MatesAgree(rs1, rs2, Min(|rs1|, |rs2|))
    ensures |rs1| < |rs2| ==> ZipConsumed(rs1, rs2) == (4 * |rs1|, 4 * (|rs1| + 1))
    ensures |rs2| < |rs1| ==> ZipConsumed(rs1, rs2) == (4 * (|rs2| + 1), 4 * |rs2|)
    decreases |rs1|
  {
    if rs1 != [] && rs2 != [] {
      MatesAgreeTail(rs1, rs2, Min(|rs1|, |rs2|));
      ConsumedAtLength(rs1[1..], rs2[1..]);
    }
  }

  /** On two well-formed files the paired reader pairs the n-th record of each,
      fails with a length error when the counts differ and with a mate error at
      the first mismatch: its result is ZipRecords of the two record lists, and
      it leaves each file where ZipConsumed says. */
  lemma {:induction false} PairAllOfWellFormed<Q>(construct: Constructor<Q>, lines1: seq<string>, pos1: nat, lines2: seq<string>, pos2: nat)
    requires pos1 <= |lines1| && pos2 <= |lines2|
    requires ReadAll(construct, lines1, pos1).Ok? && ReadAll(construct, lines2, pos2).Ok?
    ensures var rs1, rs2 := ReadAll(construct, lines1, pos1).value, ReadAll(construct, lines2, pos2).value;
      var d := PairAll(construct, lines1, pos1, lines2, pos2);
      d.result == ZipRecords(rs1, rs2) &&
      d.pos1 == pos1 + ZipConsumed(rs1, rs2).0 && d.pos2 == pos2 + ZipConsumed(rs1, rs2).1
    decreases |lines1| - pos1 + |lines2| - pos2
  {
    var (s1, p1) := ReadStep(construct, lines1, pos1);
    var (s2, p2) := ReadStep(construct, lines2, pos2);
    var rs1 := ReadAll(construct, lines1, pos1).value;
    var rs2 := ReadAll(construct, lines2, pos2).value;
    if s1.Item? && s2.Item? {
      if MateId(s1.value.name) == MateId(s2.value.name) {
        PairAllOfWellFormed(construct, lines1, p1, lines2, p2);
        assert rs1[1..] == ReadAll(construct, lines1, p1).value;
        assert rs2[1..] == ReadAll(construct, lines2, p2).value;
      }
    }
  }

  /** Two files that read without error, whose records' mates agree up to
      record k and disagree at record k: the paired reader stops with the mate
      error after k pairs, both files having consumed record k. */
  lemma PairAllMismatchAt<Q>(construct: Constructor<Q>, lines1: seq<string>, pos1: nat, lines2: seq<string>, pos2: nat, k: nat)
    requires pos1 <= |lines1| && pos2 <= |lines2|
    requires ReadAll(construct, lines1, pos1).Ok? && ReadAll(construct, lines2, pos2).Ok?
    requires var rs1, rs2 := ReadAll(construct, lines1, pos1).value, ReadAll(construct, lines2, pos2).value;
      k < |rs1| && k < |rs2| && MatesAgree(rs1, rs2, k) && MateId(rs1[k].name) != MateId(rs2[k].name)
    ensures PairAll(construct, lines1, pos1, lines2, pos2) == Drained(Err(MismatchedPair), pos1 + 4 * (k + 1), pos2 + 4 * (k + 1))
  {
    PairAllOfWellFormed(construct, lines1, pos1, lines2, pos2);
    ZipMismatchAt(ReadAll(construct, lines1, pos1).value, ReadAll(construct, lines2, pos2).value, k);
  }


  /** Two files that read without error, with different record counts and
      mates agreeing as far as both go: the paired reader stops with the length
      error after the common pairs. The shorter file stands after its last
      record, the longer one after the record it read past that point. */
  lemma PairAllLengthAt<Q>(construct: Constructor<Q>, lines1: seq<string>, pos1: nat, lines2: seq<string>, pos2: nat)
    requires pos1 <= |lines1| && pos2 <= |lines2|
    requires ReadAll(construct, lines1, pos1).Ok? && ReadAll(construct, lines2, pos2).Ok?
    requires var rs1, rs2 := ReadAll(construct, lines1, pos1).value, ReadAll(construct, lines2, pos2).value;
      |rs1| != |rs2| && MatesAgree(rs1, rs2, Min(|rs1|, |rs2|))
    ensures var n1, n2 := |ReadAll(construct, lines1, pos1).value|, |ReadAll(construct, lines2, pos2).value|;
      var d := PairAll(construct, lines1, pos1, lines2, pos2);
      d.result == Err(DifferentLength) &&
      (n1 < n2 ==> d.pos1 == pos1 + 4 * n1 && d.pos2 == pos2 + 4 * (n1 + 1)) &&
      (n2 < n1 ==> d.pos1 == pos1 + 4 * (n2 + 1) && d.pos2 == pos2 + 4 * n2)
  {
    PairAllOfWellFormed(construct, lines1, pos1, lines2, pos2);
    ZipLengthAt(ReadAll(construct, lines1, pos1).value, ReadAll(construct, lines2, pos2).value);
  }


  // ---------------------------------------------------------------------------
  // str(record) read back
  // ---------------------------------------------------------------------------

  /** The four lines str(record) prints. */
  function RecordLines(r: Record): seq<string>
  {
    [r.name + "\n", r.sequence + "\n", "+\n", QualNumToStr(r.quality) + "\n"]
  }

  function LinesOf(rs: seq<Record>): seq<string>
  {
    if rs == [] then [] else RecordLines(rs[0]) + LinesOf(rs[1..])
  }

  /** The text of several records printed one after the other. */
  function FormatAll(rs: seq<Record>): string
  {
    if rs == [] then "" else Format(rs[0]) + FormatAll(rs[1..])
  }

  lemma SplitFourLines(a: string, b: string, c: string, d: string, rest: string)
    requires '\n' !in a && '\n' !in b && '\n' !in c && '\n' !in d
    ensures SplitLines(a + "\n" + (b + "\n" + (c + "\n" + (d + "\n" + rest)))) ==
      [a + "\n", b + "\n", c + "\n", d + "\n"] + SplitLines(rest)
  {
    SplitTerminatedLine(d, rest);
    SplitTerminatedLine(c, d + "\n" + rest);
    SplitTerminatedLine(b, c + "\n" + (d + "\n" + rest));
    SplitTerminatedLine(a, b + "\n" + (c + "\n" + (d + "\n" + rest)));
    ConsFour(a + "\n", b + "\n", c + "\n", d + "\n", SplitLines(rest));
  }

  lemma ConsFour<T>(a: T, b: T, c: T, d: T, s: seq<T>)
    ensures [a] + ([b] + ([c] + ([d] + s))) == [a, b, c, d] + s
  {
  }

  lemma DigitsHaveNoNewline(q: seq<int>)
    requires InDigitRange(q)
    ensures '\n' !in QualNumToStr(q)
  {
    var digits := QualNumToStr(q);
    forall i | 0 <= i < |digits| ensures digits[i] != '\n' {
      assert digits[i] == DigitChar(q[i]);
    }
  }

  /** str(record) followed by more text, with each of its lines split off. */
  lemma FormatThen(r: Record, rest: string)
    ensures Format(r) + rest ==
      r.name + "\n" + (r.sequence + "\n" + ("+" + "\n" + (QualNumToStr(r.quality) + "\n" + rest)))
  {
    var a, b, c, d := r.name + "\n", r.sequence + "\n", "+\n", QualNumToStr(r.quality) + "\n";
    assert Format(r) == a + b + c + d by {
      Assoc(a, r.sequence, "\n");
      Assoc(a + b + c, QualNumToStr(r.quality), "\n");
    }
    Assoc(a + b + c, d, rest);
    Assoc(a + b, c, d + rest);
    Assoc(a, b, c + (d + rest));
    assert c == "+" + "\n";
  }

  lemma HeadTail<T>(s: seq<T>)
    requires s != []
    ensures [s[0]] + s[1..] == s
  {
  }

  lemma Assoc<T>(x: seq<T>, y: seq<T>, z: seq<T>)
    ensures x + y + z == x + (y + z)
  {
  }

  lemma {:induction false} SplitFormatted(r: Record, rest: string)
    requires Printable(r)
    ensures SplitLines(Format(r) + rest) == RecordLines(r) + SplitLines(rest)
  {
    var digits := QualNumToStr(r.quality);
    DigitsHaveNoNewline(r.quality);
    FormatThen(r, rest);
    SplitFourLines(r.name, r.sequence, "+", digits, rest);
    assert "+" + "\n" == "+\n";
  }

  lemma {:induction false} SplitFormatAll(rs: seq<Record>)
    requires forall i :: 0 <= i < |rs| ==> Printable(rs[i])
    ensures SplitLines(FormatAll(rs)) == LinesOf(rs)
  {
    if rs != [] {
      SplitFormatAll(rs[1..]);
      SplitFormatted(rs[0], FormatAll(rs[1..]));
    }
  }

  lemma ChompTerminated(s: string)
    ensures Chomp(s + "\n") == s
  {
    assert (s + "\n")[..|s|] == s;
  }

  /** A printed record read back with the later FASTQRecord is itself. */
  lemma {:induction false} ReadRecordLines(pre: seq<string>, r: Record, post: seq<string>)
    requires Printable(r)
    ensures ReadStep(NewRecord, pre + RecordLines(r) + post, |pre|) == (Item(r), |pre| + 4)
  {
    var lines := pre + RecordLines(r) + post;
    var digits := QualNumToStr(r.quality);
    assert lines[|pre|] == r.name + "\n";
    assert lines[|pre| + 1] == r.sequence + "\n";
    assert lines[|pre| + 3] == digits + "\n";
    ChompTerminated(r.name);
    ChompTerminated(r.sequence);
    ChompTerminated(digits);
    QualNumStrRoundTrip(r.quality);
    var made := NewRecord(r.name, r.sequence, digits);
    assert made == Ok(r);
  }

  /** Draining after a record: the record goes in front of what the rest of
      the file drains to. */
  lemma ReadAllAfterItem<Q>(construct: Constructor<Q>, lines: seq<string>, pos: nat)
    requires pos <= |lines| && ReadStep(construct, lines, pos).0.Item?
    ensures var st := ReadStep(construct, lines, pos);
      var rest := ReadAll(construct, lines, st.1);
      (rest.Ok? ==> ReadAll(construct, lines, pos) == Ok([st.0.value] + rest.value)) &&
      (rest.Err? ==> ReadAll(construct, lines, pos) == rest)
  {
  }

  /** The lines of printed records, after any prefix, read as those records. */
  lemma {:induction false} ReadLinesOf(pre: seq<string>, rs: seq<Record>)
    requires forall i :: 0 <= i < |rs| ==> Printable(rs[i])
    ensures ReadsAs(NewRecord, pre + LinesOf(rs), |pre|, rs)
    decreases |rs|
  {
    if rs == [] {
      assert pre + LinesOf(rs) == pre;
    } else {
      ReadLinesOf(pre + RecordLines(rs[0]), rs[1..]);
      ReadLinesCons(pre, rs);
    }
  }

  /** The lines of one printed record in front of lines that read as the
      other records: together they read as all of them. */
  lemma ReadLinesCons(pre: seq<string>, rs: seq<Record>)
    requires rs != [] && Printable(rs[0])
    requires ReadsAs(NewRecord, (pre + RecordLines(rs[0])) + LinesOf(rs[1..]), |pre| + 4, rs[1..])
    ensures ReadsAs(NewRecord, pre + LinesOf(rs), |pre|, rs)
  {
    var r, rest := rs[0], rs[1..];
    var lines := pre + LinesOf(rs);
    LinesLayout(pre, rs);
    ReadRecordLines(pre, r, LinesOf(rest));
    ReadsAsCons(NewRecord, lines, |pre|, r, rest);
    HeadTail(rs);
  }

  lemma LinesLayout(pre: seq<string>, rs: seq<Record>)
    requires rs != []
    ensures pre + LinesOf(rs) == (pre + RecordLines(rs[0])) + LinesOf(rs[1..])
  {
    var a, b := RecordLines(rs[0]), LinesOf(rs[1..]);
    assert LinesOf(rs) == a + b;
    Assoc(pre, a, b);
  }

  /** A record read at pos, then records read from pos + 4: the file reads
      as that record followed by the others. */
  lemma ReadsAsCons<Q>(construct: Constructor<Q>, lines: seq<string>, pos: nat, r: FastqRecord<Q>, rest: seq<FastqRecord<Q>>)
    requires pos + 4 <= |lines|
    requires ReadStep(construct, lines, pos).0 == Item(r)
    requires ReadsAs(construct, lines, pos + 4, rest)
    ensures ReadsAs(construct, lines, pos, [r] + rest)
  {
    forall i | 0 <= i < |rest| + 1
      ensures ReadStep(construct, lines, pos + 4 * i).0 == Item(([r] + rest)[i])
    {
      if i > 0 {
        assert pos + 4 * i == pos + 4 + 4 * (i - 1);
      }
    }
  }

  /** A drain yields exactly rs when, and only when, the step at each of
      their positions reads the corresponding record and the file ends right
      after the last one. */
  lemma ReadAllOkIff<Q>(construct: Constructor<Q>, lines: seq<string>, pos: nat, rs: seq<FastqRecord<Q>>)
    requires pos <= |lines|
    ensures ReadAll(construct, lines, pos) == Ok(rs) <==> ReadsAs(construct, lines, pos, rs)
  {
    if ReadsAs(construct, lines, pos, rs) {
      ReadsAsFrom(construct, lines, pos, rs, 0);
      assert pos + 4 * 0 == pos && rs[0..] == rs;
    }
  }

  lemma {:induction false} ReadsAsFrom<Q>(construct: Constructor<Q>, lines: seq<string>, pos: nat, rs: seq<FastqRecord<Q>>, j: nat)
    requires ReadsAs(construct, lines, pos, rs) && j <= |rs|
    ensures pos + 4 * j <= |lines| && ReadAll(construct, lines, pos + 4 * j) == Ok(rs[j..])
    decreases |rs| - j
  {
    if j == |rs| {
      assert rs[j..] == [];
    } else {
      ReadsAsFrom(construct, lines, pos, rs, j + 1);
      assert ReadStep(construct, lines, pos + 4 * j).0 == Item(rs[j]);
      assert pos + 4 * (j + 1) == pos + 4 * j + 4;
      ReadAllCons(construct, lines, pos + 4 * j, rs[j], rs[j + 1..]);
      SliceCons(rs, j);
    }
  }

  lemma SliceCons<T>(s: seq<T>, j: nat)
    requires j < |s|
    ensures [s[j]] + s[j + 1..] == s[j..]
  {
  }

  /** A record read at pos followed by a clean drain of the rest: the drain
      from pos yields that record, then the rest. */
  lemma ReadAllCons<Q>(construct: Constructor<Q>, lines: seq<string>, pos: nat, r: FastqRecord<Q>, rest: seq<FastqRecord<Q>>)
    requires pos + 4 <= |lines|
    requires ReadStep(construct, lines, pos) == (Item(r), pos + 4)
    requires ReadAll(construct, lines, pos + 4) == Ok(rest)
    ensures ReadAll(construct, lines, pos) == Ok([r] + rest)
  {
    ReadAllAfterItem(construct, lines, pos);
  }

  /** Records printed with str() one after another and read back from that
      text yield exactly those records, in order, and then a clean end. */
  lemma ReadFormattedRecords(rs: seq<Record>)
    requires forall i :: 0 <= i < |rs| ==> Printable(rs[i])
    ensures ReadAll(NewRecord, SplitLines(FormatAll(rs)), 0) == Ok(rs)
  {
    ReadLinesFromStart(rs);
    SplitFormatAll(rs);
  }

  /** The lines of printed records, read from the first line, give the records back. */
  lemma ReadLinesFromStart(rs: seq<Record>)
    requires forall i :: 0 <= i < |rs| ==> Printable(rs[i])
    ensures ReadAll(NewRecord, LinesOf(rs), 0) == Ok(rs)
  {
    ReadLinesOf([], rs);
    assert [] + LinesOf(rs) == LinesOf(rs);
    ReadAllOkIff(NewRecord, LinesOf(rs), 0, rs);
  }

  /** Two files of printed records read back as the paired records
      ZipRecords makes of the two lists. */
  lemma ReadFormattedPairs(rs1: seq<Record>, rs2: seq<Record>)
    requires forall i :: 0 <= i < |rs1| ==> Printable(rs1[i])
    requires forall i :: 0 <= i < |rs2| ==> Printable(rs2[i])
    ensures PairAll(NewRecord, SplitLines(FormatAll(rs1)), 0, SplitLines(FormatAll(rs2)), 0).result == ZipRecords(rs1, rs2)
  {
    ReadFormattedRecords(rs1);
    ReadFormattedRecords(rs2);
    PairAllOfWellFormed(NewRecord, SplitLines(FormatAll(rs1)), 0, SplitLines(FormatAll(rs2)), 0);
  }


  /** A well-formed record read with the later FASTQRecord prints back as the
      four lines it was read from. */
  lemma FormatOfRead(lines: seq<string>, pos: nat)
    requires pos + 4 <= |lines|
    requires forall k :: pos <= k < pos + 4 ==> |lines[k]| > 0 && lines[k][|lines[k]| - 1] == '\n'
    requires lines[pos + 2] == "+\n"
    requires ReadStep(NewRecord, lines, pos).0.Item?
    ensures Format(ReadStep(NewRecord, lines, pos).0.value) == lines[pos] + lines[pos + 1] + lines[pos + 2] + lines[pos + 3]
  {
    forall k | pos <= k < pos + 4 ensures Chomp(lines[k]) + "\n" == lines[k] {
      assert lines[k] == lines[k][..|lines[k]| - 1] + [lines[k][|lines[k]| - 1]];
    }
  }
}
