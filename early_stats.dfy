/** The earlier snapshot of the calculators (stats_collectors.py at the
    repository root). SequenceMatcher, _query and the constructors of the
    matcher and of PairedStatsAgregator are the same code as the later ones
    and share their model; this snapshot has no aggregate_stats. Its records
    keep the quality as the raw string, and that is where it differs: the
    QualityAverager hands that string to np.mean, which raises TypeError on
    a str, so in this snapshot the averager fails on every record. */
module EarlyStats {
  import opened Common
  import opened Fastq
  import opened FastqStats
  import opened EarlyFastq

  /** The TypeError np.mean raises on a str. */
  datatype CalcError = QualityNotNumeric

  /** _calc_single_stats(record) on a raw record, as written: the matcher
      queries the sequence, the averager fails. */
  function RawSingleStats(c: Calculator, r: RawRecord): (s: Result<Series<string>, CalcError>)
    ensures s.Ok? <==> c.SequenceMatcher?
    ensures s.Ok? ==> Labels(s.value) == MetricNames(c)
  {
    match c
    case SequenceMatcher(ps) => Ok(QueryResult(ps, r.sequence))
    case QualityAverager => Err(QualityNotNumeric)
  }

  /** Sequence statistics read the sequence only: records with the same
      sequence give the same entries, whatever their names and qualities. */
  lemma SequenceStatsReadSequenceOnly(ps: seq<string>, r1: RawRecord, r2: RawRecord, d1: Record, d2: Record)
    requires r1.sequence == r2.sequence && d1.sequence == d2.sequence
    ensures RawSingleStats(SequenceMatcher(ps), r1) == RawSingleStats(SequenceMatcher(ps), r2)
    ensures SingleStats(SequenceMatcher(ps), d1) == SingleStats(SequenceMatcher(ps), d2)
  {
  }

  /** calc_paired_stats(record) of the earlier snapshot: mate 1's entries keyed
      by 1, then mate 2's keyed by 2; the averager's error propagates. */
  function RawPairedStats(c: Calculator, pr: PairedRecord<string>): (row: Result<Row, CalcError>)
    ensures row.Ok? <==> c.SequenceMatcher?
    ensures row.Ok? ==> |row.value| == 2 * |MetricNames(c)|
    ensures row.Ok? ==> forall i :: 0 <= i < |MetricNames(c)| ==>
      row.value[i] == ((1, MetricNames(c)[i]), RawSingleStats(c, pr.read1).value[i].1)
    ensures row.Ok? ==> forall i :: 0 <= i < |MetricNames(c)| ==>
      row.value[|MetricNames(c)| + i] == ((2, MetricNames(c)[i]), RawSingleStats(c, pr.read2).value[i].1)
  {
    match (RawSingleStats(c, pr.read1), RawSingleStats(c, pr.read2))
    case (Ok(s1), Ok(s2)) =>
      assert Labels(s1) == MetricNames(c) == Labels(s2);
      Ok(Keyed(1, s1) + Keyed(2, s2))
    case (Err(e), _) => Err(e)
    case (_, Err(e)) => Err(e)
  }

  // ---------------------------------------------------------------------------
  // The averager, as written and as intended
  // ---------------------------------------------------------------------------

  /** The averager as intended on a raw record: decode the quality line one
      digit per character, then take the mean. A line that is not all digits
      is the ValueError of int(). */
  function DecodedSingleStats(c: Calculator, r: RawRecord): (s: Result<Series<string>, ReadError>)
    ensures s.Ok? ==> Labels(s.value) == MetricNames(c)
    ensures c.QualityAverager? ==> (s.Ok? <==> IsDigits(r.quality))
  {
    match c
    case SequenceMatcher(ps) => Ok(QueryResult(ps, r.sequence))
    case QualityAverager =>
      match QualStrToNum(r.quality)
      case Ok(q) => Ok([("avg_qual", Mean(q))])
      case Err(e) => Err(e)
  }

  /** The intended averager agrees with the earlier matcher, and with the
      later snapshot, whose records decode the quality line when they are
      built: on a digit line its value is the later one, a mean between 0 and 9
      (NaN for an empty line). */
  lemma DecodedMatchesLater(c: Calculator, r: RawRecord)
    ensures c.SequenceMatcher? ==>
      DecodedSingleStats(c, r).Ok? && Ok(DecodedSingleStats(c, r).value) == RawSingleStats(c, r)
    ensures IsDigits(r.quality) ==>
      var later := NewRecord(r.name, r.sequence, r.quality);
      later.Ok? && DecodedSingleStats(c, r) == Ok(SingleStats(c, later.value))
    ensures c.QualityAverager? && IsDigits(r.quality) && r.quality != [] ==>
      var m := DecodedSingleStats(c, r).value[0].1;
      m.Some? && 0.0 <= m.value <= 9.0
  {
    if c.QualityAverager? && IsDigits(r.quality) && r.quality != [] {
      var q := QualStrToNum(r.quality).value;
      assert InDigitRange(q);
      MeanOfDigits(q);
    }
  }

  /** The discrepancy on a record with qualities "1234": the averager as
      written fails, the intended one reports the mean 2.5. */
  lemma AveragerFailsOnRawQuality()
    ensures RawSingleStats(QualityAverager, FastqRecord("test1", "AGCT", "1234")) == Err(QualityNotNumeric)
    ensures DecodedSingleStats(QualityAverager, FastqRecord("test1", "AGCT", "1234")) == Ok([("avg_qual", Some(2.5))])
  {
    var q := QualStrToNum("1234");
    assert q.Ok? && |q.value| == 4;
    assert q.value[0] == 1 && q.value[1] == 2 && q.value[2] == 3 && q.value[3] == 4;
    assert q.value == [1, 2, 3, 4];
    assert Sum([1, 2, 3, 4]) == 10;
  }

  // ---------------------------------------------------------------------------
  // The unit tests' data
  // ---------------------------------------------------------------------------

  /** One mismatching character rules a position out. */
  lemma NoMatchAt(pattern: string, s: string, i: nat, j: nat)
    requires j < |pattern| && i + j < |s| && !CharMatches(pattern[j], s[i + j])
    ensures !MatchesAt(pattern, s, i)
  {
  }

  /** _query("abcd") with the patterns abc, xyz and b.d: one entry per pattern,
      labelled by it, holding 0, NaN and 1. */
  lemma QueryOfAbcd()
    ensures QueryResult(["abc", "xyz", "b.d"], "abcd") ==
      [("abc", Some(0.0)), ("xyz", None), ("b.d", Some(1.0))]
  {
    assert MatchesAt("abc", "abcd", 0);
    NoMatchAt("xyz", "abcd", 0, 0);
    NoMatchAt("xyz", "abcd", 1, 0);
    assert SearchFrom("xyz", "abcd", 2) == None;
    assert Search("xyz", "abcd") == None;
    NoMatchAt("b.d", "abcd", 0, 0);
    assert MatchesAt("b.d", "abcd", 1);
    assert Search("b.d", "abcd") == Some(1);
  }

  /** _query("bxdxyz") with the same patterns: NaN, 3 and 0. */
  lemma QueryOfBxdxyz()
    ensures QueryResult(["abc", "xyz", "b.d"], "bxdxyz") ==
      [("abc", None), ("xyz", Some(3.0)), ("b.d", Some(0.0))]
  {
    var s := "bxdxyz";
    NoMatchAt("abc", s, 0, 0);
    NoMatchAt("abc", s, 1, 1);
    NoMatchAt("abc", s, 2, 0);
    NoMatchAt("abc", s, 3, 0);
    assert SearchFrom("abc", s, 4) == None;
    assert Search("abc", s) == None;
    NoMatchAt("xyz", s, 0, 0);
    NoMatchAt("xyz", s, 1, 1);
    NoMatchAt("xyz", s, 2, 0);
    assert MatchesAt("xyz", s, 3);
    assert Search("xyz", s) == Some(3);
    assert MatchesAt("b.d", s, 0);
    assert Search("b.d", s) == Some(0);
  }

  /** calc_paired_stats on the mates "abcd" and "bxdxyz": mate 1 gives 0, NaN
      and 1, mate 2 gives NaN, 3 and 0; the qualities play no part. */
  lemma PairedQueryOfTestRecords()
    ensures RawPairedStats(SequenceMatcher(["abc", "xyz", "b.d"]),
              PairedRecord(FastqRecord("test1", "abcd", "efgh"), FastqRecord("test1", "bxdxyz", "efghj"))) ==
      Ok([((1, "abc"), Some(0.0)), ((1, "xyz"), None), ((1, "b.d"), Some(1.0)),
          ((2, "abc"), None), ((2, "xyz"), Some(3.0)), ((2, "b.d"), Some(0.0))])
  {
    QueryOfAbcd();
    QueryOfBxdxyz();
    var s := "bxdxyz";
    var ps := ["abc", "xyz", "b.d"];
    assert Keyed(1, QueryResult(ps, "abcd")) == [((1, "abc"), Some(0.0)), ((1, "xyz"), None), ((1, "b.d"), Some(1.0))];
    assert Keyed(2, QueryResult(ps, s)) == [((2, "abc"), None), ((2, "xyz"), Some(3.0)), ((2, "b.d"), Some(0.0))];
    var pr := PairedRecord(FastqRecord("test1", "abcd", "efgh"), FastqRecord("test1", s, "efghj"));
    assert RawSingleStats(SequenceMatcher(ps), pr.read1) == Ok(QueryResult(ps, "abcd"));
    assert RawSingleStats(SequenceMatcher(ps), pr.read2) == Ok(QueryResult(ps, s));
    assert RawPairedStats(SequenceMatcher(ps), pr) == Ok(Keyed(1, QueryResult(ps, "abcd")) + Keyed(2, QueryResult(ps, s)));
    assert Keyed(1, QueryResult(ps, "abcd")) + Keyed(2, QueryResult(ps, s)) ==
      [((1, "abc"), Some(0.0)), ((1, "xyz"), None), ((1, "b.d"), Some(1.0)),
       ((2, "abc"), None), ((2, "xyz"), Some(3.0)), ((2, "b.d"), Some(0.0))];
  }
}
