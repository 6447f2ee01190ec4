/** The statistics calculators and the aggregator of the later snapshot:
    a calculator turns one read into a Series of named values, the paired
    form keys mate 1's values by 1 and mate 2's by 2, and the aggregator
    builds one row per paired record drained from a paired reader. pandas
    Series are sequences of (label, value) entries, with None for NaN (the
    "absent" marker, distinct from 0). */
module FastqStats {
  import opened Common
  import opened Fastq
  import opened FastqReading

  /** A pandas Series: labelled entries in order; None stands for NaN. */
  type Series<K> = seq<(K, Option<real>)>

  /** One row of the table: labels are (mate, metric). */
  type Row = Series<(int, string)>

  /** pd.DataFrame(stats): the rows in order. */
  type Table = seq<Row>

  function Labels<K>(s: Series<K>): seq<K>
  {
    seq(|s|, i requires 0 <= i < |s| => s[i].0)
  }

  // ---------------------------------------------------------------------------
  // Pattern search: re.compile(p).search(s).start()
  // ---------------------------------------------------------------------------

  /** One pattern character against one text character: '.' stands for any
      character but a newline, every other character for itself. */
  predicate CharMatches(p: char, c: char)
  {
    p == c || (p == '.' && c != '\n')
  }

  /** The pattern matches the text starting at position i. */
  predicate MatchesAt(pattern: string, s: string, i: nat)
  {
    i + |pattern| <= |s| && forall j :: 0 <= j < |pattern| ==> CharMatches(pattern[j], s[i + j])
  }

  /** k is where search() reports the match: the leftmost position that matches. */
  ghost predicate IsLeftmostMatch(pattern: string, s: string, k: nat)
  {
    MatchesAt(pattern, s, k) && forall j :: 0 <= j < k ==> !MatchesAt(pattern, s, j)
  }

  /** Leftmost match at or after `from`, scanning left to right. */
  function SearchFrom(pattern: string, s: string, from: nat): (r: Option<nat>)
    ensures r.Some? ==> from <= r.value && r.value + |pattern| <= |s| && MatchesAt(pattern, s, r.value)
    ensures r.Some? ==> forall j :: from <= j < r.value ==> !MatchesAt(pattern, s, j)
    ensures r.None? ==> forall j :: from <= j ==> !MatchesAt(pattern, s, j)
    decreases |s| - from
  {
    if from + |pattern| > |s| then None
    else if MatchesAt(pattern, s, from) then Some(from)
    else SearchFrom(pattern, s, from + 1)
  }

  /** compiled.search(s): the start of the leftmost match, None when there is none. */
  function Search(pattern: string, s: string): Option<nat>
  {
    SearchFrom(pattern, s, 0)
  }

  // ---------------------------------------------------------------------------
  // SequenceMatcher
  // ---------------------------------------------------------------------------

  ghost predicate Distinct<T>(s: seq<T>)
  {
    forall i, j :: 0 <= i < j < |s| ==> s[i] != s[j]
  }

  function FirstIndex<T(==)>(s: seq<T>, x: T): (k: nat)
    requires x in s
    ensures k < |s| && s[k] == x && forall j :: 0 <= j < k ==> s[j] != x
  {
    if s[0] == x then 0 else 1 + FirstIndex(s[1..], x)
  }

  lemma FirstIndexOfPrefix<T>(s: seq<T>, n: nat, x: T)
    requires n <= |s| && x in s[..n]
    ensures FirstIndex(s, x) == FirstIndex(s[..n], x)
  {
    var k := FirstIndex(s[..n], x);
    var k' := FirstIndex(s, x);
    assert s[k] == x;
    assert k' <= k;
    assert s[..n][k'] == s[k'];
  }

  /** The keys of {p: re.compile(p) for p in patterns}: every pattern once,
      in the order of its first occurrence. */
  function Dedup(ps: seq<string>): (d: seq<string>)
    ensures Distinct(d)
    ensures forall x :: x in d <==> x in ps
    ensures forall i, j :: 0 <= i < j < |d| ==> FirstIndex(ps, d[i]) < FirstIndex(ps, d[j])
  {
    if ps == [] then []
    else
      var init := ps[..|ps| - 1];
      var last := ps[|ps| - 1];
      var d := Dedup(init);
      assert ps == init + [last];
      assert forall x :: x in d ==> FirstIndex(ps, x) == FirstIndex(init, x) by {
        forall x | x in d ensures FirstIndex(ps, x) == FirstIndex(init, x) {
          FirstIndexOfPrefix(ps, |ps| - 1, x);
        }
      }
      if last in d then d
      else
        assert FirstIndex(ps, last) == |ps| - 1;
        d + [last]
  }

  /** The two kinds of PairedStatsCalculator. */
  datatype Calculator = SequenceMatcher(patterns: seq<string>) | QualityAverager

  /** SequenceMatcher(patterns): ValueError on an empty list; duplicate
      patterns collapse into one. */
  function NewSequenceMatcher(patterns: seq<string>): (r: Result<Calculator, ConfigError>)
    ensures r.Err? <==> patterns == []
    ensures r.Err? ==> r.error == EmptyPatterns
    ensures r.Ok? ==> r.value.SequenceMatcher? && r.value.patterns == Dedup(patterns)
    ensures r.Ok? ==> r.value.patterns != [] && Distinct(r.value.patterns)
  {
    if patterns == [] then Err(EmptyPatterns)
    else
      assert patterns[0] in Dedup(patterns);
      Ok(SequenceMatcher(Dedup(patterns)))
  }

  /** A search result as a Series value: the match start, or NaN. */
  function Position(m: Option<nat>): Option<real>
  {
    match m
    case None => None
    case Some(k) => Some(k as real)
  }

  /** The Series _query(s) returns: one entry per pattern, labelled by it. */
  function QueryResult(patterns: seq<string>, s: string): Series<string>
  {
    seq(|patterns|, i requires 0 <= i < |patterns| => (patterns[i], Position(Search(patterns[i], s))))
  }

  /** _query(s): start from NaN for every pattern, then overwrite the entry of
      each pattern that matches with its match start. The labels are the
      matcher's distinct dict keys, so the entry labelled `pattern` is the
      i-th one. */
  method Query(patterns: seq<string>, s: string) returns (matches: Series<string>)
    ensures matches == QueryResult(patterns, s)
  {
    matches := seq(|patterns|, i requires 0 <= i < |patterns| => (patterns[i], None));
    for i := 0 to |patterns|
      invariant |matches| == |patterns|
      invariant forall k :: 0 <= k < i ==> matches[k] == (patterns[k], Position(Search(patterns[k], s)))
      invariant forall k :: i <= k < |patterns| ==> matches[k] == (patterns[k], None)
    {
      var found := Search(patterns[i], s);
      if found.Some? {
        matches := matches[i := (patterns[i], Some(found.value as real))];
      }
    }
  }

  /** Entry i of _query(s) is labelled by pattern i and holds the leftmost
      match start, which lies within the text, or NaN exactly when the pattern
      matches nowhere. */
  lemma QueryEntry(patterns: seq<string>, s: string, i: nat)
    requires i < |patterns|
    ensures QueryResult(patterns, s)[i].0 == patterns[i]
    ensures QueryResult(patterns, s)[i].1.None? <==> forall j: nat :: !MatchesAt(patterns[i], s, j)
    ensures forall k: nat :: IsLeftmostMatch(patterns[i], s, k) ==>
      QueryResult(patterns, s)[i].1 == Some(k as real) && k + |patterns[i]| <= |s|
  {
    var r := Search(patterns[i], s);
    if r.Some? {
      var m := r.value;
      assert MatchesAt(patterns[i], s, m);
      forall k: nat | IsLeftmostMatch(patterns[i], s, k) ensures k == m {
      }
    }
  }

  // ---------------------------------------------------------------------------
  // QualityAverager
  // ---------------------------------------------------------------------------

  function Sum(q: seq<int>): int
  {
    if q == [] then 0 else q[0] + Sum(q[1..])
  }

  /** np.mean(quality): the exact mean; NaN (None) for an empty list. */
  function Mean(q: seq<int>): (m: Option<real>)
    ensures m.None? <==> q == []
    ensures m.Some? ==> m.value * (|q| as real) == Sum(q) as real
  {
    if q == [] then None else Some(Sum(q) as real / |q| as real)
  }

  lemma {:induction false} SumOfDigits(q: seq<int>)
    requires InDigitRange(q)
    ensures 0 <= Sum(q) <= 9 * |q|
  {
    if q != [] {
      assert InDigitRange(q[1..]);
      SumOfDigits(q[1..]);
    }
  }

  /** The mean of one-digit qualities is itself between 0 and 9. */
  lemma MeanOfDigits(q: seq<int>)
    requires InDigitRange(q) && q != []
    ensures 0.0 <= Mean(q).value <= 9.0
  {
    SumOfDigits(q);
    QuotientBounds(Sum(q) as real, |q| as real, Mean(q).value);
  }

  lemma QuotientBounds(total: real, n: real, m: real)
    requires n > 0.0 && m * n == total && 0.0 <= total <= 9.0 * n
    ensures 0.0 <= m <= 9.0
  {
  }

  // ---------------------------------------------------------------------------
  // Calculators on one read, and on a pair
  // ---------------------------------------------------------------------------

  /** The metric names a calculator reports, in order. */
  function MetricNames(c: Calculator): seq<string>
  {
    match c
    case SequenceMatcher(ps) => ps
    case QualityAverager => ["avg_qual"]
  }

  /** _calc_single_stats(record): the pattern matches of the sequence, or the
      single "avg_qual" entry. Its labels depend on the calculator only. */
  function SingleStats(c: Calculator, r: Record): (s: Series<string>)
    ensures Labels(s) == MetricNames(c)
  {
    match c
    case SequenceMatcher(ps) => QueryResult(ps, r.sequence)
    case QualityAverager => [("avg_qual", Mean(r.quality))]
  }

  /** pd.concat([stats], keys = [mate]): every label prefixed with the mate. */
  function Keyed(mate: int, s: Series<string>): Row
  {
    seq(|s|, i requires 0 <= i < |s| => ((mate, s[i].0), s[i].1))
  }

  /** calc_paired_stats(record): mate 1's entries keyed (1, metric), then mate
      2's keyed (2, metric), the same metrics in the same order in both halves. */
  function PairedStats(c: Calculator, pr: PairedRecord<seq<int>>): (row: Row)
    ensures |row| == 2 * |MetricNames(c)|
    ensures forall i :: 0 <= i < |MetricNames(c)| ==>
      row[i] == ((1, MetricNames(c)[i]), SingleStats(c, pr.read1)[i].1)
    ensures forall i :: 0 <= i < |MetricNames(c)| ==>
      row[|MetricNames(c)| + i] == ((2, MetricNames(c)[i]), SingleStats(c, pr.read2)[i].1)
  {
    var s1, s2 := SingleStats(c, pr.read1), SingleStats(c, pr.read2);
    assert Labels(s1) == MetricNames(c) == Labels(s2);
    Keyed(1, s1) + Keyed(2, s2)
  }

  function MateColumns(mate: int, names: seq<string>): seq<(int, string)>
  {
    seq(|names|, i requires 0 <= i < |names| => (mate, names[i]))
  }

  /** The table's columns, fixed by the calculator list before any read. */
  function Columns(calcs: seq<Calculator>): seq<(int, string)>
  {
    if calcs == [] then []
    else MateColumns(1, MetricNames(calcs[0])) + MateColumns(2, MetricNames(calcs[0])) + Columns(calcs[1..])
  }

  /** _single_read_stats(record): the paired stats of every calculator,
      concatenated in the order the calculators were supplied. Its labels are
      the same for every record. */
  function RowStats(calcs: seq<Calculator>, pr: PairedRecord<seq<int>>): (row: Row)
    ensures Labels(row) == Columns(calcs)
  {
    if calcs == [] then []
    else
      var head, rest := PairedStats(calcs[0], pr), RowStats(calcs[1..], pr);
      LabelsOfPaired(calcs[0], pr);
      LabelsOfConcat(head, rest);
      head + rest
  }

  lemma LabelsOfConcat<K>(a: Series<K>, b: Series<K>)
    ensures Labels(a + b) == Labels(a) + Labels(b)
  {
  }

  lemma LabelsOfPaired(c: Calculator, pr: PairedRecord<seq<int>>)
    ensures Labels(PairedStats(c, pr)) == MateColumns(1, MetricNames(c)) + MateColumns(2, MetricNames(c))
  {
  }

  /** Splitting the calculator list splits the row at the same place. */
  lemma {:induction false} RowStatsAppend(calcs1: seq<Calculator>, calcs2: seq<Calculator>, pr: PairedRecord<seq<int>>)
    ensures RowStats(calcs1 + calcs2, pr) == RowStats(calcs1, pr) + RowStats(calcs2, pr)
  {
    if calcs1 != [] {
      assert (calcs1 + calcs2)[1..] == calcs1[1..] + calcs2;
      RowStatsAppend(calcs1[1..], calcs2, pr);
    } else {
      assert calcs1 + calcs2 == calcs2;
    }
  }

  // ---------------------------------------------------------------------------
  // PairedStatsAggregator
  // ---------------------------------------------------------------------------

  datatype Aggregator = Aggregator(calculators: seq<Calculator>)

  /** PairedStatsAggregator(calculators): ValueError on an empty list. */
  function NewAggregator(calculators: seq<Calculator>): (r: Result<Aggregator, ConfigError>)
    ensures r.Err? <==> calculators == []
    ensures r.Err? ==> r.error == EmptyCalculators
    ensures r.Ok? ==> r.value.calculators == calculators
  {
    if calculators == [] then Err(EmptyCalculators) else Ok(Aggregator(calculators))
  }

  /** One row per paired record, in order. */
  function Tabulate(calcs: seq<Calculator>, pairs: seq<PairedRecord<seq<int>>>): Table
  {
    if pairs == [] then [] else [RowStats(calcs, pairs[0])] + Tabulate(calcs, pairs[1..])
  }

  /** The table of a drained stream, or the error that stopped it. */
  function TableOf(calcs: seq<Calculator>, drained: Result<seq<PairedRecord<seq<int>>>, ReadError>): Result<Table, ReadError>
  {
    match drained
    case Ok(pairs) => Ok(Tabulate(calcs, pairs))
    case Err(e) => Err(e)
  }

  function Prepend(rows: Table, t: Result<Table, ReadError>): Result<Table, ReadError>
  {
    match t
    case Ok(rest) => Ok(rows + rest)
    case Err(e) => Err(e)
  }

  /** One step of the paired reader, seen from the table: a clean end leaves
      an empty table, an error is the table's error, and a record puts its row
      in front of the table of the records after it. */
  lemma TableOfStep(calcs: seq<Calculator>, construct: Constructor<seq<int>>,
                    lines1: seq<string>, pos1: nat, lines2: seq<string>, pos2: nat)
    requires pos1 <= |lines1| && pos2 <= |lines2|
    ensures var st := PairStep(construct, lines1, pos1, lines2, pos2);
      var whole := PairAll(construct, lines1, pos1, lines2, pos2);
      (st.0.End? ==> TableOf(calcs, whole.result) == Ok([]) && whole.pos1 == st.1 && whole.pos2 == st.2) &&
      (st.0.Error? ==> TableOf(calcs, whole.result) == Err(st.0.error) && whole.pos1 == st.1 && whole.pos2 == st.2)
    ensures var st := PairStep(construct, lines1, pos1, lines2, pos2);
      st.0.Item? ==>
      var whole, rest := PairAll(construct, lines1, pos1, lines2, pos2), PairAll(construct, lines1, st.1, lines2, st.2);
      TableOf(calcs, whole.result) == Prepend([RowStats(calcs, st.0.value)], TableOf(calcs, rest.result)) &&
      whole.pos1 == rest.pos1 && whole.pos2 == rest.pos2
  {
    var st := PairStep(construct, lines1, pos1, lines2, pos2);
    if st.0.Item? {
      var rest := PairAll(construct, lines1, st.1, lines2, st.2);
      PairAllAfterItem(construct, lines1, pos1, lines2, pos2);
      if rest.result.Ok? {
        TabulateCons(calcs, st.0.value, rest.result.value);
      }
    } else if st.0.End? {
      assert Tabulate(calcs, []) == [];
    }
  }

  lemma PrependRow(rows: Table, row: Row, t: Result<Table, ReadError>)
    ensures Prepend(rows, Prepend([row], t)) == Prepend(rows + [row], t)
  {
    if t.Ok? {
      assert rows + ([row] + t.value) == (rows + [row]) + t.value;
    }
  }

  lemma PrependNothing(t: Result<Table, ReadError>)
    ensures Prepend([], t) == t
  {
    if t.Ok? {
      assert [] + t.value == t.value;
    }
  }

  lemma TabulateCons(calcs: seq<Calculator>, pair: PairedRecord<seq<int>>, pairs: seq<PairedRecord<seq<int>>>)
    ensures Tabulate(calcs, [pair] + pairs) == [RowStats(calcs, pair)] + Tabulate(calcs, pairs)
  {
    ConsTail(pair, pairs);
  }

  lemma ConsTail<T>(x: T, s: seq<T>)
    ensures ([x] + s)[0] == x && ([x] + s)[1..] == s
  {
  }

  /** aggregate_stats(reader): drain the paired reader, appending one row per
      record; a reader error propagates and no table is returned. */
  method AggregateStats(agg: Aggregator, reader: PairedFastqReader<seq<int>>) returns (table: Result<Table, ReadError>)
    requires reader.Valid()
    modifies reader.reader1.file, reader.reader2.file
    ensures reader.Valid()
    ensures var d := PairAll(reader.reader1.construct, reader.reader1.file.lines, old(reader.reader1.file.pos),
                             reader.reader2.file.lines, old(reader.reader2.file.pos));
      table == TableOf(agg.calculators, d.result) &&
      reader.reader1.file.pos == d.pos1 && reader.reader2.file.pos == d.pos2
  {
    ghost var construct := reader.reader1.construct;
    ghost var lines1, lines2 := reader.reader1.file.lines, reader.reader2.file.lines;
    ghost var whole := PairAll(construct, lines1, reader.reader1.file.pos, lines2, reader.reader2.file.pos);
    var stats: Table := [];
    PrependNothing(TableOf(agg.calculators, whole.result));
    while true
      invariant reader.Valid()
      invariant var d := PairAll(construct, lines1, reader.reader1.file.pos, lines2, reader.reader2.file.pos);
        d.pos1 == whole.pos1 && d.pos2 == whole.pos2 &&
        TableOf(agg.calculators, whole.result) == Prepend(stats, TableOf(agg.calculators, d.result))
      decreases |lines1| - reader.reader1.file.pos + |lines2| - reader.reader2.file.pos
    {
      ghost var pos1, pos2 := reader.reader1.file.pos, reader.reader2.file.pos;
      TableOfStep(agg.calculators, construct, lines1, pos1, lines2, pos2);
      var step := reader.Next();
      match step {
        case End =>
          assert stats + [] == stats;
          return Ok(stats);
        case Error(e) =>
          return Err(e);
        case Item(pair) =>
          var row := RowStats(agg.calculators, pair);
          PrependRow(stats, row, TableOf(agg.calculators, PairAll(construct, lines1, reader.reader1.file.pos, lines2, reader.reader2.file.pos).result));
          stats := stats + [row];
      }
    }
  }

  /** On two well-formed files, aggregation succeeds exactly when the record
      counts agree and every pair has one mate identity; the table then has one
      row per pair of n-th records, in file order. */
  lemma TableOfWellFormed(calcs: seq<Calculator>, construct: Constructor<seq<int>>, lines1: seq<string>, lines2: seq<string>)
    requires ReadAll(construct, lines1, 0).Ok? && ReadAll(construct, lines2, 0).Ok?
    ensures var rs1, rs2 := ReadAll(construct, lines1, 0).value, ReadAll(construct, lines2, 0).value;
      var t := TableOf(calcs, PairAll(construct, lines1, 0, lines2, 0).result);
      (t.Ok? <==> |rs1| == |rs2| && MatesAgree(rs1, rs2, |rs1|)) &&
      (t.Ok? ==> |t.value| == |rs1|) &&
      (t.Ok? ==> forall i :: 0 <= i < |rs1| ==> t.value[i] == RowStats(calcs, PairedRecord(rs1[i], rs2[i])))
  {
    PairAllOfWellFormed(construct, lines1, 0, lines2, 0);
    var d := PairAll(construct, lines1, 0, lines2, 0).result;
    if d.Ok? {
      TabulateRows(calcs, d.value);
    }
  }

  /** The table has one row per paired record: row i is the stats of pair i. */
  lemma {:induction false} TabulateRows(calcs: seq<Calculator>, pairs: seq<PairedRecord<seq<int>>>)
    ensures |Tabulate(calcs, pairs)| == |pairs|
    ensures forall i :: 0 <= i < |pairs| ==> Tabulate(calcs, pairs)[i] == RowStats(calcs, pairs[i])
  {
    if pairs != [] {
      TabulateRows(calcs, pairs[1..]);
      var t := Tabulate(calcs, pairs);
      forall i | 0 <= i < |pairs| ensures t[i] == RowStats(calcs, pairs[i]) {
        if i > 0 {
          assert pairs[1..][i - 1] == pairs[i];
        }
      }
    }
  }
}
