# Paired FASTQ reading and per-read statistics, in Dafny

This project models the core of `fastq-processing-practice`, which reads
paired-end FASTQ files and tabulates per-read statistics:

- **Record reader** (`FASTQReader`). It reads four lines per record from a text
  file: name, sequence, a separator and quality. Each field is its line minus
  the last character. A step ends cleanly on an exhausted file. It raises
  `FASTQError` when the name line is there but the record is incomplete.
- **Quality codec and record** (`qual_str2num`, `qual_num2str`, `FASTQRecord`).
  The later `FASTQRecord` decodes the quality line, one decimal digit per
  base, and `str(record)` prints the four lines back. The earlier one keeps the
  quality line raw.
- **Pairing** (`PairedFASTQRecord`, `PairedFASTQReader`). Two records pair
  when their names agree up to the first space. The paired reader advances two
  record readers in lockstep through `zip_longest`. It fails when one file runs
  out first or when the names disagree, and ends cleanly when both run out
  together.
- **Calculators and aggregator** (`SequenceMatcher`, `QualityAverager`,
  `calc_paired_stats`, `PairedStatsAggregator`).
  - The matcher reports, per distinct pattern, where its leftmost match
    starts, or NaN.
  - The averager reports the mean quality.
  - The paired form keys mate 1's values by 1 and mate 2's by 2.
  - The aggregator drains a paired reader into one row per paired record.

Both snapshots are modelled: `fastq_stats/` (later) and the repository root
(earlier). Where the two hold the same code, they share one model.

- **Reader code.** `FASTQReader.__next__`, `PairedFASTQRecord` and
  `PairedFASTQReader.__next__` are the same text in both snapshots. The
  readers are therefore generic in the record's quality type and take the
  snapshot's `FASTQRecord` constructor as a parameter.
- **Calculator code.** The matcher, `_query` and the two constructors are also
  shared.

Files:

- `common.dfy`: `Option`, `Result`, the error kinds, and the three-way `Step`
  a reader's `__next__` returns (`Item`, `End`, `Error`).
- `text_source.dfy`: the text file the readers consume, as a class holding
  its lines and a cursor that `next()` advances. It also models how
  `io.StringIO` cuts text into lines.
- `fastq_record.dfy`: records, the quality codec and its round trips, `str()`
  of a record, the mate identity and the pairing check.
- `fastq_reading.dfy`: the reader classes.
  - Each `Next` method is proved against a step function: `ReadStep` or
    `PairStep`.
  - The functions for draining whole files: `ReadAll` and `PairAll`.
  - `ZipRecords`, an independent reference definition of positional pairing.
  - The proof that printed records read back as themselves.
- `fastq_stats.dfy`: the later calculators and the aggregator.
  - A pandas Series is modelled as a sequence of (label, value) entries, with
    `None` for NaN.
  - A table is modelled as a sequence of rows.
- `early_fastq.dfy`, `early_stats.dfy`: what differs in the earlier snapshot.
- `reader_examples.dfy`: the reader tests' records, and how they pair.

## Model

| member | source | states |
|---|---|---|
| `TextSource.TextFile.NextLine` | fastq_stats/fastq_reader.py:65-72 | `next(file)` returns the line under the cursor and advances the cursor by one. On an exhausted file it returns nothing and leaves the cursor where it is. |
| `TextSource.SplitLines` | test/test_fastq_reader.py:20-26 | The lines `io.StringIO(text)` yields concatenate back to the text. None is empty. A `'\n'` only ever ends a line. Every line but the last ends in `'\n'`. |
| `TextSource.SplitTerminatedLine` | test/test_fastq_reader.py:20-26 | A line with no newline inside, followed by `'\n'`, is split off whole from the text after it. |
| `Fastq.QualStrToNum` | fastq_stats/fastq_reader.py:15-23 | Succeeds exactly when every character is a decimal digit. The result then has the same length as the string, and element i is the digit value of character i. Otherwise it is the `ValueError` of `int()`. |
| `Fastq.QualNumToStr` | fastq_stats/fastq_reader.py:25-27 | On values in 0..9 the string has one character per value, and character i is the digit of value i. |
| `Fastq.NatToStr` | fastq_stats/fastq_reader.py:27 | `str(n)` is a non-empty string of digits. It is one character long exactly when n < 10, and it has no leading zero unless n is 0. |
| `Fastq.NatToStrValue` | fastq_stats/fastq_reader.py:27 | The decimal value of `str(n)` is n. |
| `Fastq.QualNumStrRoundTrip` | fastq_stats/fastq_reader.py:15-27 | `qual_str2num(qual_num2str(q)) == q` for every list of values in 0..9. |
| `Fastq.QualStrNumRoundTrip` | fastq_stats/fastq_reader.py:18-27 | `qual_num2str(qual_str2num(s)) == s` for every string of decimal digits. |
| `Fastq.MultiDigitQualityDoesNotRoundTrip` | fastq_stats/fastq_reader.py:18-20 | The round trip needs single digits: `[10]` prints as `"10"` and decodes to `[1, 0]`. |
| `Fastq.NewRecord` | fastq_stats/fastq_reader.py:40-43 | The later `FASTQRecord(name, sequence, quality)` succeeds exactly when the quality line is all digits. It stores the name and sequence unchanged and the decoded qualities, which are in 0..9 and print back to the given line. |
| `Fastq.MateId` | fastq_stats/fastq_reader.py:89 | `name.split(' ')[0]` is a prefix of the name that holds no space. When it is shorter than the name, a space follows it. |
| `Fastq.MakePaired` | fastq_stats/fastq_reader.py:88-93 | Pairing succeeds exactly when the two names agree up to their first space, and the pair holds the two records as given. Otherwise it fails with the mismatched-pair `FASTQError`. The earlier snapshot has the same code at fastq_reader.py:39-45. |
| `Fastq.MateIdOfSuffixedName` | fastq_stats/fastq_reader.py:89 | A space-free identifier is its own mate identity, and so is the identifier followed by a space and any suffix. |
| `Fastq.PairingBySuffixedNames` | test/test_fastq_reader.py:53-74 | Names such as `TESTA:1 R1` and `TESTA:1 R2` pair whatever follows the space. Names whose identifiers differ do not pair. |
| `FastqReading.ReadStep` | fastq_stats/fastq_reader.py:63-76 | One `__next__`. It ends cleanly, consuming nothing, exactly when no line is left. With one to three lines left it fails with the incomplete-record `FASTQError`, having drained the file. Otherwise it consumes exactly four lines and builds the record from lines 1, 2 and 4 without their last character; the constructor's error propagates. The earlier snapshot has the same code at fastq_reader.py:23-36. |
| `FastqReading.SeparatorIgnored` | fastq_stats/fastq_reader.py:71 | The separator line is read and discarded: whatever it holds, the step is the same. |
| `FastqReading.FastqReader.constructor` | fastq_stats/fastq_reader.py:57-58 | The reader wraps the given file and the snapshot's record constructor. |
| `FastqReading.FastqReader.Next` | fastq_stats/fastq_reader.py:63-76 | The imperative `__next__` makes four `next()` calls on the file. Its result and the file's new cursor are exactly those of `ReadStep` from the old cursor. |
| `FastqReading.ReadAll` | fastq_stats/fastq_reader.py:60-76 | Iterating the reader yields no records when its first step ends the file, and the first step's error when that step fails. A run without error consumes four lines per record, and record i is what the step at line 4i yields. |
| `FastqReading.ReadAllOkIff` | fastq_stats/fastq_reader.py:60-76 | Iterating the reader yields exactly the records rs if and only if the step at line 4i yields record i for each i and the file ends right after the last of them. |
| `FastqReading.ReadAllError` | fastq_stats/fastq_reader.py:60-76 | A failed iteration stops at its first failing step. Every step before it yields a record, and the iteration's error is that step's error. |
| `FastqReading.ReadAllErrors` | fastq_stats/fastq_reader.py:60-76 | Iterating a reader fails only with the incomplete-record `FASTQError` or with an error the record constructor raises. |
| `FastqReading.DecodedReadAll` | fastq_stats/fastq_reader.py:15-76 | The later reader iterates a file without error exactly when the lines left come in whole groups of four and every quality line, without its last character, is all digits. Its only errors are the incomplete record and the `ValueError` of a non-digit quality. |
| `FastqReading.PairStep` | fastq_stats/fastq_reader.py:112-118 | One `__next__` of the paired reader. It ends cleanly exactly when both files are exhausted. An error of reader 1 propagates and leaves reader 2 untouched; otherwise both readers take one step and an error of reader 2 propagates. When one reader ends and the other yields a record, it is the different-length `FASTQError`. When both yield records, they pair if and only if their mate identities agree, and otherwise it is the mismatched-pair `FASTQError`. A pair consumes four lines of each file and joins the two records. The earlier snapshot has the same code at fastq_reader.py:59-65. |
| `FastqReading.PairedFastqReader.constructor` | fastq_stats/fastq_reader.py:103-106 | One reader per file, both with the same record constructor. |
| `FastqReading.PairedFastqReader.Next` | fastq_stats/fastq_reader.py:112-118 | The imperative `__next__` advances reader 1 and then reader 2. Its result and both cursors are exactly those of `PairStep`. |
| `FastqReading.PairAll` | fastq_stats/fastq_reader.py:109-118 | Draining the paired reader stays within both files. A run without error consumes both files entirely. Two files that are already exhausted yield no pairs. |
| `FastqReading.PairAllOk` | fastq_stats/fastq_reader.py:103-118 | A paired iteration without error implies that each file, read on its own, iterates without error. The pairs are then exactly `ZipRecords` of the two record lists. |
| `FastqReading.PairAllError` | fastq_stats/fastq_reader.py:109-118 | A failed paired iteration stops at its first failing step. Every step before it yields a pair, and the iteration's error and the two files' final positions are that step's. |
| `FastqReading.PairAllMismatchAt` | fastq_stats/fastq_reader.py:88-118 | Take two files that read without error, whose records agree in mate identity before record k and disagree at record k. The paired iteration stops with the mismatched-pair `FASTQError`, both files standing just after record k. |
| `FastqReading.PairAllLengthAt` | fastq_stats/fastq_reader.py:112-118 | Take two files that read without error, with different record counts and mates that agree as far as both go. The paired iteration stops with the different-length `FASTQError`. The shorter file stands after its last record and the longer after the record just past that point. |
| `FastqReading.ZipRecords` | fastq_stats/fastq_reader.py:103-118 | Reference pairing of two record lists. It succeeds exactly when the lengths are equal and every n-th pair agrees in mate identity, and pair n then joins the n-th records. It gives the length error exactly when the lengths differ and the mates agree as far as both go, and the mate error exactly when some common position disagrees. |
| `FastqReading.ZipConsumedOk` | fastq_stats/fastq_reader.py:112-118 | When the reference pairing succeeds, the paired reader consumes four lines per record of each file. |
| `FastqReading.ZipMismatchAt` | fastq_stats/fastq_reader.py:88-118 | Take record lists whose mates agree before position k and disagree at k. The reference pairing gives the mismatched-pair error, after four lines per record up to and including record k in each file. |
| `FastqReading.ZipLengthAt` | fastq_stats/fastq_reader.py:112-118 | Take record lists of different lengths whose mates agree as far as both go. The reference pairing gives the different-length error. The shorter list is consumed entirely, and the longer one up to one record past that point. |
| `FastqReading.PairAllOfWellFormed` | fastq_stats/fastq_reader.py:103-118 | On two files that each read without error, draining the paired reader gives exactly `ZipRecords` of the two record lists. It leaves each file where `ZipConsumed` says the reference pairing stops. |
| `FastqReading.SplitFormatted` | fastq_stats/fastq_reader.py:45-51 | A printable record's `str()`, followed by any text, splits into the record's four lines followed by the lines of that text. |
| `FastqReading.ReadRecordLines` | fastq_stats/fastq_reader.py:63-76 | A record's printed lines, read at any position, yield that very record and consume four lines. |
| `FastqReading.ReadLinesOf` | fastq_stats/fastq_reader.py:60-76 | Printed records placed after any lines read back as exactly those records, in order: each step yields the next record, and the file ends after the last. |
| `FastqReading.ReadFormattedRecords` | fastq_stats/fastq_reader.py:45-51 | Reading the text of printed records gives back exactly those records. |
| `FastqReading.ReadFormattedPairs` | fastq_stats/fastq_reader.py:103-118 | Two files of printed records read back as the pairs `ZipRecords` makes of the two lists. |
| `FastqReading.FormatOfRead` | fastq_stats/fastq_reader.py:40-51 | Take a well-formed record of four newline-terminated lines whose separator is `+`. The record the reader builds prints back to exactly those four lines. |
| `FastqStats.SearchFrom` | fastq_stats/stats_collectors.py:70-71 | `search()` finds a match that lies within the text and has no match before it, or reports none exactly when no position matches. |
| `FastqStats.Dedup` | fastq_stats/stats_collectors.py:64 | The keys of `{p: re.compile(p) for p in patterns}` are distinct. They are exactly the given patterns, in the order of each pattern's first occurrence. |
| `FastqStats.NewSequenceMatcher` | fastq_stats/stats_collectors.py:61-64 | An empty pattern list is the `ValueError`. Otherwise the matcher holds the deduplicated patterns, which are non-empty and distinct. The earlier snapshot has the same code at stats_collectors.py:37-40. |
| `FastqStats.Query` | fastq_stats/stats_collectors.py:66-72 | The loop that starts every entry at NaN and overwrites the entries of matching patterns returns exactly `QueryResult`. The earlier snapshot has the same code at stats_collectors.py:42-48. |
| `FastqStats.QueryEntry` | fastq_stats/stats_collectors.py:66-72 | Entry i of `_query(s)` is labelled by pattern i. It is NaN exactly when the pattern matches nowhere. Otherwise it is the leftmost match start, which lies within the text. |
| `FastqStats.Mean` | fastq_stats/stats_collectors.py:82 | `np.mean` is NaN exactly on an empty list. Otherwise, times the length, it is the sum. |
| `FastqStats.MeanOfDigits` | fastq_stats/stats_collectors.py:82 | The mean of a non-empty list of qualities in 0..9 is between 0 and 9. |
| `FastqStats.SingleStats` | fastq_stats/stats_collectors.py:74-82 | `_calc_single_stats` reports the calculator's metric names, in order, for every record. For the matcher these are its patterns, and for the averager `avg_qual`. |
| `FastqStats.PairedStats` | fastq_stats/stats_collectors.py:23-28 | `calc_paired_stats` holds mate 1's values keyed `(1, metric)`, followed by mate 2's keyed `(2, metric)`, with the same metric list in both halves. |
| `FastqStats.RowStats` | fastq_stats/stats_collectors.py:43-46 | A row's labels are the calculators' columns in the order the calculators were given. They are the same for every record. |
| `FastqStats.RowStatsAppend` | fastq_stats/stats_collectors.py:43-46 | A row is the concatenation of the calculators' paired stats: splitting the calculator list splits the row at the same place. |
| `FastqStats.NewAggregator` | fastq_stats/stats_collectors.py:38-41 | An empty calculator list is the `ValueError`. Otherwise the aggregator keeps the list as given. The earlier snapshot has the same code at stats_collectors.py:28-31. |
| `FastqStats.TableOfStep` | fastq_stats/stats_collectors.py:51-54 | One step of the paired reader, seen from the table. A clean end leaves an empty table, a reader error is the table's error, and a paired record puts its row in front of the rows of the records after it. |
| `FastqStats.AggregateStats` | fastq_stats/stats_collectors.py:48-54 | The loop that drains the reader returns one row per paired record, in reader order, or the reader's error with no table. It leaves both files where draining the paired reader stops. |
| `FastqStats.TabulateRows` | fastq_stats/stats_collectors.py:48-54 | The table has one row per paired record, and row i is the stats row of pair i. |
| `FastqStats.TableOfWellFormed` | fastq_stats/stats_collectors.py:48-54 | On two well-formed files, aggregation succeeds exactly when the record counts agree and every pair agrees in mate identity. Row n is then the row of the n-th records. |
| `EarlyFastq.NewRawRecord` | fastq_reader.py:7-10 | The earlier `FASTQRecord` cannot fail and keeps the name, sequence and raw quality line unchanged. |
| `EarlyFastq.RawStep` | fastq_reader.py:23-36 | With the earlier record, a step fails only on an incomplete record, draining the file. A full record is lines 1, 2 and 4 without their last character, and consumes four lines. |
| `EarlyFastq.RawReadAll` | fastq_reader.py:20-36 | The earlier reader drains a file without error exactly when the remaining lines come in whole groups of four. Its only error is the incomplete record. |
| `EarlyFastq.RawPairAll` | fastq_reader.py:48-65 | On two files of whole records, the earlier paired reader gives exactly `ZipRecords` of the two record lists. |
| `EarlyStats.RawSingleStats` | stats_collectors.py:50-58 | The earlier `_calc_single_stats`, as written, succeeds exactly for the matcher, whose labels are its patterns. The averager fails on every record. |
| `EarlyStats.SequenceStatsReadSequenceOnly` | stats_collectors.py:50-51 | Sequence statistics depend on the sequence only. In either snapshot, any two records with the same sequence give the same entries, whatever their names and qualities. |
| `EarlyStats.RawPairedStats` | stats_collectors.py:15-20 | The earlier `calc_paired_stats` holds mate 1's entries keyed 1, then mate 2's keyed 2, with the same metrics in both halves. It succeeds exactly for the matcher. |
| `EarlyStats.DecodedSingleStats` | stats_collectors.py:57-58 | The averager as intended decodes the quality line. It succeeds on the averager exactly when the line is all digits, and its labels are the calculator's metric names. |
| `EarlyStats.DecodedMatchesLater` | stats_collectors.py:50-58 | The intended averager agrees with the earlier matcher and, on digit lines, with the later snapshot. Its mean of a non-empty digit line is between 0 and 9. |
| `EarlyStats.AveragerFailsOnRawQuality` | stats_collectors.py:57-58 | On quality `"1234"` the averager as written fails, where the intended one reports 2.5. |
| `EarlyStats.QueryOfAbcd` | test/test_stats_collectors.py:16-23 | `_query("abcd")` with `abc`, `xyz` and `b.d` holds 0, NaN and 1, labelled by the patterns. |
| `EarlyStats.QueryOfBxdxyz` | test/test_stats_collectors.py:33-44 | `_query("bxdxyz")` with `abc`, `xyz` and `b.d` holds NaN, 3 and 0, labelled by the patterns. |
| `EarlyStats.PairedQueryOfTestRecords` | test/test_stats_collectors.py:33-44 | The paired matcher stats for mates `abcd` and `bxdxyz` are 0, NaN and 1 under key 1, then NaN, 3 and 0 under key 2. |
| `ReaderExamples.RecordDecodesQualities` | test/test_fastq_reader.py:13-15 | `FASTQRecord("TESTA:1 R1", "AGCT", "1234")` holds the qualities `[1, 2, 3, 4]`. |
| `ReaderExamples.TestMateIds` | test/test_fastq_reader.py:5-9 | The test names `TESTA:n R1` and `TESTA:n R2` share the mate identity `TESTA:n`. |
| `ReaderExamples.PairTestRecords` | test/test_fastq_reader.py:78-104 | The test records pair as the tests expect. Two files of two records each give the two pairs in order. A file of two records against a file of one record gives the length error. |

## Left out

- **Opening files and the CLI are not modelled.** `gzip`, argparse, the analysis
  runner and the CSV and plot writers are I/O plumbing. A file is its list of
  lines; `io.StringIO` splitting is modelled because the tests feed text through
  it.
- **Regular expressions are limited to literal characters and `.`.** Patterns
  are literal characters plus `.`, which matches any character but a newline.
  Search is leftmost-first.
  - Other metacharacters are treated as literal characters.
  - `re.error` on a malformed pattern is not modelled.
  - This covers every pattern the tests use; the general engine is foreign code.
- **Quality decoding accepts ASCII digits only.** `int(c)` also accepts
  non-ASCII Unicode decimal digits; the model decodes `'0'`..`'9'` only.
- **Floating point is not modelled.** The mean is an exact `real`, and NaN is
  `None`. This includes the NaN that `np.mean` returns, with a warning, for an
  empty quality line.
- **pandas internals are not modelled:** index alignment, the DataFrame's
  column union and dtypes. Rows are label/value sequences.
  - The table is the list of rows. Every row has the same labels (proved by
    `FastqStats.RowStats`), so no column union is needed.
- **`FastqReading.PairedFastqReader.constructor`: requires two distinct file
  objects.** Passing the same file object for both mates, which would
  interleave the two readers' `next()` calls, is not modelled.
- **`zip_longest`'s internal state is not modelled.** The iterator's own
  "exhausted" flags are not modelled: a drained reader keeps ending cleanly, so
  its behaviour is the same.
- **The earlier `to_string` stub is not modelled** (fastq_reader.py:12-14). It
  returns nothing.
- **The mistyped default argument of `PairedStatsAggregator` is not
  modelled.** The default value `List[PairedStatsCalculator]` is not a list of
  calculators; only the explicit-list constructor is modelled.
- **Behaviour of the code worth noting.** The model keeps each of these as
  the code has it:
  - Mate identities are cut at the first literal space character, not at any
    whitespace.
  - Duplicate patterns collapse into one column at their first occurrence.
  - An empty quality line averages to NaN rather than failing.

## Findings

| source | as written | input that shows it | evidently intended | confidence | as-written member | corrected member |
|---|---|---|---|---|---|---|
| stats_collectors.py:57-58 | `np.mean(record.quality)` receives the raw quality string that the earlier `FASTQRecord` keeps (fastq_reader.py:10). numpy cannot reduce a `str` and raises `TypeError`, so the averager fails on every record. | a record with quality line `"1234"` | the mean of the per-base digit qualities, 2.5, as the later snapshot computes after decoding in `FASTQRecord` (fastq_stats/fastq_reader.py:43) | high, not executed | `EarlyStats.AveragerFailsOnRawQuality` | `EarlyStats.DecodedSingleStats` |
