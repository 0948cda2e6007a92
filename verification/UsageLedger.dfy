/**
 The deduplicating merge of scripts/merge-provider-live-usage.py.

 The merge is proved for any way of reading, writing and keying rows in which a
 row that was read is written to a line that reads back as the same row; the
 receipts of UsageRows are such a way.
 */
module UsageLedger {
  import opened Wrappers
  import opened UsageRows

  datatype Book = Book(read: Line -> Option<Row>, write: Row -> Line, key: Row -> Key)

  function BookOf(env: Env): Book { Book(line => RowOf(env, line), LineOf, KeyOf) }

  ghost predicate ReadsBack(book: Book, row: Row) { book.read(book.write(row)) == Some(row) }

  // Blank lines hold no row, and a row that was read is written as it reads.
  ghost predicate Faithful(book: Book) {
    && book.read(Blank).None?
    && forall line | book.read(line).Some? :: ReadsBack(book, book.read(line).value)
  }

  lemma BookIsFaithful(env: Env)
    requires Lawful(env)
    ensures Faithful(BookOf(env))
  {
    var book := BookOf(env);
    forall line | book.read(line).Some? ensures ReadsBack(book, book.read(line).value) {
      LineReadsBack(env, line);
    }
  }

  lemma LineReadsBack(env: Env, line: Line)
    requires Lawful(env) && RowOf(env, line).Some?
    ensures RowOf(env, LineOf(RowOf(env, line).value)) == RowOf(env, line)
  {
    NormalisedIsFixed(env, line.doc);
  }

  // A receipt file, or nothing when it cannot be opened.
  datatype Source = Source(path: string, receipt: Option<seq<Line>>)

  // A file that is named as a source: one that holds text, or cannot be opened, is read
  // as such; one that is not UTF-8 raises an error that nothing catches.
  datatype File = Readable(source: Source) | NotText(path: string)

  function PathOf(file: File): string { if file.NotText? then file.path else file.source.path }

  // How many files come before the first one that is not text.
  function TextLength(files: seq<File>): (n: nat)
    ensures n <= |files|
    ensures forall i | 0 <= i < n :: files[i].Readable?
    ensures n < |files| ==> files[n].NotText?
  {
    if files == [] || files[0].NotText? then 0 else 1 + TextLength(files[1..])
  }

  // The sources up to the first file that is not text, where a merge stops.
  function TextBefore(files: seq<File>): (sources: seq<Source>)
    ensures |sources| <= |files|
    ensures |sources| == |files| <==> AllText(files)
    ensures |sources| < |files| ==> files[|sources|].NotText?
    ensures forall i | 0 <= i < |sources| :: files[i] == Readable(sources[i])
  {
    assert AllText(files) ==> TextLength(files) == |files|;
    seq(TextLength(files), i requires 0 <= i < TextLength(files) => files[i].source)
  }

  predicate AllText(files: seq<File>) { forall i | 0 <= i < |files| :: files[i].Readable? }

  function Rows(book: Book, lines: seq<Line>): (rows: seq<Row>)
    ensures forall row | row in rows :: exists i | 0 <= i < |lines| :: book.read(lines[i]) == Some(row)
  {
    if lines == [] then []
    else
      var front, row := Rows(book, lines[..|lines| - 1]), book.read(lines[|lines| - 1]);
      if row.Some? then front + [row.value] else front
  }

  function NonBlank(lines: seq<Line>): nat {
    if lines == [] then 0
    else NonBlank(lines[..|lines| - 1]) + (if lines[|lines| - 1].Blank? then 0 else 1)
  }

  function SourceRows(book: Book, source: Source): seq<Row> {
    if source.receipt.None? then [] else Rows(book, source.receipt.value)
  }

  // What a source counts for: each line that is not blank, or itself if unreadable.
  function Weight(source: Source): nat { if source.receipt.None? then 1 else NonBlank(source.receipt.value) }

  function AllRows(book: Book, sources: seq<Source>): seq<Row> {
    if sources == [] then []
    else AllRows(book, sources[..|sources| - 1]) + SourceRows(book, sources[|sources| - 1])
  }

  function TotalWeight(sources: seq<Source>): nat {
    if sources == [] then 0 else TotalWeight(sources[..|sources| - 1]) + Weight(sources[|sources| - 1])
  }

  function Keys(book: Book, rows: seq<Row>): set<Key> { set row | row in rows :: book.key(row) }

  lemma KeysOfConcat(book: Book, a: seq<Row>, b: seq<Row>)
    ensures Keys(book, a + b) == Keys(book, a) + Keys(book, b)
  {
  }

  lemma KeysOfLast(book: Book, rows: seq<Row>)
    requires rows != []
    ensures Keys(book, rows) == Keys(book, rows[..|rows| - 1]) + {book.key(rows[|rows| - 1])}
  {
    var front, last := rows[..|rows| - 1], rows[|rows| - 1];
    assert rows == front + [last];
    KeysOfConcat(book, front, [last]);
  }

  // Reads one receipt and rejects each line that is not blank and not a row.
  method ReadReceipt(book: Book, source: Source) returns (rows: seq<Row>, rejected: nat)
    requires Faithful(book)
    ensures rows == SourceRows(book, source)
    ensures |rows| + rejected == Weight(source)
  {
    rows, rejected := [], 0;
    if source.receipt.None? { return [], 1; }
    var lines := source.receipt.value;
    for i := 0 to |lines|
      invariant rows == Rows(book, lines[..i])
      invariant |rows| + rejected == NonBlank(lines[..i])
    {
      assert lines[..i + 1][..i] == lines[..i];
      if !lines[i].Blank? {
        var row := book.read(lines[i]);
        if row.None? { rejected := rejected + 1; } else { rows := rows + [row.value]; }
      }
    }
    assert lines[..|lines|] == lines;
  }

  // ---- merging --------------------------------------------------------------------------

  // The rows of a list whose keys are new, each key once, in order.
  function Novel(book: Book, rows: seq<Row>, seen: set<Key>): (novel: seq<Row>)
    ensures |novel| <= |rows|
    ensures forall row | row in novel :: row in rows
  {
    if rows == [] then []
    else
      var front, last := Novel(book, rows[..|rows| - 1], seen), rows[|rows| - 1];
      if book.key(last) in seen || book.key(last) in Keys(book, front) then front else front + [last]
  }

  // The new rows among the first j.
  ghost predicate NovelAmong(book: Book, rows: seq<Row>, j: nat, seen: set<Key>, novel: seq<Row>)
    requires j <= |rows|
  {
    forall front | front == rows[..j] :: Novel(book, front, seen) == novel
  }

  lemma NovelStep(book: Book, rows: seq<Row>, j: nat, seen: set<Key>, novel: seq<Row>)
    requires j < |rows| && NovelAmong(book, rows, j, seen, novel)
    ensures NovelAmong(book, rows, j + 1, seen,
                       if book.key(rows[j]) in seen + Keys(book, novel) then novel else novel + [rows[j]])
  {
    assert rows[..j + 1][..j] == rows[..j] && rows[..j + 1][j] == rows[j];
    assert Novel(book, rows[..j], seen) == novel;
  }

  lemma AllNovel(book: Book, rows: seq<Row>, seen: set<Key>, novel: seq<Row>)
    requires NovelAmong(book, rows, |rows|, seen, novel)
    ensures Novel(book, rows, seen) == novel
  {
    assert rows[..|rows|] == rows;
  }

  function Written(book: Book, rows: seq<Row>): (lines: seq<Line>)
    ensures |lines| == |rows|
    ensures forall i | 0 <= i < |rows| :: lines[i] == book.write(rows[i])
  {
    seq(|rows|, i requires 0 <= i < |rows| => book.write(rows[i]))
  }

  // The ledger after a merge.
  function Merged(book: Book, lines: seq<Line>, sources: seq<Source>): seq<Line> {
    lines + Written(book, Novel(book, AllRows(book, sources), Keys(book, Rows(book, lines))))
  }

  // Adding in two steps is adding at once.
  lemma {:induction false} NovelInSteps(book: Book, a: seq<Row>, b: seq<Row>, seen: set<Key>)
    ensures Novel(book, a + b, seen) == Novel(book, a, seen) + Novel(book, b, seen + Keys(book, Novel(book, a, seen)))
    decreases |b|
  {
    if b == [] {
      assert a + b == a;
    } else {
      var first := Novel(book, a, seen);
      var known := seen + Keys(book, first);
      NovelInSteps(book, a, b[..|b| - 1], seen);
      assert (a + b)[..|a + b| - 1] == a + b[..|b| - 1];
      KeysOfConcat(book, first, Novel(book, b[..|b| - 1], known));
    }
  }

  lemma WrittenConcat(book: Book, a: seq<Row>, b: seq<Row>)
    ensures Written(book, a + b) == Written(book, a) + Written(book, b)
  {
  }

  datatype Tally = Tally(accepted: nat, duplicates: nat, rejected: nat)

  datatype Outcome = Refused | Stopped | Completed(tally: Tally)

  ghost predicate MergedSoFar(book: Book, lines: seq<Line>, seen: set<Key>, before: seq<Line>, all: seq<Row>,
                              known: set<Key>)
  {
    && lines == before + Written(book, Novel(book, all, known))
    && seen == known + Keys(book, Novel(book, all, known))
  }

  lemma MergedFurther(book: Book, lines: seq<Line>, seen: set<Key>, before: seq<Line>, all: seq<Row>, rows: seq<Row>,
                      known: set<Key>)
    requires MergedSoFar(book, lines, seen, before, all, known)
    ensures var added := Novel(book, rows, seen);
      MergedSoFar(book, lines + Written(book, added), seen + Keys(book, added), before, all + rows, known)
  {
    NovelInSteps(book, all, rows, known);
    Joined(book, before, Novel(book, all, known), Novel(book, rows, seen), known);
  }

  lemma Joined(book: Book, before: seq<Line>, a: seq<Row>, b: seq<Row>, known: set<Key>)
    ensures before + Written(book, a) + Written(book, b) == before + Written(book, a + b)
    ensures known + Keys(book, a) + Keys(book, b) == known + Keys(book, a + b)
  {
    WrittenConcat(book, a, b);
    KeysOfConcat(book, a, b);
  }

  // Every line that counts was accepted, a duplicate or rejected.
  ghost predicate Balanced(tally: Tally, accepted: int, rows: nat, weight: nat) {
    && tally.accepted == accepted
    && tally.accepted + tally.duplicates == rows
    && tally.accepted + tally.duplicates + tally.rejected == weight
  }

  // The rows and the weight of the first i files, which all hold text.
  ghost predicate Gathered(book: Book, files: seq<File>, i: nat, all: seq<Row>, weight: nat) {
    && i <= |TextBefore(files)|
    && forall done | done == TextBefore(files)[..i] :: AllRows(book, done) == all && TotalWeight(done) == weight
  }

  lemma NothingMerged(book: Book, lines: seq<Line>, known: set<Key>, files: seq<File>)
    ensures Gathered(book, files, 0, [], 0) && MergedSoFar(book, lines, known, lines, [], known)
  {
    assert known + Keys(book, []) == known;
  }

  // A file that holds text is the next source.
  lemma NextFile(book: Book, files: seq<File>, i: nat, all: seq<Row>, weight: nat)
    requires Gathered(book, files, i, all, weight) && i < |files| && files[i].Readable?
    ensures var source := files[i].source;
      Gathered(book, files, i + 1, all + SourceRows(book, source), weight + Weight(source))
  {
    var sources := TextBefore(files);
    assert i < |sources| && files[i] == Readable(sources[i]);
    var before, after := sources[..i], sources[..i + 1];
    assert AllRows(book, before) == all && TotalWeight(before) == weight;
    assert after[..i] == before && after[i] == files[i].source;
    assert AllRows(book, after) == all + SourceRows(book, files[i].source);
    assert TotalWeight(after) == weight + Weight(files[i].source);
  }

  // What a merge of the files leaves, and its tally of their lines.
  ghost predicate Accounted(book: Book, before: seq<Line>, files: seq<File>, lines: seq<Line>, tally: Tally) {
    var sources := TextBefore(files);
    && lines == Merged(book, before, sources)
    && Balanced(tally, |lines| - |before|, |AllRows(book, sources)|, TotalWeight(sources))
  }

  // The merge is over after the last file, and at one that is not text.
  lemma MergeEnds(book: Book, lines: seq<Line>, seen: set<Key>, tally: Tally, before: seq<Line>, known: set<Key>,
                  files: seq<File>, i: nat, all: seq<Row>, weight: nat)
    requires i <= |files| && (i < |files| ==> files[i].NotText?) && Gathered(book, files, i, all, weight)
    requires MergedSoFar(book, lines, seen, before, all, known) && known == Keys(book, Rows(book, before))
    requires Balanced(tally, |lines| - |before|, |all|, weight)
    ensures Accounted(book, before, files, lines, tally)
    ensures AllText(files) <==> i == |files|
  {
    var sources := TextBefore(files);
    assert i == |sources|;
    assert sources[..i] == sources;
    assert AllRows(book, sources) == all;
  }

  class Ledger {
    const path: string
    var lines: seq<Line>

    constructor (path: string)
      ensures this.path == path && lines == []
    {
      this.path, lines := path, [];
    }

    // The keys of the rows that the ledger already holds.
    method ReadKeys(book: Book) returns (seen: set<Key>)
      ensures seen == Keys(book, Rows(book, lines))
    {
      seen := {};
      for i := 0 to |lines|
        invariant seen == Keys(book, Rows(book, lines[..i]))
      {
        assert lines[..i + 1][..i] == lines[..i];
        var existing := book.read(lines[i]);
        if existing.Some? {
          KeysOfConcat(book, Rows(book, lines[..i]), [existing.value]);
          seen := seen + {book.key(existing.value)};
        }
      }
      assert lines[..|lines|] == lines;
    }

    // Appends the rows of one receipt whose keys have not been seen.
    method Append(book: Book, rows: seq<Row>, seen: set<Key>) returns (seen': set<Key>, accepted: nat, duplicates: nat)
      modifies this`lines
      ensures lines == old(lines) + Written(book, Novel(book, rows, seen))
      ensures seen' == seen + Keys(book, Novel(book, rows, seen))
      ensures accepted == |Novel(book, rows, seen)| && accepted + duplicates == |rows|
    {
      seen', accepted, duplicates := seen, 0, 0;
      ghost var novel: seq<Row> := [];
      for j := 0 to |rows|
        invariant NovelAmong(book, rows, j, seen, novel)
        invariant lines == old(lines) + Written(book, novel) && seen' == seen + Keys(book, novel)
        invariant accepted == |novel| && accepted + duplicates == j
      {
        NovelStep(book, rows, j, seen, novel);
        var key := book.key(rows[j]);
        if key in seen' {
          duplicates := duplicates + 1;
        } else {
          WrittenConcat(book, novel, [rows[j]]);
          KeysOfConcat(book, novel, [rows[j]]);
          novel := novel + [rows[j]];
          lines := lines + [book.write(rows[j])];
          seen' := seen' + {key};
          accepted := accepted + 1;
        }
      }
      AllNovel(book, rows, seen, novel);
    }

    method IsSource(files: seq<File>) returns (found: bool)
      ensures found <==> exists i | 0 <= i < |files| :: PathOf(files[i]) == path
    {
      for i := 0 to |files|
        invariant forall k | 0 <= k < i :: PathOf(files[k]) != path
      {
        if PathOf(files[i]) == path { return true; }
      }
      return false;
    }

    // One source, after `all` was read into a ledger that held `before` and knew `known`.
    method MergeSource(book: Book, source: Source, seen: set<Key>, tally: Tally,
                       ghost before: seq<Line>, ghost all: seq<Row>, ghost known: set<Key>, ghost weight: nat)
      returns (seen': set<Key>, tally': Tally)
      requires Faithful(book) && MergedSoFar(book, lines, seen, before, all, known)
      requires Balanced(tally, |lines| - |before|, |all|, weight)
      modifies this`lines
      ensures MergedSoFar(book, lines, seen', before, all + SourceRows(book, source), known)
      ensures Balanced(tally', |lines| - |before|, |all + SourceRows(book, source)|, weight + Weight(source))
    {
      var rows, rejected := ReadReceipt(book, source);
      MergedFurther(book, lines, seen, before, all, rows, known);
      var accepted, duplicates;
      seen', accepted, duplicates := Append(book, rows, seen);
      tally' := Tally(tally.accepted + accepted, tally.duplicates + duplicates, tally.rejected + rejected);
    }

    // Merges the files in turn, up to the first one that is not text.
    method MergeFiles(book: Book, files: seq<File>) returns (stopped: bool, tally: Tally)
      requires Faithful(book)
      modifies this`lines
      ensures stopped <==> !AllText(files)
      ensures Accounted(book, old(lines), files, lines, tally)
    {
      var seen := ReadKeys(book);
      tally := Tally(0, 0, 0);
      ghost var before, known, all := lines, seen, [];
      ghost var weight: nat := 0;
      NothingMerged(book, lines, seen, files);
      for i := 0 to |files|
        invariant Gathered(book, files, i, all, weight)
        invariant MergedSoFar(book, lines, seen, before, all, known)
        invariant Balanced(tally, |lines| - |before|, |all|, weight)
      {
        if files[i].NotText? {
          MergeEnds(book, lines, seen, tally, before, known, files, i, all, weight);
          return true, tally;
        }
        NextFile(book, files, i, all, weight);
        seen, tally := MergeSource(book, files[i].source, seen, tally, before, all, known, weight);
        all, weight := all + SourceRows(book, files[i].source), weight + Weight(files[i].source);
      }
      MergeEnds(book, lines, seen, tally, before, known, files, |files|, all, weight);
      stopped := false;
    }

    // Refuses to read the ledger as one of its own sources.  Otherwise it merges the
    // sources in turn, and every line of every source is accepted, a duplicate or
    // rejected; a file that is not text stops it, with the sources before already
    // merged.
    method MergeReceipts(book: Book, files: seq<File>) returns (result: Outcome)
      requires Faithful(book)
      modifies this`lines
      ensures result.Refused? <==> exists i | 0 <= i < |files| :: PathOf(files[i]) == path
      ensures result.Refused? ==> lines == old(lines)
      ensures result.Stopped? ==> !AllText(files) && lines == Merged(book, old(lines), TextBefore(files))
      ensures result.Completed? ==> AllText(files) && Accounted(book, old(lines), files, lines, result.tally)
    {
      var refused := IsSource(files);
      if refused {
        result := Refused;
      } else {
        var stopped, tally := MergeFiles(book, files);
        result := if stopped then Stopped else Completed(tally);
      }
    }
  }

  // ---- every ledger grown by merges -------------------------------------------------------

  ghost predicate DistinctKeys(book: Book, rows: seq<Row>) {
    forall i, j | 0 <= i < j < |rows| :: book.key(rows[i]) != book.key(rows[j])
  }

  ghost predicate AllReadBack(book: Book, rows: seq<Row>) {
    forall i | 0 <= i < |rows| :: ReadsBack(book, rows[i])
  }

  lemma {:induction false} RowsOfConcat(book: Book, a: seq<Line>, b: seq<Line>)
    ensures Rows(book, a + b) == Rows(book, a) + Rows(book, b)
    decreases |b|
  {
    if b == [] {
      assert a + b == a;
    } else {
      RowsOfConcat(book, a, b[..|b| - 1]);
      assert (a + b)[..|a + b| - 1] == a + b[..|b| - 1];
    }
  }

  // What is written is read again, row for row.
  lemma {:induction false} RowsOfWritten(book: Book, rows: seq<Row>)
    requires AllReadBack(book, rows)
    ensures Rows(book, Written(book, rows)) == rows
  {
    if rows != [] {
      var front, last := rows[..|rows| - 1], rows[|rows| - 1];
      RowsOfWritten(book, front);
      assert ReadsBack(book, last);
      assert rows == front + [last];
      WrittenConcat(book, front, [last]);
      assert Written(book, rows)[..|rows| - 1] == Written(book, front);
    }
  }

  lemma {:induction false} SourceRowsReadBack(book: Book, sources: seq<Source>)
    requires Faithful(book)
    ensures forall row | row in AllRows(book, sources) :: ReadsBack(book, row)
  {
    if sources != [] {
      SourceRowsReadBack(book, sources[..|sources| - 1]);
      var last := sources[|sources| - 1];
      forall row | row in SourceRows(book, last) ensures ReadsBack(book, row) {
        var i :| 0 <= i < |last.receipt.value| && book.read(last.receipt.value[i]) == Some(row);
        assert book.read(last.receipt.value[i]).Some?;
      }
    }
  }

  lemma {:induction false} NovelKeys(book: Book, rows: seq<Row>, seen: set<Key>)
    ensures Keys(book, Novel(book, rows, seen)) == Keys(book, rows) - seen
  {
    if rows != [] {
      var front, last := rows[..|rows| - 1], rows[|rows| - 1];
      NovelKeys(book, front, seen);
      KeysOfLast(book, rows);
      KeysOfConcat(book, Novel(book, front, seen), [last]);
    }
  }

  lemma {:induction false} NovelDistinct(book: Book, rows: seq<Row>, seen: set<Key>)
    ensures DistinctKeys(book, Novel(book, rows, seen))
  {
    if rows != [] {
      var novel := Novel(book, rows[..|rows| - 1], seen);
      NovelDistinct(book, rows[..|rows| - 1], seen);
      assert forall i | 0 <= i < |novel| :: novel[i] in novel;
    }
  }

  lemma {:induction false} NothingNovel(book: Book, rows: seq<Row>, seen: set<Key>)
    requires Keys(book, rows) <= seen
    ensures Novel(book, rows, seen) == []
  {
    if rows != [] {
      KeysOfLast(book, rows);
      NothingNovel(book, rows[..|rows| - 1], seen);
    }
  }

  // The ledger after any sequence of merges into an empty file.  A merge that stopped
  // counts as a merge of the sources before.
  function Grown(book: Book, merges: seq<seq<Source>>): seq<Line> {
    if merges == [] then []
    else Merged(book, Grown(book, merges[..|merges| - 1]), merges[|merges| - 1])
  }

  function Flat(merges: seq<seq<Source>>): seq<Source> {
    if merges == [] then [] else Flat(merges[..|merges| - 1]) + merges[|merges| - 1]
  }

  lemma {:induction false} AllRowsOfConcat(book: Book, a: seq<Source>, b: seq<Source>)
    ensures AllRows(book, a + b) == AllRows(book, a) + AllRows(book, b)
    decreases |b|
  {
    if b == [] {
      assert a + b == a;
    } else {
      AllRowsOfConcat(book, a, b[..|b| - 1]);
      assert (a + b)[..|a + b| - 1] == a + b[..|b| - 1];
    }
  }

  lemma NovelReadsBack(book: Book, sources: seq<Source>, seen: set<Key>)
    requires Faithful(book)
    ensures AllReadBack(book, Novel(book, AllRows(book, sources), seen))
    ensures Rows(book, Written(book, Novel(book, AllRows(book, sources), seen)))
            == Novel(book, AllRows(book, sources), seen)
  {
    var novel := Novel(book, AllRows(book, sources), seen);
    SourceRowsReadBack(book, sources);
    assert forall i | 0 <= i < |novel| :: novel[i] in novel;
    RowsOfWritten(book, novel);
  }

  // How the sources were divided over merges does not matter.
  lemma {:induction false} GrownIsOneMerge(book: Book, merges: seq<seq<Source>>)
    requires Faithful(book)
    ensures Grown(book, merges) == Written(book, Novel(book, AllRows(book, Flat(merges)), {}))
  {
    if merges != [] {
      var front, last := merges[..|merges| - 1], merges[|merges| - 1];
      GrownIsOneMerge(book, front);
      NovelReadsBack(book, Flat(front), {});
      var a, b := AllRows(book, Flat(front)), AllRows(book, last);
      AllRowsOfConcat(book, Flat(front), last);
      NovelInSteps(book, a, b, {});
      var held := Novel(book, a, {});
      assert {} + Keys(book, held) == Keys(book, held);
      WrittenConcat(book, held, Novel(book, b, Keys(book, held)));
    }
  }

  // The first row of its key, in the order of the sources.
  ghost predicate IsFirst(book: Book, rows: seq<Row>, row: Row, i: int) {
    0 <= i < |rows| && rows[i] == row && book.key(row) !in Keys(book, rows[..i])
  }

  lemma IsFirstInFront(book: Book, rows: seq<Row>, row: Row, i: int)
    requires rows != [] && i < |rows| - 1
    ensures IsFirst(book, rows, row, i) == IsFirst(book, rows[..|rows| - 1], row, i)
  {
    if 0 <= i { assert rows[..|rows| - 1][..i] == rows[..i]; }
  }

  // The new rows are the first of each key.
  lemma {:induction false} NovelHoldsFirsts(book: Book, rows: seq<Row>, row: Row)
    ensures row in Novel(book, rows, {}) <==> exists i :: IsFirst(book, rows, row, i)
  {
    if rows != [] {
      var front, last := rows[..|rows| - 1], rows[|rows| - 1];
      NovelHoldsFirsts(book, front, row);
      NovelKeys(book, front, {});
      if row in Novel(book, front, {}) {
        var i :| IsFirst(book, front, row, i);
        IsFirstInFront(book, rows, row, i);
      } else if row in Novel(book, rows, {}) {
        assert IsFirst(book, rows, row, |rows| - 1);
      } else {
        forall i ensures !IsFirst(book, rows, row, i) {
          if i < |rows| - 1 { IsFirstInFront(book, rows, row, i); }
        }
      }
    }
  }

  // The ledger of every run of merges: it holds one line per key among all valid
  // rows of all sources, that of the first row with the key, and each line reads
  // back as the row it was written from.
  lemma LedgerIsSound(book: Book, merges: seq<seq<Source>>)
    requires Faithful(book)
    ensures var rows, all := Rows(book, Grown(book, merges)), AllRows(book, Flat(merges));
      && DistinctKeys(book, rows) && AllReadBack(book, rows)
      && Grown(book, merges) == Written(book, rows)
      && Keys(book, rows) == Keys(book, all)
      && forall row :: row in rows <==> exists i :: IsFirst(book, all, row, i)
  {
    var all := AllRows(book, Flat(merges));
    GrownIsOneMerge(book, merges);
    NovelReadsBack(book, Flat(merges), {});
    NovelDistinct(book, all, {});
    NovelKeys(book, all, {});
    forall row ensures row in Novel(book, all, {}) <==> exists i :: IsFirst(book, all, row, i) {
      NovelHoldsFirsts(book, all, row);
    }
  }

  // Whatever the ledger held before, a merge adds exactly the keys of its valid rows.
  lemma MergedKeys(book: Book, lines: seq<Line>, sources: seq<Source>)
    requires Faithful(book)
    ensures Keys(book, Rows(book, Merged(book, lines, sources)))
            == Keys(book, Rows(book, lines)) + Keys(book, AllRows(book, sources))
  {
    var known := Keys(book, Rows(book, lines));
    var novel := Novel(book, AllRows(book, sources), known);
    NovelReadsBack(book, sources, known);
    RowsOfConcat(book, lines, Written(book, novel));
    KeysOfConcat(book, Rows(book, lines), novel);
    NovelKeys(book, AllRows(book, sources), known);
  }

  lemma {:induction false} KeysOfSources(book: Book, sources: seq<Source>, key: Key)
    ensures key in Keys(book, AllRows(book, sources)) <==>
            exists source :: source in sources && key in Keys(book, SourceRows(book, source))
  {
    if sources != [] {
      var front, last := sources[..|sources| - 1], sources[|sources| - 1];
      KeysOfSources(book, front, key);
      KeysOfConcat(book, AllRows(book, front), SourceRows(book, last));
      LastOrBefore(sources, (source: Source) => key in Keys(book, SourceRows(book, source)));
    }
  }

  lemma LastOrBefore<T(!new)>(items: seq<T>, holds: T -> bool)
    requires items != []
    ensures var front, last := items[..|items| - 1], items[|items| - 1];
      (exists x :: x in items && holds(x)) <==> (exists x :: x in front && holds(x)) || holds(last)
  {
    assert items == items[..|items| - 1] + [items[|items| - 1]];
  }

  // The key set does not depend on the order of the sources, nor on repetition.
  lemma KeysIgnoreOrder(book: Book, lines: seq<Line>, a: seq<Source>, b: seq<Source>)
    requires Faithful(book) && (forall source :: source in a <==> source in b)
    ensures Keys(book, Rows(book, Merged(book, lines, a))) == Keys(book, Rows(book, Merged(book, lines, b)))
  {
    MergedKeys(book, lines, a);
    MergedKeys(book, lines, b);
    forall key ensures key in Keys(book, AllRows(book, a)) <==> key in Keys(book, AllRows(book, b)) {
      KeysOfSources(book, a, key);
      KeysOfSources(book, b, key);
    }
    assert Keys(book, AllRows(book, a)) == Keys(book, AllRows(book, b));
  }

  // Merging again adds nothing, whatever lines the ledger started with and
  // whatever was merged in between.
  lemma MergeAgainAddsNothing(book: Book, lines: seq<Line>, sources: seq<Source>, between: seq<Source>)
    requires Faithful(book)
    ensures var later := Merged(book, Merged(book, lines, sources), between);
      Merged(book, later, sources) == later
  {
    var first := Merged(book, lines, sources);
    var later := Merged(book, first, between);
    MergedKeys(book, lines, sources);
    MergedKeys(book, first, between);
    NothingNovel(book, AllRows(book, sources), Keys(book, Rows(book, later)));
  }

  // Rows that were added once add nothing when they are offered again with others.
  lemma NovelResumes(book: Book, a: seq<Row>, b: seq<Row>, known: set<Key>)
    ensures var held := known + Keys(book, a);
      && Novel(book, a + b, held) == Novel(book, b, held)
      && Novel(book, a + b, known) == Novel(book, a, known) + Novel(book, b, held)
  {
    var held := known + Keys(book, a);
    NovelInSteps(book, a, b, known);
    NovelKeys(book, a, known);
    assert known + Keys(book, Novel(book, a, known)) == held;
    NovelInSteps(book, a, b, held);
    NothingNovel(book, a, held);
    assert held + Keys(book, []) == held;
  }

  lemma WrittenInSteps(book: Book, lines: seq<Line>, a: seq<Row>, b: seq<Row>, known: set<Key>)
    ensures lines + Written(book, Novel(book, a, known)) + Written(book, Novel(book, a + b, known + Keys(book, a)))
            == lines + Written(book, Novel(book, a + b, known))
  {
    NovelResumes(book, a, b, known);
    Joined(book, lines, Novel(book, a, known), Novel(book, b, known + Keys(book, a)), {});
  }

  // A merge that stopped is made good by repeating it with readable files: the ledger
  // is then what one complete merge would have left.
  lemma StoppedMergeResumes(book: Book, lines: seq<Line>, files: seq<File>, rest: seq<Source>)
    requires Faithful(book)
    ensures var done := TextBefore(files);
      Merged(book, Merged(book, lines, done), done + rest) == Merged(book, lines, done + rest)
  {
    var done := TextBefore(files);
    MergedKeys(book, lines, done);
    AllRowsOfConcat(book, done, rest);
    WrittenInSteps(book, lines, AllRows(book, done), AllRows(book, rest), Keys(book, Rows(book, lines)));
  }
}
