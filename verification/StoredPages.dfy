/**
 Verification of a stored universe scan, scripts/replay-stored-universe-run.py.

 A row is what the symbol and listing-key helpers read from it; a date is what is
 left after trimming, empty when there is none.  Rejection reasons are not told
 apart.
 */
module StoredPages {
  import opened Wrappers

  // An optional JSON number: missing or null, of another type (a boolean, say), or
  // an integer.
  datatype Number = Missing | NotAnInteger | Integer(value: int)

  type ListingKey = (string, string, string)

  datatype Row = NotAnObject | Row(symbol: string, key: ListingKey)

  datatype Page = Page(
    quotes: Option<seq<Row>>, validationErrors: bool, total: Number, scope: Option<string>, date: string,
    nextOffset: Number, nextUrl: bool, complete: bool)

  datatype Snapshot = Snapshot(offset: int, page: Option<Page>)

  function ScopeOf(page: Page): string { if page.scope.None? then "filtered" else page.scope.value }

  // ---- specification ------------------------------------------------------------

  predicate WellFormedPage(s: Snapshot) {
    && s.page.Some? && s.page.value.quotes.Some?
    && var page := s.page.value;
       && (forall r | r in page.quotes.value :: r.Row? && r.symbol != "")
       && !page.validationErrors
       && !page.total.NotAnInteger? && (page.total.Integer? ==> page.total.value >= 0)
       && ScopeOf(page) in {"filtered", "raw"}
       && !page.nextOffset.NotAnInteger? && (page.nextOffset.Integer? ==> page.nextOffset.value > s.offset)
  }

  ghost predicate AllFormed(snapshots: seq<Snapshot>) {
    forall i | 0 <= i < |snapshots| :: WellFormedPage(snapshots[i])
  }

  function Rows(s: Snapshot): seq<Row>
    requires WellFormedPage(s)
  {
    s.page.value.quotes.value
  }

  // Where the next page has to start.
  function Continuation(s: Snapshot): int
    requires WellFormedPage(s)
  {
    if s.page.value.nextOffset.Integer? then s.page.value.nextOffset.value else s.offset + |Rows(s)|
  }

  ghost predicate Contiguous(snapshots: seq<Snapshot>)
    requires AllFormed(snapshots)
  {
    && (snapshots != [] ==> snapshots[0].offset == 0)
    && forall i | 0 < i < |snapshots| :: snapshots[i].offset == Continuation(snapshots[i - 1])
  }

  // No two rows anywhere in the scan have the same listing key.
  ghost predicate DistinctListings(snapshots: seq<Snapshot>)
    requires AllFormed(snapshots)
  {
    forall i, r, j, q | 0 <= i < |snapshots| && 0 <= r < |Rows(snapshots[i])|
                        && 0 <= j < |snapshots| && 0 <= q < |Rows(snapshots[j])| && (i != j || r != q) ::
      Rows(snapshots[i])[r].key != Rows(snapshots[j])[q].key
  }

  ghost predicate SameTotals(snapshots: seq<Snapshot>)
    requires AllFormed(snapshots)
  {
    forall i, j | 0 <= i < |snapshots| && 0 <= j < |snapshots|
                  && snapshots[i].page.value.total.Integer? && snapshots[j].page.value.total.Integer? ::
      snapshots[i].page.value.total == snapshots[j].page.value.total
  }

  ghost predicate SameScopes(snapshots: seq<Snapshot>)
    requires AllFormed(snapshots)
  {
    forall i, j | 0 <= i < |snapshots| && 0 <= j < |snapshots| ::
      ScopeOf(snapshots[i].page.value) == ScopeOf(snapshots[j].page.value)
  }

  ghost predicate SameDates(snapshots: seq<Snapshot>)
    requires AllFormed(snapshots)
  {
    forall i, j | 0 <= i < |snapshots| && 0 <= j < |snapshots|
                  && snapshots[i].page.value.date != "" && snapshots[j].page.value.date != "" ::
      snapshots[i].page.value.date == snapshots[j].page.value.date
  }

  ghost predicate Consistent(snapshots: seq<Snapshot>) {
    && AllFormed(snapshots) && Contiguous(snapshots) && DistinctListings(snapshots)
    && SameTotals(snapshots) && SameScopes(snapshots) && SameDates(snapshots)
  }

  function RowCount(snapshots: seq<Snapshot>): nat
    requires forall i | 0 <= i < |snapshots| :: WellFormedPage(snapshots[i])
  {
    if snapshots == [] then 0 else RowCount(snapshots[..|snapshots| - 1]) + |Rows(snapshots[|snapshots| - 1])|
  }

  // Some page declares this total.
  ghost predicate Declares(snapshots: seq<Snapshot>, total: int)
    requires AllFormed(snapshots)
  {
    exists i | 0 <= i < |snapshots| :: snapshots[i].page.value.total == Integer(total)
  }

  // The last page ends the scan: it names no successor and is marked complete, or
  // the declared total is reached.  What an earlier page says of its own completeness
  // does not matter.
  ghost predicate Terminal(snapshots: seq<Snapshot>)
    requires AllFormed(snapshots) && snapshots != []
  {
    var last := snapshots[|snapshots| - 1];
    && last.page.value.nextOffset.Missing? && !last.page.value.nextUrl
    && (last.page.value.complete || exists total | Declares(snapshots, total) :: Continuation(last) >= total)
  }

  ghost predicate Verified(ids: Option<nat>, snapshots: seq<Snapshot>) {
    && ids.Some? && ids.value > 0 && |snapshots| == ids.value
    && Consistent(snapshots) && Terminal(snapshots)
    && (forall total | Declares(snapshots, total) :: RowCount(snapshots) == total)
    && (ScopeOf(snapshots[0].page.value) == "raw" ==> snapshots[|snapshots| - 1].page.value.complete)
  }

  // ---- the code -----------------------------------------------------------------

  ghost function Keys(snapshots: seq<Snapshot>): set<ListingKey>
    requires AllFormed(snapshots)
  {
    set i, r | 0 <= i < |snapshots| && 0 <= r < |Rows(snapshots[i])| :: Rows(snapshots[i])[r].key
  }

  ghost function KeysOf(rows: seq<Row>): set<ListingKey>
    requires forall r | r in rows :: r.Row?
  {
    set r | 0 <= r < |rows| :: rows[r].key
  }

  ghost predicate DistinctRows(rows: seq<Row>)
    requires forall r | r in rows :: r.Row?
  {
    forall r, q | 0 <= r < |rows| && 0 <= q < |rows| && r != q :: rows[r].key != rows[q].key
  }

  lemma FormedExtend(front: seq<Snapshot>, s: Snapshot)
    requires AllFormed(front + [s])
    ensures AllFormed(front) && WellFormedPage(s)
    ensures forall i | 0 <= i < |front| :: (front + [s])[i] == front[i]
  {
    var all := front + [s];
    assert all[|front|] == s && forall i | 0 <= i < |front| :: all[i] == front[i];
    assert forall i | 0 <= i < |front| :: WellFormedPage(all[i]);
  }

  lemma KeysExtend(front: seq<Snapshot>, s: Snapshot)
    requires AllFormed(front + [s]) && AllFormed(front) && WellFormedPage(s)
    ensures Keys(front + [s]) == Keys(front) + KeysOf(Rows(s))
  {
    var all, n := front + [s], |front|;
    assert all[n] == s && forall i | 0 <= i < n :: all[i] == front[i];
    forall i, r | 0 <= i < n && 0 <= r < |Rows(front[i])| ensures Rows(front[i])[r].key in Keys(all) {
      assert Rows(all[i])[r].key in Keys(all);
    }
    forall r | 0 <= r < |Rows(s)| ensures Rows(s)[r].key in Keys(all) {
      assert Rows(all[n])[r].key in Keys(all);
    }
  }

  lemma DistinctSplits(front: seq<Snapshot>, s: Snapshot)
    requires AllFormed(front + [s]) && AllFormed(front) && WellFormedPage(s) && DistinctListings(front + [s])
    ensures DistinctListings(front) && DistinctRows(Rows(s)) && Keys(front) !! KeysOf(Rows(s))
  {
    var all, n := front + [s], |front|;
    assert all[n] == s && forall i | 0 <= i < n :: all[i] == front[i];
    forall i, r, j, q | 0 <= i < n && 0 <= r < |Rows(front[i])| && 0 <= j < n && 0 <= q < |Rows(front[j])|
        && (i != j || r != q)
      ensures Rows(front[i])[r].key != Rows(front[j])[q].key
    {
      assert all[i] == front[i] && all[j] == front[j];
    }
    forall r, q | 0 <= r < |Rows(s)| && 0 <= q < |Rows(s)| && r != q ensures Rows(s)[r].key != Rows(s)[q].key {
      assert Rows(all[n])[r].key != Rows(all[n])[q].key;
    }
    forall key | key in Keys(front) ensures key !in KeysOf(Rows(s)) {
      var i, r :| 0 <= i < n && 0 <= r < |Rows(front[i])| && Rows(front[i])[r].key == key;
      assert Rows(all[i])[r].key == key;
      assert forall q | 0 <= q < |Rows(s)| :: Rows(all[n])[q].key != key;
    }
  }

  lemma DistinctJoins(front: seq<Snapshot>, s: Snapshot)
    requires AllFormed(front + [s]) && AllFormed(front) && WellFormedPage(s)
    requires DistinctListings(front) && DistinctRows(Rows(s)) && Keys(front) !! KeysOf(Rows(s))
    ensures DistinctListings(front + [s])
  {
    var all, n := front + [s], |front|;
    assert all[n] == s && forall i | 0 <= i < n :: all[i] == front[i];
    forall i, r, j, q | 0 <= i <= n && 0 <= r < |Rows(all[i])| && 0 <= j <= n && 0 <= q < |Rows(all[j])|
        && (i != j || r != q)
      ensures Rows(all[i])[r].key != Rows(all[j])[q].key
    {
      if i < n { assert Rows(front[i])[r].key in Keys(front); } else { assert Rows(s)[r].key in KeysOf(Rows(s)); }
      if j < n { assert Rows(front[j])[q].key in Keys(front); } else { assert Rows(s)[q].key in KeysOf(Rows(s)); }
    }
  }

  // One more page keeps the listings distinct exactly when its own rows are
  // distinct and new.
  lemma DistinctExtend(front: seq<Snapshot>, s: Snapshot)
    requires AllFormed(front + [s])
    ensures AllFormed(front) && WellFormedPage(s)
    ensures Keys(front + [s]) == Keys(front) + KeysOf(Rows(s))
    ensures DistinctListings(front + [s])
            <==> DistinctListings(front) && DistinctRows(Rows(s)) && Keys(front) !! KeysOf(Rows(s))
  {
    FormedExtend(front, s);
    KeysExtend(front, s);
    if DistinctListings(front + [s]) { DistinctSplits(front, s); }
    if DistinctListings(front) && DistinctRows(Rows(s)) && Keys(front) !! KeysOf(Rows(s)) { DistinctJoins(front, s); }
  }

  // The row loop of one page.
  method ScanRows(rows: seq<Row>, seen: set<ListingKey>) returns (grown: Option<set<ListingKey>>)
    requires forall r | r in rows :: r.Row?
    ensures grown.Some? <==>
              (forall r | r in rows :: r.symbol != "") && DistinctRows(rows) && seen !! KeysOf(rows)
    ensures grown.Some? ==> grown.value == seen + KeysOf(rows)
  {
    var keys := seen;
    for k := 0 to |rows|
      invariant forall r | 0 <= r < k :: rows[r].symbol != ""
      invariant forall r | 0 <= r < k :: rows[r].key !in seen
      invariant forall r, q | 0 <= r < k && 0 <= q < k && r != q :: rows[r].key != rows[q].key
      invariant keys == seen + set r | 0 <= r < k :: rows[r].key
    {
      if rows[k].symbol == "" {
        return None;
      }
      if rows[k].key in keys {
        assert rows[k].key in seen || exists r | 0 <= r < k :: rows[r].key == rows[k].key;
        assert rows[k].key in KeysOf(rows);
        return None;
      }
      keys := keys + {rows[k].key};
    }
    grown := Some(keys);
  }

  // What the page loop carries from one page to the next.
  datatype Memory = Memory(expected: int, total: Option<int>, scope: Option<string>, date: string)

  ghost predicate Remembers(front: seq<Snapshot>, m: Memory)
    requires AllFormed(front)
  {
    && m.expected == (if front == [] then 0 else Continuation(front[|front| - 1]))
    && (forall i | 0 <= i < |front| && front[i].page.value.total.Integer? ::
        m.total == Some(front[i].page.value.total.value))
    && (m.total.Some? ==> Declares(front, m.total.value))
    && (m.scope.None? <==> front == [])
    && (forall i | 0 <= i < |front| :: m.scope == Some(ScopeOf(front[i].page.value)))
    && (forall i | 0 <= i < |front| && front[i].page.value.date != "" :: m.date == front[i].page.value.date)
    && (m.date != "" ==> exists i | 0 <= i < |front| :: front[i].page.value.date == m.date)
  }

  function Next(m: Memory, s: Snapshot): Memory
    requires WellFormedPage(s)
  {
    var page := s.page.value;
    Memory(Continuation(s), if page.total.Integer? then Some(page.total.value) else m.total,
           Some(ScopeOf(page)), if page.date != "" then page.date else m.date)
  }

  // The header of a page agrees with what is remembered.
  predicate Agrees(m: Memory, page: Page) {
    && (m.total.Some? && page.total.Integer? ==> m.total.value == page.total.value)
    && (m.scope.Some? ==> m.scope.value == ScopeOf(page))
    && (m.date != "" && page.date != "" ==> m.date == page.date)
  }

  lemma OffsetExtend(front: seq<Snapshot>, s: Snapshot, m: Memory)
    requires AllFormed(front) && Contiguous(front) && WellFormedPage(s) && AllFormed(front + [s]) && Remembers(front, m)
    ensures Contiguous(front + [s]) <==> s.offset == m.expected
  {
    var all, n := front + [s], |front|;
    assert all[n] == s && forall i | 0 <= i < n :: all[i] == front[i];
    if Contiguous(all) && n > 0 { assert all[n].offset == Continuation(all[n - 1]); }
  }

  lemma TotalExtend(front: seq<Snapshot>, s: Snapshot, m: Memory)
    requires AllFormed(front) && SameTotals(front) && WellFormedPage(s) && AllFormed(front + [s]) && Remembers(front, m)
    ensures SameTotals(front + [s])
            <==> (m.total.Some? && s.page.value.total.Integer? ==> m.total.value == s.page.value.total.value)
  {
    var all, n := front + [s], |front|;
    assert all[n] == s && forall i | 0 <= i < n :: all[i] == front[i];
    if m.total.Some? {
      var i :| 0 <= i < n && front[i].page.value.total == Integer(m.total.value);
      assert all[i] == front[i];
    }
  }

  lemma ScopeExtend(front: seq<Snapshot>, s: Snapshot, m: Memory)
    requires AllFormed(front) && SameScopes(front) && WellFormedPage(s) && AllFormed(front + [s]) && Remembers(front, m)
    ensures SameScopes(front + [s]) <==> (m.scope.Some? ==> m.scope.value == ScopeOf(s.page.value))
  {
    var all, n := front + [s], |front|;
    assert all[n] == s && forall i | 0 <= i < n :: all[i] == front[i];
    if n > 0 { assert all[0] == front[0]; }
  }

  lemma DateExtend(front: seq<Snapshot>, s: Snapshot, m: Memory)
    requires AllFormed(front) && SameDates(front) && WellFormedPage(s) && AllFormed(front + [s]) && Remembers(front, m)
    ensures SameDates(front + [s]) <==> (m.date != "" && s.page.value.date != "" ==> m.date == s.page.value.date)
  {
    var all, n := front + [s], |front|;
    assert all[n] == s && forall i | 0 <= i < n :: all[i] == front[i];
    if m.date != "" {
      var i :| 0 <= i < n && front[i].page.value.date == m.date;
      assert all[i] == front[i];
    }
  }

  // The checks of one page against what is remembered are exactly what keeps the
  // longer scan consistent.
  lemma PageExtend(front: seq<Snapshot>, s: Snapshot, m: Memory)
    requires Consistent(front) && WellFormedPage(s) && Remembers(front, m)
    ensures AllFormed(front + [s])
    ensures Consistent(front + [s])
            <==> s.offset == m.expected && Agrees(m, s.page.value)
                 && DistinctRows(Rows(s)) && Keys(front) !! KeysOf(Rows(s))
  {
    assert (front + [s])[|front|] == s && forall i | 0 <= i < |front| :: (front + [s])[i] == front[i];
    OffsetExtend(front, s, m);
    TotalExtend(front, s, m);
    ScopeExtend(front, s, m);
    DateExtend(front, s, m);
    DistinctExtend(front, s);
  }

  lemma RememberExtend(front: seq<Snapshot>, s: Snapshot, m: Memory)
    requires AllFormed(front) && WellFormedPage(s) && AllFormed(front + [s])
    requires Remembers(front, m) && Agrees(m, s.page.value)
    ensures Remembers(front + [s], Next(m, s))
  {
    var all, n, page := front + [s], |front|, s.page.value;
    assert all[n] == s && forall i | 0 <= i < n :: all[i] == front[i];
    if m.total.Some? {
      var i :| 0 <= i < n && front[i].page.value.total == Integer(m.total.value);
      assert all[i].page.value.total == Integer(m.total.value);
    }
    if page.total.Integer? { assert all[n].page.value.total == Integer(page.total.value); }
    if m.date != "" {
      var i :| 0 <= i < n && front[i].page.value.date == m.date;
      assert all[i].page.value.date == m.date;
    }
    if page.date != "" { assert all[n].page.value.date == page.date; }
  }

  lemma ConsistentPrefix(snapshots: seq<Snapshot>, k: nat)
    requires k <= |snapshots| && Consistent(snapshots)
    ensures Consistent(snapshots[..k])
  {
    var front := snapshots[..k];
    assert forall i | 0 <= i < k :: front[i] == snapshots[i];
    forall i, r, j, q | 0 <= i < k && 0 <= r < |Rows(front[i])| && 0 <= j < k && 0 <= q < |Rows(front[j])|
        && (i != j || r != q)
      ensures Rows(front[i])[r].key != Rows(front[j])[q].key
    {
      assert front[i] == snapshots[i] && front[j] == snapshots[j];
    }
  }

  // The body of the page loop: every check on one snapshot, in order.
  method CheckPage(s: Snapshot, m: Memory, seen: set<ListingKey>) returns (grown: Option<set<ListingKey>>)
    ensures grown.Some? <==> Passes(s, m, seen)
    ensures grown.Some? ==> grown.value == seen + KeysOf(Rows(s))
  {
    if s.offset != m.expected || s.page.None? || s.page.value.quotes.None? {
      return None;
    }
    var page := s.page.value;
    var quotes := page.quotes.value;
    if (exists r | r in quotes :: !r.Row?) || page.validationErrors {
      return None;
    }
    if page.total.NotAnInteger? || (page.total.Integer? && page.total.value < 0) {
      return None;
    }
    if page.total.Integer? && m.total.Some? && m.total.value != page.total.value {
      return None;
    }
    if ScopeOf(page) !in {"filtered", "raw"} || (m.scope.Some? && m.scope.value != ScopeOf(page)) {
      return None;
    }
    if page.date != "" && m.date != "" && m.date != page.date {
      return None;
    }
    grown := ScanRows(quotes, seen);
    if page.nextOffset.NotAnInteger? || (page.nextOffset.Integer? && page.nextOffset.value <= s.offset) {
      return None;
    }
  }

  ghost predicate Passes(s: Snapshot, m: Memory, seen: set<ListingKey>) {
    && WellFormedPage(s) && s.offset == m.expected && Agrees(m, s.page.value)
    && DistinctRows(Rows(s)) && seen !! KeysOf(Rows(s))
  }

  // One turn of the page loop.
  lemma PageStep(snapshots: seq<Snapshot>, k: nat, m: Memory)
    requires k < |snapshots| && Consistent(snapshots[..k]) && Remembers(snapshots[..k], m)
    ensures var s := snapshots[k];
      && (Consistent(snapshots) ==> Passes(s, m, Keys(snapshots[..k])))
      && (Passes(s, m, Keys(snapshots[..k])) ==>
            && Consistent(snapshots[..k + 1])
            && Remembers(snapshots[..k + 1], Next(m, s))
            && Keys(snapshots[..k + 1]) == Keys(snapshots[..k]) + KeysOf(Rows(s)))
  {
    var s := snapshots[k];
    assert snapshots[..k + 1] == snapshots[..k] + [s];
    if WellFormedPage(s) {
      PageExtend(snapshots[..k], s, m);
      DistinctExtend(snapshots[..k], s);
      if Passes(s, m, Keys(snapshots[..k])) { RememberExtend(snapshots[..k], s, m); }
    }
    if Consistent(snapshots) { ConsistentPrefix(snapshots, k + 1); }
  }

  // What the page loop knows after its first k pages.
  ghost predicate Scanned(snapshots: seq<Snapshot>, k: nat, pages: seq<Page>, seen: set<ListingKey>, m: Memory) {
    && k <= |snapshots| && Consistent(snapshots[..k]) && Remembers(snapshots[..k], m) && seen == Keys(snapshots[..k])
    && |pages| == k && forall i | 0 <= i < k :: Some(pages[i]) == snapshots[i].page
  }

  lemma ScanStep(snapshots: seq<Snapshot>, k: nat, pages: seq<Page>, seen: set<ListingKey>, m: Memory)
    requires k < |snapshots| && Scanned(snapshots, k, pages, seen, m)
    ensures var s := snapshots[k];
      && (Consistent(snapshots) ==> Passes(s, m, seen))
      && (Passes(s, m, seen) ==>
            Scanned(snapshots, k + 1, pages + [s.page.value], seen + KeysOf(Rows(s)), Next(m, s)))
  {
    PageStep(snapshots, k, m);
  }

  // What is left to decide after the last page.
  lemma FinalVerdict(snapshots: seq<Snapshot>, pages: seq<Page>, seen: set<ListingKey>, m: Memory)
    requires snapshots != [] && Scanned(snapshots, |snapshots|, pages, seen, m)
    ensures Consistent(snapshots) && DatedBy(pages, m.date)
    ensures var last := snapshots[|snapshots| - 1];
      Verified(Some(|snapshots|), snapshots)
      <==> EndsHere(last, m) && (m.total.Some? ==> RowCount(snapshots) == m.total.value)
           && (m.scope == Some("raw") ==> last.page.value.complete)
  {
    assert snapshots[..|snapshots|] == snapshots;
    TerminalByMemory(snapshots, m);
    DateRemembered(snapshots, pages, m);
    assert m.scope == Some(ScopeOf(snapshots[0].page.value));
  }

  // Accepts exactly the verified scans, and returns their pages and date.
  method VerifiedPages(ids: Option<nat>, snapshots: seq<Snapshot>) returns (result: Option<(seq<Page>, string)>)
    ensures result.Some? <==> Verified(ids, snapshots)
    ensures result.Some? ==>
              && |result.value.0| == |snapshots|
              && (forall i | 0 <= i < |snapshots| :: Some(result.value.0[i]) == snapshots[i].page)
              && DatedBy(result.value.0, result.value.1)
  {
    if ids.None? || ids.value == 0 || |snapshots| != ids.value {
      return None;
    }
    var pages: seq<Page> := [];
    var seen: set<ListingKey> := {};
    var memory := Memory(0, None, None, "");
    var terminal := false;
    for k := 0 to |snapshots|
      invariant Scanned(snapshots, k, pages, seen, memory)
      invariant k == |snapshots| ==> (terminal <==> EndsHere(snapshots[k - 1], memory))
    {
      var s := snapshots[k];
      var grown := CheckPage(s, memory, seen);
      ScanStep(snapshots, k, pages, seen, memory);
      if grown.None? {
        return None;
      }
      var page := s.page.value;
      pages := pages + [page];
      seen := grown.value;
      memory := Next(memory, s);
      if page.nextOffset.Integer? || page.nextUrl {
        terminal := false;
      } else {
        terminal := k == |snapshots| - 1
                    && (page.complete || (memory.total.Some? && memory.expected >= memory.total.value));
      }
    }
    FinalVerdict(snapshots, pages, seen, memory);
    if !terminal {
      return None;
    }
    if memory.total.Some? && RowCount(snapshots) != memory.total.value {
      return None;
    }
    if memory.scope == Some("raw") && !pages[|pages| - 1].complete {
      return None;
    }
    result := Some((pages, memory.date));
  }

  // Every dated page has this date, and a date belongs to some page.
  ghost predicate DatedBy(pages: seq<Page>, date: string) {
    && (forall i | 0 <= i < |pages| && pages[i].date != "" :: pages[i].date == date)
    && (date != "" ==> exists i | 0 <= i < |pages| :: pages[i].date == date)
  }

  lemma DateRemembered(snapshots: seq<Snapshot>, pages: seq<Page>, m: Memory)
    requires AllFormed(snapshots) && Remembers(snapshots, m) && |pages| == |snapshots|
    requires forall i | 0 <= i < |snapshots| :: Some(pages[i]) == snapshots[i].page
    ensures DatedBy(pages, m.date)
  {
    if m.date != "" {
      var i :| 0 <= i < |snapshots| && snapshots[i].page.value.date == m.date;
      assert Some(pages[i]) == snapshots[i].page;
    }
  }

  // The last page ends the scan, judged by the remembered total.
  ghost predicate EndsHere(last: Snapshot, m: Memory) {
    && last.page.Some? && last.page.value.nextOffset.Missing? && !last.page.value.nextUrl
    && (last.page.value.complete || (m.total.Some? && m.expected >= m.total.value))
  }

  lemma TerminalByMemory(snapshots: seq<Snapshot>, m: Memory)
    requires AllFormed(snapshots) && snapshots != [] && Remembers(snapshots, m)
    ensures forall t | Declares(snapshots, t) :: m.total == Some(t)
    ensures Terminal(snapshots) <==> EndsHere(snapshots[|snapshots| - 1], m)
  {
    forall t | Declares(snapshots, t) ensures m.total == Some(t) {
      var i :| 0 <= i < |snapshots| && snapshots[i].page.value.total == Integer(t);
    }
  }

  // ---- what a verified scan gives its reader ---------------------------------------

  lemma {:induction false} OffsetsArePrefixSums(snapshots: seq<Snapshot>, k: nat)
    requires Consistent(snapshots) && k < |snapshots|
    requires forall i | 0 <= i < |snapshots| :: snapshots[i].page.value.nextOffset.Missing?
    ensures snapshots[k].offset == RowCount(snapshots[..k])
  {
    if k > 0 {
      OffsetsArePrefixSums(snapshots, k - 1);
      assert snapshots[..k][..k - 1] == snapshots[..k - 1];
      assert snapshots[..k][k - 1] == snapshots[k - 1];
    }
  }

  // The page a replay gets for an offset: the index is built page by page, so a
  // later page replaces an earlier one at the same offset.
  function PageAt(snapshots: seq<Snapshot>, offset: int): Option<Page> {
    if snapshots == [] then None
    else
      var last := snapshots[|snapshots| - 1];
      if last.offset == offset then last.page else PageAt(snapshots[..|snapshots| - 1], offset)
  }

  // A page before the last one that has no rows and names no later offset.
  ghost predicate Stalls(snapshots: seq<Snapshot>, i: nat)
    requires AllFormed(snapshots)
  {
    i + 1 < |snapshots| && snapshots[i].page.value.nextOffset.Missing? && Rows(snapshots[i]) == []
  }

  lemma {:induction false} OffsetsAscend(snapshots: seq<Snapshot>, i: nat, j: nat)
    requires Consistent(snapshots) && i <= j < |snapshots|
    ensures snapshots[i].offset <= snapshots[j].offset
    ensures i < j && !Stalls(snapshots, i) ==> snapshots[i].offset < snapshots[j].offset
    decreases j
  {
    if i < j {
      OffsetsAscend(snapshots, i, j - 1);
      assert snapshots[j].offset == Continuation(snapshots[j - 1]);
      assert snapshots[i + 1].offset == Continuation(snapshots[i]);
    }
  }

  lemma {:induction false} LastAtOffset(snapshots: seq<Snapshot>, i: nat, n: nat)
    requires i < n <= |snapshots|
    requires forall j | i < j < n :: snapshots[j].offset != snapshots[i].offset
    ensures PageAt(snapshots[..n], snapshots[i].offset) == snapshots[i].page
    decreases n
  {
    assert snapshots[..n][n - 1] == snapshots[n - 1] && snapshots[..n][..n - 1] == snapshots[..n - 1];
    if i < n - 1 {
      LastAtOffset(snapshots, i, n - 1);
    }
  }

  lemma {:induction false} ReaderBackwards(snapshots: seq<Snapshot>, i: nat)
    requires Consistent(snapshots) && i < |snapshots|
    requires forall j | 0 <= j < |snapshots| && Stalls(snapshots, j) :: snapshots[j].page == snapshots[j + 1].page
    ensures PageAt(snapshots, snapshots[i].offset) == snapshots[i].page
    decreases |snapshots| - i
  {
    if Stalls(snapshots, i) {
      ReaderBackwards(snapshots, i + 1);
      assert snapshots[i + 1].offset == Continuation(snapshots[i]);
    } else {
      forall j | i < j < |snapshots| ensures snapshots[j].offset != snapshots[i].offset {
        OffsetsAscend(snapshots, i, j);
      }
      assert snapshots[..|snapshots|] == snapshots;
      LastAtOffset(snapshots, i, |snapshots|);
    }
  }

  // The offset-indexed reader returns every verified page exactly when each empty
  // page that names no later offset merely repeats the page after it.  In
  // particular it does when no continuation page is empty.
  lemma ReaderReturnsEveryPageIff(snapshots: seq<Snapshot>)
    requires Consistent(snapshots)
    ensures (forall i | 0 <= i < |snapshots| :: PageAt(snapshots, snapshots[i].offset) == snapshots[i].page)
            <==> (forall j | 0 <= j < |snapshots| && Stalls(snapshots, j) :: snapshots[j].page == snapshots[j + 1].page)
  {
    if forall i | 0 <= i < |snapshots| :: PageAt(snapshots, snapshots[i].offset) == snapshots[i].page {
      forall j | 0 <= j < |snapshots| && Stalls(snapshots, j) ensures snapshots[j].page == snapshots[j + 1].page {
        assert snapshots[j + 1].offset == Continuation(snapshots[j]);
      }
    }
    if forall j | 0 <= j < |snapshots| && Stalls(snapshots, j) :: snapshots[j].page == snapshots[j + 1].page {
      forall i | 0 <= i < |snapshots| ensures PageAt(snapshots, snapshots[i].offset) == snapshots[i].page {
        ReaderBackwards(snapshots, i);
      }
    }
  }

  // A verified scan can still lose a page this way: an empty page that continues
  // by URL is hidden by its successor.
  lemma EmptyContinuationIsHidden() returns (snapshots: seq<Snapshot>)
    ensures Verified(Some(2), snapshots)
    ensures PageAt(snapshots, snapshots[0].offset) != snapshots[0].page
  {
    var first := Page(Some([]), false, Missing, None, "", Missing, true, false);
    var last := Page(Some([]), false, Missing, None, "", Missing, false, true);
    snapshots := [Snapshot(0, Some(first)), Snapshot(0, Some(last))];
  }
}
