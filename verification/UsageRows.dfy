/**
 The rows of a usage receipt, as scripts/merge-provider-live-usage.py reads and
 writes them.

 A receipt line is one parsed JSON document.  Only the members the script reads
 are kept apart; every other member is ignored, as the script ignores it.

 The environment supplies what the script takes from its libraries: how a value
 that is not a string is written, which strings are printable, the reading of a
 timestamp as an instant and the writing of an instant in UTC, and the list of
 allowed capacity headers.  A digest stands for the row it was computed from.
 */
module UsageRows {
  import opened Wrappers
  import opened Text

  // A parsed JSON value; `Other` is a float, a list or an object.
  datatype Value =
    | Absent | Null | Flag(flag: bool) | Number(number: int) | Str(text: string) | Other(truthy: bool, id: int)

  datatype RawUsage =
    | NotFields
    | Fields(operations: Value, httpRequests: Value, responseBytes: Value, failed: Value)

  // A member that holds an object, in document order, or nothing, or something else.
  datatype Table<T> = NoTable | NotTable | Table(members: seq<(string, T)>)

  datatype Document =
    | NotAnObject
    | Object(at: Value, scope: Value, provider: Value,
             operations: Value, httpRequests: Value, responseBytes: Value, exitStatus: Value,
             failed: Value, processExit: Value,
             headers: Table<Value>, usage: Table<RawUsage>, runId: Value)

  datatype Env = Env(
    written: Value -> string, printable: string -> bool,
    instant: string -> Option<int>, utc: int -> string,
    headers: set<string>)

  // Writing an instant and reading it back is the identity, and the listed header
  // names are already trimmed, in lower case, short and printable.
  ghost predicate Lawful(env: Env) {
    && (forall t :: env.instant(env.utc(t)) == Some(t))
    && (forall h | h in env.headers :: Lower(Strip(h)) == h && |h| <= 128 && env.printable(h))
  }

  datatype Usage = Usage(operations: nat, httpRequests: nat, responseBytes: nat, failed: nat)

  datatype Row = Row(
    at: string, scope: string, provider: string,
    operations: nat, httpRequests: nat, responseBytes: nat, exitStatus: nat, failed: nat, processExit: nat,
    headers: map<string, string>, usage: map<string, Usage>, runId: Option<string>)

  // ---- normalisation ------------------------------------------------------------

  predicate Truthy(value: Value) {
    match value
    case Absent => false
    case Null => false
    case Flag(flag) => flag
    case Number(number) => number != 0
    case Str(text) => text != ""
    case Other(truthy, _) => truthy
  }

  predicate AllDigits(s: string) { s != "" && forall i | 0 <= i < |s| :: '0' <= s[i] <= '9' }

  function ParseDigits(s: string): nat
    requires s == "" || AllDigits(s)
  {
    if s == "" then 0 else 10 * ParseDigits(s[..|s| - 1]) + (s[|s| - 1] - '0') as int
  }

  // _nonnegative_int: a non-negative integer, or a string of digits.
  function NonNegativeInt(value: Value): Option<nat> {
    match value
    case Number(number) => if number >= 0 then Some(number) else None
    case Str(text) => if AllDigits(Strip(text)) then Some(ParseDigits(Strip(text))) else None
    case _ => None
  }

  // A counter that is read as 0 when its member is absent.
  function Counter(value: Value): Option<nat> { if value.Absent? then Some(0) else NonNegativeInt(value) }

  function TextOf(env: Env, value: Value): string { if value.Str? then value.text else env.written(value) }

  // str(value or default).strip()
  function TextOr(env: Env, value: Value, default: string): string {
    Strip(if Truthy(value) then TextOf(env, value) else default)
  }

  function Header(env: Env, member: (string, Value)): Option<(string, string)> {
    var name, header := Lower(Strip(member.0)), Strip(TextOf(env, member.1));
    if name !in env.headers || |name| > 128 || !env.printable(name)
       || header == "" || |header| > 256 || !env.printable(header) then None
    else Some((name, header))
  }

  function OneUsage(env: Env, member: (string, RawUsage)): Option<(string, Usage)> {
    var operation, value := Strip(member.0), member.1;
    if operation == "" || |operation| > 128 || !env.printable(operation) || !value.Fields? then None
    else
      var operations, requests := Counter(value.operations), Counter(value.httpRequests);
      var bytes, failed := Counter(value.responseBytes), Counter(value.failed);
      if operations.None? || requests.None? || bytes.None? || failed.None? || failed.value > operations.value then None
      else Some((operation, Usage(operations.value, requests.value, bytes.value, failed.value)))
  }

  // The normalised members of a table: none if any member is refused; a later
  // member replaces an earlier one of the same normalised name.
  function Collect<T, U>(one: ((string, T)) -> Option<(string, U)>, members: seq<(string, T)>)
    : (result: Option<map<string, U>>)
    ensures result.Some? ==> |result.value| <= |members|
  {
    if members == [] then Some(map[])
    else
      var front := Collect(one, members[..|members| - 1]);
      var last := one(members[|members| - 1]);
      if front.None? || last.None? then None else Some(front.value[last.value.0 := last.value.1])
  }

  function TableOf<T, U>(one: ((string, T)) -> Option<(string, U)>, table: Table<T>, limit: nat)
    : (result: Option<map<string, U>>)
    ensures result.Some? ==> |result.value| <= limit
  {
    match table
    case NoTable => Some(map[])
    case NotTable => None
    case Table(members) => if |members| > limit then None else Collect(one, members)
  }

  function CapacityHeaders(env: Env, table: Table<Value>): Option<map<string, string>> {
    TableOf(member => Header(env, member), table, 32)
  }

  function OperationUsage(env: Env, table: Table<RawUsage>): Option<map<string, Usage>> {
    TableOf(member => OneUsage(env, member), table, 128)
  }

  function SumOver(usage: map<string, Usage>, names: seq<string>): Usage
    requires forall n | n in names :: n in usage
  {
    if names == [] then Usage(0, 0, 0, 0)
    else
      var rest, u := SumOver(usage, names[1..]), usage[names[0]];
      Usage(rest.operations + u.operations, rest.httpRequests + u.httpRequests,
            rest.responseBytes + u.responseBytes, rest.failed + u.failed)
  }

  // The breakdown by operation stays within the totals of the row.
  predicate WithinTotals(usage: map<string, Usage>, operations: nat, requests: nat, bytes: nat, failed: nat) {
    var sum := SumOver(usage, Sorted(usage.Keys));
    sum.operations <= operations && sum.httpRequests <= requests && sum.responseBytes <= bytes && sum.failed <= failed
  }

  // The three groups of conditions that a document must meet to be a row.
  predicate TextsAccepted(env: Env, doc: Document)
    requires doc.Object?
  {
    var provider, scope := TextOr(env, doc.provider, ""), TextOr(env, doc.scope, "unspecified");
    && provider != "" && |provider| <= 128
    && scope != "" && |scope| <= 128 && env.printable(scope)
    && |TextOr(env, doc.runId, "")| <= 256
  }

  function InstantOf(env: Env, doc: Document): Option<int>
    requires doc.Object?
  {
    env.instant(if Truthy(doc.at) then TextOf(env, doc.at) else "")
  }

  // The process exit status is the exit status when its member is absent.
  function ProcessExit(doc: Document): Option<nat>
    requires doc.Object?
  {
    NonNegativeInt(if doc.processExit.Absent? then doc.exitStatus else doc.processExit)
  }

  predicate CountsAccepted(env: Env, doc: Document)
    requires doc.Object?
  {
    && InstantOf(env, doc).Some?
    && NonNegativeInt(doc.operations).Some? && NonNegativeInt(doc.httpRequests).Some?
    && NonNegativeInt(doc.responseBytes).Some? && NonNegativeInt(doc.exitStatus).Some?
    && Counter(doc.failed).Some? && ProcessExit(doc).Some?
    && Counter(doc.failed).value <= NonNegativeInt(doc.operations).value
  }

  predicate TablesAccepted(env: Env, doc: Document)
    requires doc.Object? && CountsAccepted(env, doc)
  {
    && CapacityHeaders(env, doc.headers).Some?
    && OperationUsage(env, doc.usage).Some?
    && WithinTotals(OperationUsage(env, doc.usage).value,
                    NonNegativeInt(doc.operations).value, NonNegativeInt(doc.httpRequests).value,
                    NonNegativeInt(doc.responseBytes).value, Counter(doc.failed).value)
  }

  function RunIdOf(env: Env, doc: Document): Option<string>
    requires doc.Object?
  {
    var runId := TextOr(env, doc.runId, "");
    if runId == "" then None else Some(runId)
  }

  function Normalise(env: Env, doc: Document): Option<Row> {
    if doc.NotAnObject? || !TextsAccepted(env, doc) || !CountsAccepted(env, doc) || !TablesAccepted(env, doc) then None
    else
      Some(Row(env.utc(InstantOf(env, doc).value),
               TextOr(env, doc.scope, "unspecified"), TextOr(env, doc.provider, ""),
               NonNegativeInt(doc.operations).value, NonNegativeInt(doc.httpRequests).value,
               NonNegativeInt(doc.responseBytes).value, NonNegativeInt(doc.exitStatus).value,
               Counter(doc.failed).value, ProcessExit(doc).value,
               CapacityHeaders(env, doc.headers).value, OperationUsage(env, doc.usage).value, RunIdOf(env, doc)))
  }

  // ---- writing --------------------------------------------------------------------

  // The members of a mapping, written in sorted order.
  function Listed<T, U>(m: map<string, T>, names: seq<string>, write: T -> U): seq<(string, U)>
    requires forall n | n in names :: n in m
  {
    seq(|names|, i requires 0 <= i < |names| => (names[i], write(m[names[i]])))
  }

  function WriteUsage(u: Usage): RawUsage {
    Fields(Number(u.operations), Number(u.httpRequests), Number(u.responseBytes), Number(u.failed))
  }

  function WriteHeader(header: string): Value { Str(header) }

  // The line that a row is written as.
  function Write(row: Row): Document {
    Object(Str(row.at), Str(row.scope), Str(row.provider),
           Number(row.operations), Number(row.httpRequests), Number(row.responseBytes), Number(row.exitStatus),
           Number(row.failed), Number(row.processExit),
           Table(Listed(row.headers, Sorted(row.headers.Keys), WriteHeader)),
           Table(Listed(row.usage, Sorted(row.usage.Keys), WriteUsage)),
           if row.runId.Some? then Str(row.runId.value) else Absent)
  }

  // ---- a written row reads back as itself -------------------------------------------

  // A collected member that is written and read again comes back the same.
  ghost predicate ReadsBack<T, U>(one: ((string, T)) -> Option<(string, U)>, write: U -> T, m: map<string, U>) {
    forall name | name in m :: one((name, write(m[name]))) == Some((name, m[name]))
  }

  lemma {:induction false} CollectReadsBack<T, U>(one: ((string, T)) -> Option<(string, U)>, write: U -> T,
                                                  m: map<string, U>, names: seq<string>)
    requires ReadsBack(one, write, m) && forall n | n in names :: n in m
    ensures Collect(one, Listed(m, names, write)) == Some(map n | n in names :: m[n])
    decreases |names|
  {
    if names != [] {
      var front, last := names[..|names| - 1], names[|names| - 1];
      CollectReadsBack(one, write, m, front);
      var members := Listed(m, names, write);
      assert members[..|members| - 1] == Listed(m, front, write);
      assert members[|members| - 1] == (last, write(m[last]));
      assert one(members[|members| - 1]) == Some((last, m[last]));
      assert names == front + [last];
      assert (map n | n in names :: m[n]) == (map n | n in front :: m[n])[last := m[last]];
    }
  }

  lemma TableReadsBack<T, U>(one: ((string, T)) -> Option<(string, U)>, write: U -> T, m: map<string, U>, limit: nat)
    requires ReadsBack(one, write, m) && |m| <= limit
    ensures TableOf(one, Table(Listed(m, Sorted(m.Keys), write)), limit) == Some(m)
  {
    CollectReadsBack(one, write, m, Sorted(m.Keys));
    assert |Sorted(m.Keys)| == |m.Keys| == |m|;
    assert (map n | n in Sorted(m.Keys) :: m[n]) == m;
  }

  // If each accepted member reads back, so does everything that is collected.
  lemma {:induction false} CollectedReadBack<T, U>(one: ((string, T)) -> Option<(string, U)>, write: U -> T,
                                                   members: seq<(string, T)>)
    requires Collect(one, members).Some?
    requires forall member | one(member).Some? ::
               one((one(member).value.0, write(one(member).value.1))) == one(member)
    ensures ReadsBack(one, write, Collect(one, members).value)
    decreases |members|
  {
    if members != [] {
      CollectedReadBack(one, write, members[..|members| - 1]);
    }
  }

  lemma HeaderReadsBack(env: Env, member: (string, Value))
    requires Lawful(env) && Header(env, member).Some?
    ensures Header(env, (Header(env, member).value.0, WriteHeader(Header(env, member).value.1))) == Header(env, member)
  {
    StripTwice(TextOf(env, member.1));
  }

  lemma UsageReadsBack(env: Env, member: (string, RawUsage))
    requires OneUsage(env, member).Some?
    ensures OneUsage(env, (OneUsage(env, member).value.0, WriteUsage(OneUsage(env, member).value.1)))
            == OneUsage(env, member)
  {
    StripTwice(member.0);
  }

  lemma CapacityHeadersFixed(env: Env, table: Table<Value>)
    requires Lawful(env) && CapacityHeaders(env, table).Some?
    ensures var m := CapacityHeaders(env, table).value;
      CapacityHeaders(env, Table(Listed(m, Sorted(m.Keys), WriteHeader))) == Some(m)
  {
    var one := (member: (string, Value)) => Header(env, member);
    var m := CapacityHeaders(env, table).value;
    forall member | one(member).Some?
      ensures one((one(member).value.0, WriteHeader(one(member).value.1))) == one(member)
    {
      HeaderReadsBack(env, member);
    }
    if table.Table? { CollectedReadBack(one, WriteHeader, table.members); }
    TableReadsBack(one, WriteHeader, m, 32);
  }

  lemma OperationUsageFixed(env: Env, table: Table<RawUsage>)
    requires OperationUsage(env, table).Some?
    ensures var m := OperationUsage(env, table).value;
      OperationUsage(env, Table(Listed(m, Sorted(m.Keys), WriteUsage))) == Some(m)
  {
    var one := (member: (string, RawUsage)) => OneUsage(env, member);
    var m := OperationUsage(env, table).value;
    forall member | one(member).Some?
      ensures one((one(member).value.0, WriteUsage(one(member).value.1))) == one(member)
    {
      UsageReadsBack(env, member);
    }
    if table.Table? { CollectedReadBack(one, WriteUsage, table.members); }
    TableReadsBack(one, WriteUsage, m, 128);
  }

  // What normalisation guarantees about a row, group by group.
  ghost predicate NormalTexts(env: Env, row: Row) {
    && Strip(row.provider) == row.provider && row.provider != "" && |row.provider| <= 128
    && Strip(row.scope) == row.scope && row.scope != "" && |row.scope| <= 128 && env.printable(row.scope)
    && (row.runId.Some? ==>
          Strip(row.runId.value) == row.runId.value && row.runId.value != "" && |row.runId.value| <= 256)
  }

  ghost predicate NormalCounts(env: Env, row: Row) {
    && (exists t :: row.at == env.utc(t))
    && row.failed <= row.operations
  }

  ghost predicate NormalTables(env: Env, row: Row) {
    && WithinTotals(row.usage, row.operations, row.httpRequests, row.responseBytes, row.failed)
    && CapacityHeaders(env, Write(row).headers) == Some(row.headers)
    && OperationUsage(env, Write(row).usage) == Some(row.usage)
  }

  ghost predicate Normal(env: Env, row: Row) {
    NormalTexts(env, row) && NormalCounts(env, row) && NormalTables(env, row)
  }

  lemma TextOrIsStripped(env: Env, value: Value, default: string)
    ensures Strip(TextOr(env, value, default)) == TextOr(env, value, default)
  {
    StripTwice(if Truthy(value) then TextOf(env, value) else default);
  }

  lemma NormalisedTexts(env: Env, doc: Document)
    requires Normalise(env, doc).Some?
    ensures NormalTexts(env, Normalise(env, doc).value)
  {
    TextOrIsStripped(env, doc.provider, "");
    TextOrIsStripped(env, doc.scope, "unspecified");
    TextOrIsStripped(env, doc.runId, "");
  }

  lemma NormalisedCounts(env: Env, doc: Document)
    requires Normalise(env, doc).Some?
    ensures NormalCounts(env, Normalise(env, doc).value)
  {
    AcceptedCounts(env, doc, Normalise(env, doc).value);
  }

  lemma AcceptedCounts(env: Env, doc: Document, row: Row)
    requires doc.Object? && CountsAccepted(env, doc)
    requires row.at == env.utc(InstantOf(env, doc).value)
    requires row.operations == NonNegativeInt(doc.operations).value && row.failed == Counter(doc.failed).value
    ensures NormalCounts(env, row)
  {
    var t := InstantOf(env, doc).value;
    assert row.at == env.utc(t);
  }

  lemma NormalisedTables(env: Env, doc: Document)
    requires Lawful(env) && Normalise(env, doc).Some?
    ensures NormalTables(env, Normalise(env, doc).value)
  {
    CapacityHeadersFixed(env, doc.headers);
    OperationUsageFixed(env, doc.usage);
  }

  lemma NormalisedIsNormal(env: Env, doc: Document)
    requires Lawful(env) && Normalise(env, doc).Some?
    ensures Normal(env, Normalise(env, doc).value)
  {
    NormalisedTexts(env, doc);
    NormalisedCounts(env, doc);
    NormalisedTables(env, doc);
  }

  lemma StrReadsBack(env: Env, s: string, default: string)
    requires Strip(s) == s && s != ""
    ensures TextOr(env, Str(s), default) == s
  {
  }

  lemma TextsReadBack(env: Env, row: Row)
    requires NormalTexts(env, row)
    ensures var doc := Write(row);
      && TextsAccepted(env, doc) && RunIdOf(env, doc) == row.runId
      && TextOr(env, doc.scope, "unspecified") == row.scope && TextOr(env, doc.provider, "") == row.provider
  {
    StrReadsBack(env, row.provider, "");
    StrReadsBack(env, row.scope, "unspecified");
    if row.runId.Some? { StrReadsBack(env, row.runId.value, ""); }
  }

  // The counters of a document are those of a row.
  ghost predicate SameCounts(doc: Document, row: Row)
    requires doc.Object?
  {
    && NonNegativeInt(doc.operations) == Some(row.operations)
    && NonNegativeInt(doc.httpRequests) == Some(row.httpRequests)
    && NonNegativeInt(doc.responseBytes) == Some(row.responseBytes)
    && NonNegativeInt(doc.exitStatus) == Some(row.exitStatus)
    && Counter(doc.failed) == Some(row.failed) && ProcessExit(doc) == Some(row.processExit)
  }

  lemma CountsReadBack(env: Env, row: Row)
    requires Lawful(env) && NormalCounts(env, row)
    ensures SameCounts(Write(row), row) && CountsAccepted(env, Write(row))
    ensures env.utc(InstantOf(env, Write(row)).value) == row.at
  {
    var t :| row.at == env.utc(t);
    assert env.instant(row.at) == Some(t);
  }

  lemma TablesReadBack(env: Env, doc: Document, row: Row)
    requires doc.Object? && SameCounts(doc, row) && CountsAccepted(env, doc) && NormalTables(env, row)
    requires doc.headers == Write(row).headers && doc.usage == Write(row).usage
    ensures TablesAccepted(env, doc)
    ensures CapacityHeaders(env, doc.headers) == Some(row.headers) && OperationUsage(env, doc.usage) == Some(row.usage)
  {
  }

  lemma NormalReadsBack(env: Env, row: Row)
    requires Lawful(env) && Normal(env, row)
    ensures Normalise(env, Write(row)) == Some(row)
  {
    TextsReadBack(env, row);
    CountsReadBack(env, row);
    TablesReadBack(env, Write(row), row);
  }

  // A normalised row is a fixed point: written to the ledger and read again, it
  // normalises to itself.
  lemma NormalisedIsFixed(env: Env, doc: Document)
    requires Lawful(env) && Normalise(env, doc).Some?
    ensures Normalise(env, Write(Normalise(env, doc).value)) == Normalise(env, doc)
  {
    NormalisedIsNormal(env, doc);
    NormalReadsBack(env, Normalise(env, doc).value);
  }

  // ---- which documents are rows, and which row each is ---------------------------------

  // The value is this number: the number itself, or a text whose trimmed form has only
  // digits and is a decimal for it.
  predicate ReadsAs(value: Value, n: nat) {
    || value == Number(n)
    || (value.Str? && AllDigits(Strip(value.text)) && ParseDigits(Strip(value.text)) == n)
  }

  predicate CountsAs(value: Value, n: nat) { ReadsAs(value, n) || (value.Absent? && n == 0) }

  // The decimal form of a number.
  function Decimal(n: nat): string {
    if n < 10 then [('0' as int + n) as char] else Decimal(n / 10) + [('0' as int + n % 10) as char]
  }

  // A decimal is read as its number, with or without zeros in front.
  lemma {:induction false} DecimalReadsBack(n: nat)
    ensures AllDigits(Decimal(n)) && ParseDigits(Decimal(n)) == n
    decreases n
  {
    var s := Decimal(n);
    if n >= 10 {
      DecimalReadsBack(n / 10);
      assert s[..|s| - 1] == Decimal(n / 10);
    } else {
      assert s[..0] == "";
    }
  }

  lemma {:induction false} LeadingZero(s: string)
    requires AllDigits(s)
    ensures AllDigits("0" + s) && ParseDigits("0" + s) == ParseDigits(s)
    decreases |s|
  {
    var z := "0" + s;
    assert forall i | 0 <= i < |z| :: '0' <= z[i] <= '9';
    if |s| > 1 {
      LeadingZero(s[..|s| - 1]);
      assert z[..|z| - 1] == "0" + s[..|s| - 1];
    } else {
      assert z[..1] == "0" && z[..1][..0] == "" && s[..0] == "";
      assert ParseDigits("0") == 0;
    }
  }

  lemma ReadsAsIff(value: Value, n: nat)
    ensures NonNegativeInt(value) == Some(n) <==> ReadsAs(value, n)
    ensures Counter(value) == Some(n) <==> CountsAs(value, n)
  {
  }

  // The texts of the row are the trimmed texts of the document, within their bounds.
  predicate TextsDescribed(env: Env, doc: Document, row: Row)
    requires doc.Object?
  {
    && row.provider == TextOr(env, doc.provider, "") && 1 <= |row.provider| <= 128
    && row.scope == TextOr(env, doc.scope, "unspecified") && 1 <= |row.scope| <= 128 && env.printable(row.scope)
    && row.runId == (if TextOr(env, doc.runId, "") == "" then None else Some(TextOr(env, doc.runId, "")))
    && (row.runId.Some? ==> |row.runId.value| <= 256)
  }

  // Its instant is that of the document in UTC, and each counter is the document's.
  ghost predicate CountsDescribed(env: Env, doc: Document, row: Row)
    requires doc.Object?
  {
    && InstantDescribed(env, doc, row.at)
    && ReadsAs(doc.operations, row.operations) && ReadsAs(doc.httpRequests, row.httpRequests)
    && ReadsAs(doc.responseBytes, row.responseBytes) && ReadsAs(doc.exitStatus, row.exitStatus)
    && ReadsAs(if doc.processExit.Absent? then doc.exitStatus else doc.processExit, row.processExit)
    && CountsAs(doc.failed, row.failed) && row.failed <= row.operations
  }

  // One member of the header table gives this header.
  predicate GivesHeader(env: Env, member: (string, Value), name: string, header: string) {
    && name == Lower(Strip(member.0)) && header == Strip(TextOf(env, member.1))
    && name in env.headers && |name| <= 128 && env.printable(name)
    && 1 <= |header| <= 256 && env.printable(header)
  }

  // One member of the breakdown gives the counters of this operation.
  predicate GivesUsage(env: Env, member: (string, RawUsage), operation: string, u: Usage) {
    && operation == Strip(member.0) && 1 <= |operation| <= 128 && env.printable(operation)
    && member.1.Fields?
    && CountsAs(member.1.operations, u.operations) && CountsAs(member.1.httpRequests, u.httpRequests)
    && CountsAs(member.1.responseBytes, u.responseBytes) && CountsAs(member.1.failed, u.failed)
    && u.failed <= u.operations
  }

  // No later entry has the same name.
  predicate IsLast<U>(entries: seq<(string, U)>, i: nat)
    requires i < |entries|
  {
    forall j | i < j < |entries| :: entries[j].0 != entries[i].0
  }

  // The map holds the names of the entries, each with its last value.
  ghost predicate LastWins<U>(entries: seq<(string, U)>, m: map<string, U>) {
    && (forall name :: name in m <==> exists i :: 0 <= i < |entries| && entries[i].0 == name)
    && (forall i | 0 <= i < |entries| && IsLast(entries, i) :: entries[i].0 in m && m[entries[i].0] == entries[i].1)
  }

  function Fold<U>(entries: seq<(string, U)>): map<string, U> {
    if entries == [] then map[]
    else Fold(entries[..|entries| - 1])[entries[|entries| - 1].0 := entries[|entries| - 1].1]
  }

  lemma {:induction false} LastIndex<U>(entries: seq<(string, U)>, i: nat) returns (k: nat)
    requires i < |entries|
    ensures k < |entries| && entries[k].0 == entries[i].0 && IsLast(entries, k)
    decreases |entries| - i
  {
    if IsLast(entries, i) {
      k := i;
    } else {
      var j :| i < j < |entries| && entries[j].0 == entries[i].0;
      k := LastIndex(entries, j);
    }
  }

  lemma {:induction false} FoldLastWins<U>(entries: seq<(string, U)>)
    ensures LastWins(entries, Fold(entries))
    decreases |entries|
  {
    if entries != [] {
      var n := |entries| - 1;
      var front, last := entries[..n], entries[n];
      FoldLastWins(front);
      assert forall i | 0 <= i < n :: front[i] == entries[i];
      forall i | 0 <= i <= n && IsLast(entries, i)
        ensures entries[i].0 in Fold(entries) && Fold(entries)[entries[i].0] == entries[i].1
      {
        if i < n {
          assert entries[n].0 != entries[i].0;
          assert IsLast(front, i);
        }
      }
      forall name | name in Fold(entries) ensures exists i :: 0 <= i < |entries| && entries[i].0 == name {
        if name != last.0 {
          var i :| 0 <= i < n && front[i].0 == name;
          assert entries[i].0 == name;
        }
      }
      forall i | 0 <= i <= n ensures entries[i].0 in Fold(entries) {
        if i < n { assert front[i].0 in Fold(front); }
      }
    }
  }

  lemma LastWinsOnce<U>(entries: seq<(string, U)>, m: map<string, U>)
    requires LastWins(entries, m)
    ensures m == Fold(entries)
  {
    FoldLastWins(entries);
    var f := Fold(entries);
    forall name ensures name in m <==> name in f {
    }
    forall name | name in m ensures m[name] == f[name] {
      var i :| 0 <= i < |entries| && entries[i].0 == name;
      var k := LastIndex(entries, i);
    }
  }

  // Each member gives its entry.
  ghost predicate Entries<T, U>(gives: ((string, T), string, U) -> bool, members: seq<(string, T)>,
                                entries: seq<(string, U)>)
  {
    |entries| == |members| && forall i | 0 <= i < |members| :: gives(members[i], entries[i].0, entries[i].1)
  }

  // A table is collected: every member gives an entry, there is no other, and of several
  // of one name the last counts.
  ghost predicate TableCollected<T, U(!new)>(gives: ((string, T), string, U) -> bool, table: Table<T>,
                                             limit: nat, m: map<string, U>)
  {
    match table
    case NoTable => m == map[]
    case NotTable => false
    case Table(members) =>
      |members| <= limit && exists entries :: Entries(gives, members, entries) && LastWins(entries, m)
  }

  // The function collects what the relation describes.
  ghost predicate Agree<T(!new), U(!new)>(one: ((string, T)) -> Option<(string, U)>,
                                          gives: ((string, T), string, U) -> bool)
  {
    forall member, name, u :: one(member) == Some((name, u)) <==> gives(member, name, u)
  }

  lemma {:induction false} CollectIsFold<T(!new), U(!new)>(
      one: ((string, T)) -> Option<(string, U)>, gives: ((string, T), string, U) -> bool,
      members: seq<(string, T)>, entries: seq<(string, U)>)
    requires Agree(one, gives) && Entries(gives, members, entries)
    ensures Collect(one, members) == Some(Fold(entries))
    decreases |members|
  {
    if members != [] {
      var n := |members| - 1;
      CollectIsFold(one, gives, members[..n], entries[..n]);
      assert gives(members[n], entries[n].0, entries[n].1);
    }
  }

  lemma {:induction false} CollectHasEntries<T(!new), U(!new)>(
      one: ((string, T)) -> Option<(string, U)>, gives: ((string, T), string, U) -> bool, members: seq<(string, T)>)
      returns (entries: seq<(string, U)>)
    requires Agree(one, gives) && Collect(one, members).Some?
    ensures Entries(gives, members, entries)
    decreases |members|
  {
    if members == [] {
      entries := [];
    } else {
      var n := |members| - 1;
      var front := CollectHasEntries(one, gives, members[..n]);
      var last := one(members[n]).value;
      assert one(members[n]) == Some((last.0, last.1));
      entries := front + [last];
    }
  }

  lemma TableDescribed<T(!new), U(!new)>(one: ((string, T)) -> Option<(string, U)>,
                                         gives: ((string, T), string, U) -> bool, table: Table<T>, limit: nat,
                                         m: map<string, U>)
    requires Agree(one, gives)
    ensures TableOf(one, table, limit) == Some(m) <==> TableCollected(gives, table, limit, m)
  {
    if table.Table? {
      if Collect(one, table.members) == Some(m) {
        var entries := CollectHasEntries(one, gives, table.members);
        CollectIsFold(one, gives, table.members, entries);
        FoldLastWins(entries);
      }
      if exists entries :: Entries(gives, table.members, entries) && LastWins(entries, m) {
        var entries :| Entries(gives, table.members, entries) && LastWins(entries, m);
        CollectIsFold(one, gives, table.members, entries);
        LastWinsOnce(entries, m);
      }
    }
  }

  // The breakdown adds up, counter by counter and operation by operation.
  lemma {:induction false} SumOfParts(usage: map<string, Usage>, a: seq<string>, b: seq<string>)
    requires forall n | n in a + b :: n in usage
    ensures (forall n | n in a :: n in usage) && (forall n | n in b :: n in usage)
    ensures var x, y, all := SumOver(usage, a), SumOver(usage, b), SumOver(usage, a + b);
      && all.operations == x.operations + y.operations && all.httpRequests == x.httpRequests + y.httpRequests
      && all.responseBytes == x.responseBytes + y.responseBytes && all.failed == x.failed + y.failed
    ensures forall n | n in usage :: SumOver(usage, [n]) == usage[n]
    decreases |a|
  {
    assert forall n | n in a :: n in a + b;
    assert forall n | n in b :: n in a + b;
    if a == [] {
      assert a + b == b;
    } else {
      assert (a + b)[1..] == a[1..] + b;
      SumOfParts(usage, a[1..], b);
    }
  }

  // The tables of the row are collected from the document, and the breakdown stays within
  // the totals.
  ghost predicate TablesDescribed(env: Env, doc: Document, row: Row)
    requires doc.Object?
  {
    && TableCollected((member, name, header) => GivesHeader(env, member, name, header), doc.headers, 32, row.headers)
    && TableCollected((member, operation, u) => GivesUsage(env, member, operation, u), doc.usage, 128, row.usage)
    && var sum := SumOver(row.usage, Sorted(row.usage.Keys));
    && sum.operations <= row.operations && sum.httpRequests <= row.httpRequests
    && sum.responseBytes <= row.responseBytes && sum.failed <= row.failed
  }

  lemma HeadersDescribed(env: Env, table: Table<Value>, m: map<string, string>)
    ensures CapacityHeaders(env, table) == Some(m)
            <==> TableCollected((member, name, header) => GivesHeader(env, member, name, header), table, 32, m)
  {
    TableDescribed(member => Header(env, member), (member, name, header) => GivesHeader(env, member, name, header),
                   table, 32, m);
  }

  lemma UsageDescribed(env: Env, table: Table<RawUsage>, m: map<string, Usage>)
    ensures OperationUsage(env, table) == Some(m)
            <==> TableCollected((member, operation, u) => GivesUsage(env, member, operation, u), table, 128, m)
  {
    forall member, operation, u
      ensures OneUsage(env, member) == Some((operation, u)) <==> GivesUsage(env, member, operation, u)
    {
      UsageGiven(env, member, operation, u);
    }
    TableDescribed(member => OneUsage(env, member), (member, operation, u) => GivesUsage(env, member, operation, u),
                   table, 128, m);
  }

  lemma UsageGiven(env: Env, member: (string, RawUsage), operation: string, u: Usage)
    ensures OneUsage(env, member) == Some((operation, u)) <==> GivesUsage(env, member, operation, u)
  {
    if member.1.Fields? {
      ReadsAsIff(member.1.operations, u.operations);
      ReadsAsIff(member.1.httpRequests, u.httpRequests);
      ReadsAsIff(member.1.responseBytes, u.responseBytes);
      ReadsAsIff(member.1.failed, u.failed);
    }
  }

  // The instant is read.
  ghost predicate InstantDescribed(env: Env, doc: Document, at: string)
    requires doc.Object?
  {
    exists t :: env.instant(if Truthy(doc.at) then TextOf(env, doc.at) else "") == Some(t) && at == env.utc(t)
  }

  lemma CountsGiven(env: Env, doc: Document, row: Row)
    requires doc.Object?
    ensures CountsDescribed(env, doc, row) <==>
            && CountsAccepted(env, doc) && SameCounts(doc, row) && row.at == env.utc(InstantOf(env, doc).value)
  {
    ReadsAsIff(doc.operations, row.operations);
    ReadsAsIff(doc.httpRequests, row.httpRequests);
    ReadsAsIff(doc.responseBytes, row.responseBytes);
    ReadsAsIff(doc.exitStatus, row.exitStatus);
    ReadsAsIff(doc.failed, row.failed);
    ReadsAsIff(if doc.processExit.Absent? then doc.exitStatus else doc.processExit, row.processExit);
    InstantGiven(env, doc, row.at);
  }

  lemma InstantGiven(env: Env, doc: Document, at: string)
    requires doc.Object?
    ensures InstantDescribed(env, doc, at) <==>
            InstantOf(env, doc).Some? && at == env.utc(InstantOf(env, doc).value)
  {
    if InstantOf(env, doc).Some? {
      var t := InstantOf(env, doc).value;
      assert env.instant(if Truthy(doc.at) then TextOf(env, doc.at) else "") == Some(t);
    }
  }

  lemma TextsGiven(env: Env, doc: Document, row: Row)
    requires doc.Object?
    ensures TextsDescribed(env, doc, row) <==>
            && TextsAccepted(env, doc) && row.provider == TextOr(env, doc.provider, "")
            && row.scope == TextOr(env, doc.scope, "unspecified") && row.runId == RunIdOf(env, doc)
  {
  }

  lemma TablesGiven(env: Env, doc: Document, row: Row)
    requires doc.Object? && CountsAccepted(env, doc) && SameCounts(doc, row)
    ensures TablesDescribed(env, doc, row) <==>
            && TablesAccepted(env, doc) && CapacityHeaders(env, doc.headers) == Some(row.headers)
            && OperationUsage(env, doc.usage) == Some(row.usage)
  {
    HeadersDescribed(env, doc.headers, row.headers);
    UsageDescribed(env, doc.usage, row.usage);
  }

  // A document is a row exactly when the row describes it: nothing else is accepted, and
  // nothing of what is accepted is lost, added or changed.
  lemma NormaliseIff(env: Env, doc: Document, row: Row)
    ensures Normalise(env, doc) == Some(row) <==>
            doc.Object? && TextsDescribed(env, doc, row) && CountsDescribed(env, doc, row)
            && TablesDescribed(env, doc, row)
  {
    if doc.Object? {
      TextsGiven(env, doc, row);
      CountsGiven(env, doc, row);
      if CountsDescribed(env, doc, row) { TablesGiven(env, doc, row); }
      if Normalise(env, doc) == Some(row) {
        NormalisedFields(env, doc);
        TablesGiven(env, doc, row);
      }
    }
  }

  lemma NormalisedFields(env: Env, doc: Document)
    requires Normalise(env, doc).Some?
    ensures doc.Object? && CountsAccepted(env, doc) && SameCounts(doc, Normalise(env, doc).value)
  {
  }

  // ---- receipts and keys ---------------------------------------------------------------

  datatype Line = Blank | Unreadable | Parsed(doc: Document)

  // A row of a run is known by run, scope and provider; any other row by its content.
  datatype Key = RunKey(runId: string, scope: string, provider: string) | RowKey(row: Row)

  function KeyOf(row: Row): Key {
    var runId := if row.runId.Some? then Strip(row.runId.value) else "";
    if runId != "" then RunKey(runId, if row.scope == "" then "unspecified" else row.scope, row.provider)
    else RowKey(row)
  }

  function RowOf(env: Env, line: Line): Option<Row> { if line.Parsed? then Normalise(env, line.doc) else None }

  function LineOf(row: Row): Line { Parsed(Write(row)) }

  // A row without a run is duplicated only by an identical row; rows of one run
  // are duplicates whatever their counters say.
  lemma SameKeyIff(env: Env, a: Document, b: Document)
    requires Normalise(env, a).Some? && Normalise(env, b).Some?
    ensures var x, y := Normalise(env, a).value, Normalise(env, b).value;
      KeyOf(x) == KeyOf(y)
      <==> x == y || (x.runId.Some? && (x.runId, x.scope, x.provider) == (y.runId, y.scope, y.provider))
  {
    NormalisedTexts(env, a);
    NormalisedTexts(env, b);
    SameKeyOfNormal(env, Normalise(env, a).value, Normalise(env, b).value);
  }

  lemma SameKeyOfNormal(env: Env, x: Row, y: Row)
    requires NormalTexts(env, x) && NormalTexts(env, y)
    ensures KeyOf(x) == KeyOf(y)
            <==> x == y || (x.runId.Some? && (x.runId, x.scope, x.provider) == (y.runId, y.scope, y.provider))
  {
  }
}
