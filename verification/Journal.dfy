/** The event journal: one file of JSON lines per day, appended to by events and read backwards
    for the most recent ones. */
module Journal {
  import Names

  datatype Option<+T> = None | Some(value: T)
  datatype Record = Record(kind: Option<string>, body: string)
  /** A line that parses to an object, one that parses to something else, and one that is empty
      or does not parse, such as the half line a killed process leaves. */
  datatype Line = Object(record: Record) | OtherJson(body: string) | Junk
  datatype File = File(name: string, readable: bool, lines: seq<Line>)
  /** A parsed line that is not an object has no `kind` to ask for: that is an error. */
  datatype Outcome = Ok(rows: seq<Line>) | AttributeError

  /** The empty kind filters nothing. */
  predicate Filters(kind: Option<string>) {
    kind.Some? && kind.value != ""
  }

  predicate Passes(line: Line, kind: Option<string>) {
    match line
    case Object(record) => !Filters(kind) || record.kind == kind
    case OtherJson(_) => !Filters(kind)
    case Junk => false
  }

  function Rows(lines: seq<Line>, kind: Option<string>): seq<Line> {
    if lines == [] then []
    else Rows(lines[..|lines| - 1], kind) + if Passes(lines[|lines| - 1], kind) then [lines[|lines| - 1]] else []
  }

  /** Reading this file with this filter raises. */
  predicate Breaks(f: File, kind: Option<string>) {
    f.readable && Filters(kind) && exists l :: l in f.lines && l.OtherJson?
  }

  function RowsOf(f: File, kind: Option<string>): seq<Line> {
    if f.readable then Rows(f.lines, kind) else []
  }

  /** All that passes the filter in all readable files, in name order. */
  function All(files: seq<File>, kind: Option<string>): seq<Line> {
    if files == [] then [] else RowsOf(files[0], kind) + All(files[1..], kind)
  }

  function LastOf<T>(n: nat, s: seq<T>): seq<T> {
    if |s| <= n then s else s[|s| - n..]
  }

  /** The slice that takes the elements from `-limit` on, for either sign of `limit`. */
  function FromMinus<T>(limit: int, s: seq<T>): seq<T> {
    if limit > 0 then LastOf(limit, s)
    else if -limit <= |s| then s[-limit..]
    else []
  }

  /** What a filter asks for: any object of that kind, and without a filter everything that parses. */
  predicate Wanted(line: Line, kind: Option<string>) {
    match line
    case Object(record) => kind == None || kind == Some("") || record.kind == kind
    case OtherJson(_) => kind == None || kind == Some("")
    case Junk => false
  }

  /** The rows are the wanted lines, all of them and in their order: the i-th is the line at[i]. */
  lemma {:induction false} RowsAre(lines: seq<Line>, kind: Option<string>) returns (at: seq<nat>)
    ensures |at| == |Rows(lines, kind)| && forall i, j :: 0 <= i < j < |at| ==> at[i] < at[j]
    ensures forall i :: 0 <= i < |at| ==>
              at[i] < |lines| && Rows(lines, kind)[i] == lines[at[i]] && Wanted(lines[at[i]], kind)
    ensures forall k :: 0 <= k < |lines| && Wanted(lines[k], kind) ==> k in at
    decreases |lines|
  {
    at := [];
    if lines != [] {
      var init, k: nat := lines[..|lines| - 1], |lines| - 1;
      at := RowsAre(init, kind);
      if Wanted(lines[k], kind) {
        assert (at + [k])[|at|] == k;
        at := at + [k];
      }
    }
  }

  method ReadRows(lines: seq<Line>, kind: Option<string>) returns (r: Outcome)
    ensures r == if Filters(kind) && exists l :: l in lines && l.OtherJson? then AttributeError
                 else Ok(Rows(lines, kind))
    ensures r == AttributeError <==>
              kind.Some? && kind.value != "" && exists l :: l in lines && l.OtherJson?
  {
    var rows: seq<Line> := [];
    for i := 0 to |lines|
      invariant rows == Rows(lines[..i], kind)
      invariant Filters(kind) ==> forall l :: l in lines[..i] ==> !l.OtherJson?
    {
      assert lines[..i + 1] == lines[..i] + [lines[i]] && lines[..i + 1][..i] == lines[..i];
      match lines[i] {
        case Junk =>
        case OtherJson(_) =>
          if Filters(kind) {
            assert lines[i] in lines;
            return AttributeError;
          }
          rows := rows + [lines[i]];
        case Object(record) =>
          if !Filters(kind) || record.kind == kind {
            rows := rows + [lines[i]];
          }
      }
    }
    assert lines[..|lines|] == lines;
    return Ok(rows);
  }

  lemma {:induction false} AllLater(files: seq<File>, kind: Option<string>, j: nat, k: nat)
    requires j <= k <= |files|
    ensures |All(files[k..], kind)| <= |All(files[j..], kind)|
    decreases k - j
  {
    if j < k {
      assert files[j..][1..] == files[j + 1..];
      AllLater(files, kind, j + 1, k);
    }
  }

  /** The files from `k` on already hold enough, so nothing older is looked at. */
  lemma {:induction false} EnoughSeen(files: seq<File>, kind: Option<string>, k: nat, limit: nat)
    requires k <= |files| && |All(files[k..], kind)| >= limit
    ensures LastOf(limit, All(files[k..], kind)) == LastOf(limit, All(files, kind))
    decreases k
  {
    if k == 0 {
      assert files[0..] == files;
    } else {
      assert files[k - 1..][1..] == files[k..];
      LastOfSuffix(limit, RowsOf(files[k - 1], kind), All(files[k..], kind));
      assert All(files[k - 1..], kind) == RowsOf(files[k - 1], kind) + All(files[k..], kind);
      EnoughSeen(files, kind, k - 1, limit);
    }
  }

  lemma LastOfSuffix<T>(n: nat, a: seq<T>, b: seq<T>)
    requires |b| >= n
    ensures LastOf(n, a + b) == LastOf(n, b)
  {
  }

  /** Some file that has to be opened for `limit` rows breaks. */
  ghost predicate MeetsBreak(files: seq<File>, kind: Option<string>, limit: int) {
    exists k {:trigger Breaks(files[k], kind)} ::
      0 <= k < |files| && Breaks(files[k], kind) && |All(files[k + 1..], kind)| < limit
  }

  /** What reading the recent rows has to give for a positive limit. */
  ghost predicate Recent(files: seq<File>, limit: int, kind: Option<string>, r: Outcome)
    requires limit >= 1
  {
    r == if MeetsBreak(files, kind, limit) then AttributeError else Ok(LastOf(limit, All(files, kind)))
  }

  /** A limit below one looks at the newest readable file only. */
  ghost predicate NewestOnly(files: seq<File>, limit: int, kind: Option<string>, r: Outcome) {
    && ((forall f :: f in files ==> !f.readable) ==> r == Ok([]))
    && forall k :: 0 <= k < |files| && files[k].readable && (forall j :: k < j < |files| ==> !files[j].readable) ==>
         r == if Breaks(files[k], kind) then AttributeError else Ok(FromMinus(limit, RowsOf(files[k], kind)))
  }

  /** With a positive limit: the last `limit` of everything, unless a file that has to be looked at
      breaks. Files older than what the limit needs are never opened, so they cannot break it. */
  method Tail(files: seq<File>, limit: int, kind: Option<string>) returns (r: Outcome)
    ensures limit >= 1 ==> Recent(files, limit, kind, r)
    ensures limit <= 0 ==> NewestOnly(files, limit, kind, r)
  {
    var out: seq<Line> := [];
    var i := |files|;
    while i > 0
      invariant 0 <= i <= |files| && out == All(files[i..], kind)
      invariant forall k :: i <= k < |files| ==> !Breaks(files[k], kind)
      invariant limit >= 1 ==> |out| < limit
      invariant limit <= 0 ==> forall j :: i <= j < |files| ==> !files[j].readable
    {
      i := i - 1;
      assert files[i..][1..] == files[i + 1..];
      if !files[i].readable {
        continue;
      }
      if limit <= 0 { UnreadableIsEmpty(files[i + 1..], kind); }
      var rows := ReadRows(files[i].lines, kind);
      if rows == AttributeError {
        BreaksHere(files, limit, kind, i);
        return AttributeError;
      }
      out := rows.rows + out;
      if |out| >= limit {
        StopsHere(files, limit, kind, i);
        return Ok(FromMinus(limit, out));
      }
    }
    NothingLeft(files, limit, kind);
    return Ok(FromMinus(limit, out));
  }

  lemma BreaksHere(files: seq<File>, limit: int, kind: Option<string>, i: nat)
    requires i < |files| && Breaks(files[i], kind)
    requires limit >= 1 ==> |All(files[i + 1..], kind)| < limit
    requires limit <= 0 ==> forall j :: i < j < |files| ==> !files[j].readable
    ensures limit >= 1 ==> Recent(files, limit, kind, AttributeError)
    ensures limit <= 0 ==> NewestOnly(files, limit, kind, AttributeError)
  {
    assert files[i] in files;
  }

  lemma StopsHere(files: seq<File>, limit: int, kind: Option<string>, i: nat)
    requires i < |files| && |All(files[i..], kind)| >= limit && files[i].readable
    requires forall k :: i <= k < |files| ==> !Breaks(files[k], kind)
    requires limit <= 0 ==> forall j :: i < j < |files| ==> !files[j].readable
    ensures limit >= 1 ==> Recent(files, limit, kind, Ok(FromMinus(limit, All(files[i..], kind))))
    ensures limit <= 0 ==> NewestOnly(files, limit, kind, Ok(FromMinus(limit, All(files[i..], kind))))
  {
    if limit >= 1 {
      StopsInTime(files, limit, kind, i);
    } else {
      assert files[i] in files && files[i..][1..] == files[i + 1..];
      UnreadableIsEmpty(files[i + 1..], kind);
      assert All(files[i..], kind) == RowsOf(files[i], kind);
    }
  }

  lemma NothingLeft(files: seq<File>, limit: int, kind: Option<string>)
    requires forall k :: 0 <= k < |files| ==> !Breaks(files[k], kind)
    requires limit <= 0 ==> forall j :: 0 <= j < |files| ==> !files[j].readable
    ensures All(files[0..], kind) == All(files, kind)
    ensures limit >= 1 ==> Recent(files, limit, kind, Ok(FromMinus(limit, All(files, kind))))
    ensures limit <= 0 ==> NewestOnly(files, limit, kind, Ok(FromMinus(limit, All(files, kind))))
  {
    assert files[0..] == files;
    if limit <= 0 { UnreadableIsEmpty(files, kind); }
  }

  lemma StopsInTime(files: seq<File>, limit: nat, kind: Option<string>, i: nat)
    requires i < |files| && |All(files[i..], kind)| >= limit
    requires forall k :: i <= k < |files| ==> !Breaks(files[k], kind)
    ensures LastOf(limit, All(files[i..], kind)) == LastOf(limit, All(files, kind))
    ensures !MeetsBreak(files, kind, limit)
  {
    EnoughSeen(files, kind, i, limit);
    if MeetsBreak(files, kind, limit) {
      var k :| 0 <= k < |files| && Breaks(files[k], kind) && |All(files[k + 1..], kind)| < limit;
      AllLater(files, kind, k + 1, i);
    }
  }

  lemma {:induction false} UnreadableIsEmpty(files: seq<File>, kind: Option<string>)
    requires forall f :: f in files ==> !f.readable
    ensures All(files, kind) == []
    decreases |files|
  {
    if files != [] { UnreadableIsEmpty(files[1..], kind); }
  }

  // ---------- writing ----------

  /** Appends a line to the file of a day, creating it at its place in name order. */
  function Put(files: seq<File>, day: string, line: Line): seq<File> {
    if files == [] || Names.Less(day, files[0].name) then [File(day, true, [line])] + files
    else if files[0].name == day then [files[0].(lines := files[0].lines + [line])] + files[1..]
    else [files[0]] + Put(files[1..], day, line)
  }

  class Log {
    var files: seq<File>

    ghost predicate Valid()
      reads this
    {
      InNameOrder(files)
    }

    constructor ()
      ensures Valid() && files == []
    {
      files := [];
    }

    /** Writing never raises; when the disk refuses, the journal stays as it was. What is written on
        the newest day is the last of everything read back. */
    method Event(day: string, record: Record, writable: bool)
      requires Valid()
      modifies this
      ensures Valid()
      ensures files == if writable then Put(old(files), day, Object(record)) else old(files)
      ensures writable && Newest(old(files), day) ==>
                forall kind :: All(files, kind)
                               == All(old(files), kind) + if Passes(Object(record), kind) then [Object(record)] else []
    {
      if writable {
        PutKeepsOrder(files, day, Object(record));
        if Newest(files, day) {
          forall kind ensures All(Put(files, day, Object(record)), kind)
                              == All(files, kind) + if Passes(Object(record), kind) then [Object(record)] else []
          {
            NewestComesLast(files, day, record, kind);
          }
        }
        files := Put(files, day, Object(record));
      }
    }
  }

  /** No file is of a later day, and the day's own file can be read if there is one. */
  ghost predicate Newest(files: seq<File>, day: string) {
    forall f :: f in files ==> !Names.Less(day, f.name) && (f.name == day ==> f.readable)
  }

  ghost predicate InNameOrder(files: seq<File>) {
    forall i, j :: 0 <= i < j < |files| ==> Names.Less(files[i].name, files[j].name)
  }

  lemma {:induction false} PutKeepsOrder(files: seq<File>, day: string, line: Line)
    requires InNameOrder(files)
    ensures InNameOrder(Put(files, day, line))
    ensures forall f :: f in Put(files, day, line) ==> f.name == day || exists g :: g in files && g.name == f.name
    decreases |files|
  {
    if files == [] {
    } else if Names.Less(day, files[0].name) {
      forall j | 0 < j < |files| ensures Names.Less(day, files[j].name) {
        Names.LessTransitive(day, files[0].name, files[j].name);
      }
    } else if files[0].name != day {
      var rest := Put(files[1..], day, line);
      PutKeepsOrder(files[1..], day, line);
      Names.LessTotal(day, files[0].name);
      forall j | 0 <= j < |rest| ensures Names.Less(files[0].name, rest[j].name) {
        assert rest[j] in rest;
      }
    }
  }

  lemma RowsAppend(lines: seq<Line>, line: Line, kind: Option<string>)
    ensures Rows(lines + [line], kind) == Rows(lines, kind) + if Passes(line, kind) then [line] else []
  {
    assert (lines + [line])[..|lines|] == lines;
  }

  /** An event written on the newest day or later is the newest of everything read back. */
  lemma {:induction false} NewestComesLast(files: seq<File>, day: string, record: Record, kind: Option<string>)
    requires InNameOrder(files) && Newest(files, day)
    ensures All(Put(files, day, Object(record)), kind) ==
              All(files, kind) + if Passes(Object(record), kind) then [Object(record)] else []
    decreases |files|
  {
    var line := Object(record);
    if files == [] {
      assert Put(files, day, line)[1..] == [] && [] + [line] == [line];
      RowsAppend([], line, kind);
    } else {
      assert files[0] in files;
      if files[0].name == day {
        NothingAfterTheNewest(files, day);
        NewestFileGrows(files[0], line, kind);
      } else {
        assert Newest(files[1..], day);
        NewestComesLast(files[1..], day, record, kind);
        PutFurtherOn(files, day, line, kind);
      }
    }
  }

  lemma PutFurtherOn(files: seq<File>, day: string, line: Line, kind: Option<string>)
    requires files != [] && files[0].name != day && !Names.Less(day, files[0].name)
    ensures All(Put(files, day, line), kind) == RowsOf(files[0], kind) + All(Put(files[1..], day, line), kind)
  {
    assert Put(files, day, line)[1..] == Put(files[1..], day, line);
  }

  lemma NewestFileGrows(f: File, line: Line, kind: Option<string>)
    requires f.readable
    ensures All(Put([f], f.name, line), kind) == All([f], kind) + if Passes(line, kind) then [line] else []
  {
    Names.LessIrreflexive(f.name);
    var g := f.(lines := f.lines + [line]);
    assert Put([f], f.name, line) == [g] && [g][1..] == [] && [f][1..] == [];
    RowsAppend(f.lines, line, kind);
  }

  /** A second file would be of a later day. */
  lemma SecondIsLater(files: seq<File>)
    requires InNameOrder(files) && |files| > 1
    ensures files[1] in files && Names.Less(files[0].name, files[1].name)
  {
  }

  lemma NothingAfterTheNewest(files: seq<File>, day: string)
    requires InNameOrder(files) && Newest(files, day) && files != [] && files[0].name == day
    ensures files == [files[0]]
  {
    if |files| > 1 { SecondIsLater(files); }
  }
}
