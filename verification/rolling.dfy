/**
 * RollingFileSink: one log file per day. The first emit, and the first emit
 * after the next midnight, opens a file named by the TemplatedPathRoller,
 * continuing the sequence of the newest file already there and trying at
 * most three sequence numbers; after a successful open the oldest files
 * beyond the retention limit are deleted. The clock, the directory listing
 * (absent when the directory is missing) and whether a path can be opened
 * are parameters; a delete is reported as attempted whatever its outcome,
 * since a failed delete only produces a diagnostic.
 */
module Rolling {
  import opened Wrappers
  import opened Chars
  import opened Roller
  import opened Events

  /** LocalDateTime: a date and the time of day. */
  datatype DateTime = DateTime(date: Date, time: nat)

  /** isAfter. */
  predicate After(a: DateTime, b: DateTime) {
    DateBefore(b.date, a.date) || (a.date == b.date && a.time > b.time)
  }

  /** The midnight that starts the day after `now`. */
  function MidnightAfter(now: DateTime): (r: DateTime)
    requires ValidDate(now.date)
    ensures After(r, now) && r.time == 0
  {
    DateTime(NextDay(now.date), 0)
  }

  /**
   * Once a file is opened at `now`, no later emit on the same day rolls:
   * the checkpoint is passed only from the next midnight on.
   */
  lemma {:induction false} SameDayKeepsFile(now: DateTime, later: DateTime)
    requires ValidDate(now.date) && later.date == now.date
    ensures !After(later, MidnightAfter(now))
    ensures forall t: DateTime :: t.date == NextDay(now.date) ==> (After(t, MidnightAfter(now)) <==> t.time > 0)
  {
  }

  const MaxAttempts := 3

  /** sequenceNumber++ on a Java int. */
  function Inc32(n: int): int {
    if n == IntMax then IntMin else n + 1
  }

  // ------------------------------------------------------------ sortFiles

  /** a sorts before b: a later date, or the same date and a higher sequence. */
  predicate Newer(a: LogFile, b: LogFile) {
    DateBefore(b.date, a.date) || (a.date == b.date && a.sequence > b.sequence)
  }

  /** Newest first. */
  predicate Sorted(s: seq<LogFile>) {
    forall i, j :: 0 <= i < j < |s| ==> !Newer(s[j], s[i])
  }

  /** Insert after every file that is not older: equal files keep their order. */
  function Insert(f: LogFile, s: seq<LogFile>): (r: seq<LogFile>)
    ensures |r| == |s| + 1
  {
    if s == [] then [f]
    else if Newer(f, s[0]) then [f] + s
    else [s[0]] + Insert(f, s[1..])
  }

  /** sortFiles: List.sort, a stable sort, newest first. */
  function SortFiles(files: seq<LogFile>): (r: seq<LogFile>)
    ensures |r| == |files|
  {
    if files == [] then [] else Insert(files[|files| - 1], SortFiles(files[..|files| - 1]))
  }

  lemma {:induction false} InsertPermutes(f: LogFile, s: seq<LogFile>)
    ensures multiset(Insert(f, s)) == multiset(s) + multiset{f}
  {
    if s != [] && !Newer(f, s[0]) {
      InsertPermutes(f, s[1..]);
      assert s == [s[0]] + s[1..];
    }
  }

  /** Every file in Insert(f, s) is f or a file of s. */
  lemma InsertFrom(f: LogFile, s: seq<LogFile>, j: nat)
    requires j < |Insert(f, s)|
    ensures Insert(f, s)[j] == f || Insert(f, s)[j] in s
  {
    InsertPermutes(f, s);
    assert Insert(f, s)[j] in multiset(Insert(f, s));
  }

  lemma {:induction false} InsertSorted(f: LogFile, s: seq<LogFile>)
    requires Sorted(s)
    ensures Sorted(Insert(f, s))
  {
    if s != [] && !Newer(f, s[0]) {
      InsertSorted(f, s[1..]);
      var rest := Insert(f, s[1..]);
      forall j | 0 <= j < |rest| ensures !Newer(rest[j], s[0]) {
        InsertFrom(f, s[1..], j);
        if rest[j] != f {
          var k :| 0 <= k < |s[1..]| && s[1..][k] == rest[j];
          assert s[k + 1] == rest[j];
        }
      }
      var r := [s[0]] + rest;
      forall i, j | 0 <= i < j < |r| ensures !Newer(r[j], r[i]) {
        assert r[j] == rest[j - 1];
        if i > 0 {
          assert r[i] == rest[i - 1];
        }
      }
    } else if s != [] {
      var r := [f] + s;
      forall i, j | 0 <= i < j < |r| ensures !Newer(r[j], r[i]) {
        assert r[j] == s[j - 1];
        if i == 0 {
          if j - 1 > 0 {
            assert !Newer(s[j - 1], s[0]);
          }
        } else {
          assert r[i] == s[i - 1];
        }
      }
    }
  }

  /** sortFiles orders newest first and keeps exactly the same files. */
  lemma {:induction false} SortFilesSorts(files: seq<LogFile>)
    ensures Sorted(SortFiles(files))
    ensures multiset(SortFiles(files)) == multiset(files)
  {
    if files != [] {
      var init := files[..|files| - 1];
      SortFilesSorts(init);
      InsertSorted(files[|files| - 1], SortFiles(init));
      InsertPermutes(files[|files| - 1], SortFiles(init));
      assert files == init + [files[|files| - 1]];
    }
  }

  /** The first file after sorting is the newest: no file is newer. */
  lemma SortedHeadNewest(files: seq<LogFile>, f: LogFile)
    requires files != [] && f in files
    ensures !Newer(f, SortFiles(files)[0])
  {
    SortFilesSorts(files);
    var s := SortFiles(files);
    assert f in multiset(s);
    var j :| 0 <= j < |s| && s[j] == f;
    if j > 0 {
      assert !Newer(s[j], s[0]);
    }
  }

  // ------------------------------------------------------------ retention

  /** removeIf: drop the files whose name equals this one ignoring case. */
  function RemoveIgnoreCase(files: seq<LogFile>, name: string): (r: seq<LogFile>)
    ensures forall f :: f in r <==> f in files && Lower(f.filename) != Lower(name)
  {
    if files == [] then []
    else (if Lower(files[0].filename) == Lower(name) then [] else [files[0]]) + RemoveIgnoreCase(files[1..], name)
  }

  function Names(files: seq<LogFile>): (r: seq<string>)
    ensures |r| == |files| && forall i :: 0 <= i < |files| ==> r[i] == files[i].filename
  {
    seq(|files|, i requires 0 <= i < |files| => files[i].filename)
  }

  /** The files retention considers: the listing's matches with the current file put in once, newest first. */
  function Candidates(r: Roller, listing: seq<string>, current: string): seq<LogFile> {
    SortFiles(RemoveIgnoreCase(Matches(r, listing), current) + Matches(r, [current]))
  }

  /** applyRetentionPolicy's deletions: everything after the first `limit` candidates, nothing when they fit. */
  function ToDelete(r: Roller, limit: int, listing: seq<string>, current: string): seq<LogFile> {
    var files := Candidates(r, listing, current);
    if |files| <= limit then [] else files[Max0(limit)..]
  }

  function Max0(n: int): nat {
    if n < 0 then 0 else n
  }

  /**
   * Retention keeps the `limit` newest candidates and deletes the rest, each
   * older than every kept one; with a limit of zero or less every candidate goes.
   */
  lemma RetentionKeepsNewest(r: Roller, limit: int, listing: seq<string>, current: string)
    ensures var files := Candidates(r, listing, current);
      |files| <= limit ==> ToDelete(r, limit, listing, current) == []
    ensures var files := Candidates(r, listing, current);
      |files| > limit ==> |ToDelete(r, limit, listing, current)| == |files| - Max0(limit)
    ensures var files := Candidates(r, listing, current);
      forall i, j :: 0 <= i < Max0(limit) <= j < |files| ==> !Newer(files[j], files[i])
    ensures forall f :: f in ToDelete(r, limit, listing, current) ==> f in Candidates(r, listing, current)
  {
    SortFilesSorts(RemoveIgnoreCase(Matches(r, listing), current) + Matches(r, [current]));
  }

  /**
   * A candidate is a matching listed name other than the current file's
   * (ignoring case), or the current file itself when its name matches.
   */
  lemma CandidatesFrom(r: Roller, listing: seq<string>, current: string, f: LogFile)
    ensures f in Candidates(r, listing, current) <==>
      (f in Matches(r, listing) && Lower(f.filename) != Lower(current)) || MatchName(r, current) == Some(f)
  {
    var files := RemoveIgnoreCase(Matches(r, listing), current) + Matches(r, [current]);
    SortFilesSorts(files);
    assert f in Candidates(r, listing, current) <==> f in multiset(files);
    MatchesExactly(r, [current], f);
  }

  // ------------------------------------------------------------ opening

  /** One openFile: the paths tried, the file openedFile (if any) and the files retention deleted. */
  datatype Opening = Opening(attempts: seq<string>, openedFile: Option<string>, deleted: seq<string>)

  /** The names applyRetentionPolicy deletes once `path` is open; none without a limit. */
  function Deletions(r: Roller, limit: Option<int>, listing: seq<string>, path: string): seq<string> {
    if limit.None? then [] else Names(ToDelete(r, limit.value, listing, FileName(path)))
  }

  /** The sequence number after i failed opens. */
  function Step(sequence: int, i: nat): int {
    if i == 0 then sequence else Inc32(Step(sequence, i - 1))
  }

  /** The paths openFile may try, one per attempt, the sequence going up by one after each failure. */
  function TriedPaths(r: Roller, today: Date, start: int): seq<string>
    requires ValidDate(today)
  {
    seq(MaxAttempts, i requires 0 <= i < MaxAttempts => LogFilePath(r, today, Step(start, i)))
  }

  /** The attempt loop over the paths still to try: the first that opens wins. */
  function FirstOpenable(r: Roller, limit: Option<int>, listing: seq<string>, canOpen: string -> bool,
                         paths: seq<string>): Opening
  {
    if paths == [] then Opening([], None, [])
    else if canOpen(paths[0]) then Opening([paths[0]], Some(paths[0]), Deletions(r, limit, listing, paths[0]))
    else
      var rest := FirstOpenable(r, limit, listing, canOpen, paths[1..]);
      rest.(attempts := [paths[0]] + rest.attempts)
  }

  /** The sequence openFile starts from: that of the newest matching file, or 0. */
  function StartSequence(r: Roller, listing: seq<string>): int {
    var files := Matches(r, listing);
    if files == [] then 0 else SortFiles(files)[0].sequence
  }

  /** openFile, once the listing was read. */
  function Open(r: Roller, limit: Option<int>, listing: seq<string>, canOpen: string -> bool, now: DateTime): Opening
    requires ValidDate(now.date)
  {
    FirstOpenable(r, limit, listing, canOpen, TriedPaths(r, now.date, StartSequence(r, listing)))
  }

  /**
   * The paths are tried in order and none is skipped; every one tried but
   * the last failed; a file is opened exactly when the last one tried could
   * be, it is that path, and retention runs for it; when none could, all
   * were tried and nothing is deleted.
   */
  lemma {:induction false} FirstOpenableShape(r: Roller, limit: Option<int>, listing: seq<string>, canOpen: string -> bool,
                                              paths: seq<string>)
    ensures var o := FirstOpenable(r, limit, listing, canOpen, paths);
      |o.attempts| <= |paths| && o.attempts == paths[..|o.attempts|]
      && (forall i :: 0 <= i < |o.attempts| - 1 ==> !canOpen(paths[i]))
      && (o.openedFile.Some? <==> o.attempts != [] && canOpen(paths[|o.attempts| - 1]))
      && (o.openedFile.Some? ==> o.openedFile.value == paths[|o.attempts| - 1])
      && (o.openedFile.Some? ==> o.deleted == Deletions(r, limit, listing, o.openedFile.value))
      && (o.openedFile.None? ==> o.attempts == paths && o.deleted == [])
  {
    var o := FirstOpenable(r, limit, listing, canOpen, paths);
    if paths == [] {
    } else if canOpen(paths[0]) {
      assert paths[..1] == [paths[0]];
    } else {
      FirstOpenableShape(r, limit, listing, canOpen, paths[1..]);
      var rest := FirstOpenable(r, limit, listing, canOpen, paths[1..]);
      assert o == rest.(attempts := [paths[0]] + rest.attempts);
      FailedAttemptShape(rest, o, paths, canOpen);
    }
  }

  /** The attempts of an opening are a prefix of the paths, all but the last failed, and the file opened is the last. */
  ghost predicate AttemptShape(o: Opening, paths: seq<string>, canOpen: string -> bool) {
    |o.attempts| <= |paths| && o.attempts == paths[..|o.attempts|]
    && (forall i :: 0 <= i < |o.attempts| - 1 ==> !canOpen(paths[i]))
    && (o.openedFile.Some? <==> o.attempts != [] && canOpen(paths[|o.attempts| - 1]))
    && (o.openedFile.Some? ==> o.openedFile.value == paths[|o.attempts| - 1])
    && (o.openedFile.None? ==> o.attempts == paths && o.deleted == [])
  }

  /** A failed first attempt put in front of the rest's attempts keeps their shape. */
  lemma FailedAttemptShape(rest: Opening, o: Opening, paths: seq<string>, canOpen: string -> bool)
    requires paths != [] && !canOpen(paths[0])
    requires o == rest.(attempts := [paths[0]] + rest.attempts)
    requires |rest.attempts| <= |paths[1..]| && rest.attempts == paths[1..][..|rest.attempts|]
    requires forall i :: 0 <= i < |rest.attempts| - 1 ==> !canOpen(paths[1..][i])
    requires rest.openedFile.Some? <==> rest.attempts != [] && canOpen(paths[1..][|rest.attempts| - 1])
    requires rest.openedFile.Some? ==> rest.openedFile.value == paths[1..][|rest.attempts| - 1]
    requires rest.openedFile.None? ==> rest.attempts == paths[1..] && rest.deleted == []
    ensures AttemptShape(o, paths, canOpen)
  {
    var n := |rest.attempts|;
    assert [paths[0]] + paths[1..][..n] == paths[..n + 1];
    forall i | 0 <= i < n ensures !canOpen(paths[i]) {
      if i > 0 {
        assert paths[i] == paths[1..][i - 1];
      }
    }
    if rest.openedFile.None? {
      assert [paths[0]] + paths[1..] == paths;
    }
  }

  /** One attempt of openFile: the path opens and retention runs, or it fails and the later paths are tried. */
  lemma AttemptStep(r: Roller, limit: Option<int>, listing: seq<string>, canOpen: string -> bool, paths: seq<string>, k: nat)
    requires k < |paths|
    ensures var here := FirstOpenable(r, limit, listing, canOpen, paths[k..]);
      var next := FirstOpenable(r, limit, listing, canOpen, paths[k + 1..]);
      (canOpen(paths[k]) ==> here == Opening([paths[k]], Some(paths[k]), Deletions(r, limit, listing, paths[k])))
      && (!canOpen(paths[k]) ==> here == next.(attempts := [paths[k]] + next.attempts))
  {
    assert paths[k..][0] == paths[k] && paths[k..][1..] == paths[k + 1..];
  }

  lemma {:induction false} StepNext(sequence: int, i: nat)
    ensures Step(Inc32(sequence), i) == Step(sequence, i + 1)
  {
    if i > 0 {
      StepNext(sequence, i - 1);
    }
  }

  // ------------------------------------------------------------ the sink

  /** What one emit did: the paths tried, the files deleted, the file the event went to, and the exception. */
  datatype Emission = Emission(attempts: seq<string>, deleted: seq<string>, written: Option<string>, failure: Option<Failure>)

  class RollingFileSink {
    const roller: Roller
    const retainedFileCountLimit: Option<int>
    var isDisposed: bool
    var nextCheckpoint: Option<DateTime>
    var currentFile: Option<string>

    constructor (roller: Roller, retainedFileCountLimit: Option<int>)
      ensures this.roller == roller && this.retainedFileCountLimit == retainedFileCountLimit
      ensures !isDisposed && nextCheckpoint.None? && currentFile.None?
    {
      this.roller := roller;
      this.retainedFileCountLimit := retainedFileCountLimit;
      isDisposed, nextCheckpoint, currentFile := false, None, None;
    }

    /** The constructor: the roller rejects a bad path template. */
    static method Create(pathFormat: string, workingDirectory: string, canonical: string -> Option<string>, retainedFileCountLimit: Option<int>)
      returns (r: Outcome<RollingFileSink>)
      ensures r.Thrown? <==> NewRoller(pathFormat, workingDirectory, canonical).Thrown?
      ensures r.Thrown? ==> r.failure == NewRoller(pathFormat, workingDirectory, canonical).failure
      ensures r.Ok? ==> fresh(r.value) && r.value.roller == NewRoller(pathFormat, workingDirectory, canonical).value
      ensures r.Ok? ==> r.value.retainedFileCountLimit == retainedFileCountLimit
      ensures r.Ok? ==> !r.value.isDisposed && r.value.nextCheckpoint.None? && r.value.currentFile.None?
    {
      var roller := NewRoller(pathFormat, workingDirectory, canonical);
      if roller.Thrown? {
        return Thrown(roller.failure);
      }
      var sink := new RollingFileSink(roller.value, retainedFileCountLimit);
      r := Ok(sink);
    }

    /**
     * applyRetentionPolicy: with a limit, the candidates are sorted, the
     * first `limit` removed one by one, and each remaining one deleted.
     */
    method ApplyRetentionPolicy(currentPath: string, listing: seq<string>) returns (deleted: seq<string>)
      ensures deleted == Deletions(roller, retainedFileCountLimit, listing, currentPath)
    {
      if retainedFileCountLimit.None? {
        return [];
      }
      var limit := retainedFileCountLimit.value;
      var currentFilename := FileName(currentPath);
      var files := GetMatches(roller, listing);
      files := RemoveIgnoreCase(files, currentFilename);
      var own := GetMatches(roller, [currentFilename]);
      files := SortFiles(files + own);
      assert files == Candidates(roller, listing, currentFilename);
      if |files| <= limit {
        return [];
      }
      files := DropFirst(files, limit);
      deleted := DeleteEach(files);
    }

    /** The first `n` files removed one by one. */
    static method DropFirst(files: seq<LogFile>, n: int) returns (rest: seq<LogFile>)
      requires n < |files|
      ensures rest == files[Max0(n)..]
    {
      rest := files;
      var i := 0;
      while i < n
        invariant 0 <= i <= Max0(n) && rest == files[i..]
      {
        rest := rest[1..];
        i := i + 1;
      }
    }

    /** Each file deleted in turn; a failed delete does not stop the pass. */
    static method DeleteEach(files: seq<LogFile>) returns (deleted: seq<string>)
      ensures deleted == Names(files)
    {
      deleted := [];
      for k := 0 to |files|
        invariant deleted == Names(files[..k])
      {
        deleted := deleted + [files[k].filename];
      }
      assert files[..|files|] == files;
    }

    /** The start of openFile: the sequence of the newest matching file, or 0 when none matches. */
    method NewestSequence(listing: seq<string>) returns (sequenceNumber: int)
      ensures sequenceNumber == StartSequence(roller, listing)
    {
      var files := GetMatches(roller, listing);
      sequenceNumber := 0;
      if |files| > 0 {
        files := SortFiles(files);
        sequenceNumber := files[0].sequence;
      }
    }

    /** openFile: the checkpoint moves to the next midnight, then the listing is read and the attempts made. */
    method OpenFile(now: DateTime, listing: Option<seq<string>>, canOpen: string -> bool)
      returns (attempts: seq<string>, deleted: seq<string>, failure: Option<Failure>)
      requires ValidDate(now.date)
      modifies this
      ensures nextCheckpoint == Some(MidnightAfter(now)) && isDisposed == old(isDisposed)
      ensures listing.None? ==> failure == Some(NullPointer) && attempts == [] && deleted == [] && currentFile == old(currentFile)
      ensures listing.Some? ==>
        var o := Open(roller, retainedFileCountLimit, listing.value, canOpen, now);
        failure.None? && attempts == o.attempts && deleted == o.deleted
        && currentFile == (if o.openedFile.Some? then o.openedFile else old(currentFile))
    {
      nextCheckpoint := Some(MidnightAfter(now));
      if listing.None? {
        return [], [], Some(NullPointer);
      }
      var sequenceNumber := NewestSequence(listing.value);
      ghost var start := sequenceNumber;
      ghost var paths := TriedPaths(roller, now.date, start);
      ghost var o := FirstOpenable(roller, retainedFileCountLimit, listing.value, canOpen, paths);
      assert o == Open(roller, retainedFileCountLimit, listing.value, canOpen, now);
      assert paths[0..] == paths;
      attempts, deleted, failure := [], [], None;
      var attempt := 0;
      while attempt < MaxAttempts
        invariant 0 <= attempt <= MaxAttempts && sequenceNumber == Step(start, attempt)
        invariant var rest := FirstOpenable(roller, retainedFileCountLimit, listing.value, canOpen, paths[attempt..]);
          o.attempts == attempts + rest.attempts && o.openedFile == rest.openedFile && o.deleted == rest.deleted
        invariant currentFile == old(currentFile) && deleted == []
        invariant nextCheckpoint == Some(MidnightAfter(now)) && isDisposed == old(isDisposed)
      {
        var path := LogFilePath(roller, now.date, sequenceNumber);
        assert path == paths[attempt];
        AttemptStep(roller, retainedFileCountLimit, listing.value, canOpen, paths, attempt);
        attempts := attempts + [path];
        if !canOpen(path) {
          sequenceNumber := Inc32(sequenceNumber);
          attempt := attempt + 1;
          continue;
        }
        currentFile := Some(path);
        deleted := ApplyRetentionPolicy(path, listing.value);
        return;
      }
      assert paths[attempt..] == [];
    }

    /** closeFile: the checkpoint is cleared and the current file closed. */
    method CloseFile()
      modifies this
      ensures nextCheckpoint.None? && currentFile.None? && isDisposed == old(isDisposed)
    {
      nextCheckpoint := None;
      currentFile := None;
    }

    /** Whether emit at `now` (re)opens a file: none openedFile yet, or the checkpoint has passed. */
    predicate Rolls(now: DateTime)
      reads this
    {
      nextCheckpoint.None? || After(now, nextCheckpoint.value)
    }

    /**
     * emit at `now`: after disposal it throws; otherwise the file is aligned
     * to the clock and the event written to the current file, if one is open.
     */
    method Emit(e: EventData, now: DateTime, listing: Option<seq<string>>, canOpen: string -> bool)
      returns (em: Emission)
      requires ValidDate(now.date)
      modifies this
      ensures isDisposed == old(isDisposed)
      ensures old(isDisposed) ==>
        em == Emission([], [], None, Some(IllegalState("The rolling file has been disposed")))
        && nextCheckpoint == old(nextCheckpoint) && currentFile == old(currentFile)
      ensures !old(isDisposed) && !old(Rolls(now)) ==>
        em == Emission([], [], old(currentFile), None) && nextCheckpoint == old(nextCheckpoint) && currentFile == old(currentFile)
      ensures !old(isDisposed) && old(Rolls(now)) && listing.None? ==>
        em == Emission([], [], None, Some(NullPointer)) && nextCheckpoint == Some(MidnightAfter(now))
        && currentFile == (if old(nextCheckpoint).None? then old(currentFile) else None)
      ensures !old(isDisposed) && old(Rolls(now)) && listing.Some? ==>
        var o := Open(roller, retainedFileCountLimit, listing.value, canOpen, now);
        var current := if o.openedFile.Some? then o.openedFile else if old(nextCheckpoint).None? then old(currentFile) else None;
        em == Emission(o.attempts, o.deleted, current, None)
        && nextCheckpoint == Some(MidnightAfter(now)) && currentFile == current
    {
      if isDisposed {
        return Emission([], [], None, Some(IllegalState("The rolling file has been disposed")));
      }
      var attempts, deleted, failure := [], [], None;
      if nextCheckpoint.None? {
        attempts, deleted, failure := OpenFile(now, listing, canOpen);
      } else if After(now, nextCheckpoint.value) {
        CloseFile();
        attempts, deleted, failure := OpenFile(now, listing, canOpen);
      }
      if failure.Some? {
        return Emission(attempts, deleted, None, failure);
      }
      em := Emission(attempts, deleted, currentFile, None);
    }

    /** close: the first call closes the current file and disposes the sink; later calls do nothing. */
    method Close()
      modifies this
      ensures isDisposed
      ensures old(isDisposed) ==> nextCheckpoint == old(nextCheckpoint) && currentFile == old(currentFile)
      ensures !old(isDisposed) ==> nextCheckpoint.None? && currentFile.None?
    {
      if !isDisposed {
        CloseFile();
        isDisposed := true;
      }
    }
  }

  /** After three failed opens the sink has no file, and events are dropped until the checkpoint passes. */
  lemma ThreeFailuresOpenNothing(r: Roller, limit: Option<int>, listing: seq<string>, canOpen: string -> bool, now: DateTime)
    requires ValidDate(now.date)
    requires forall i :: 0 <= i < MaxAttempts ==> !canOpen(LogFilePath(r, now.date, Step(StartSequence(r, listing), i)))
    ensures Open(r, limit, listing, canOpen, now).openedFile.None?
    ensures |Open(r, limit, listing, canOpen, now).attempts| == MaxAttempts
    ensures Open(r, limit, listing, canOpen, now).deleted == []
  {
    var paths := TriedPaths(r, now.date, StartSequence(r, listing));
    FirstOpenableShape(r, limit, listing, canOpen, paths);
  }

  /** The sequence starts from the newest matching file's, whatever its date. */
  lemma StartFromNewest(r: Roller, listing: seq<string>, f: LogFile)
    requires f in Matches(r, listing)
    ensures exists g :: g in Matches(r, listing) && StartSequence(r, listing) == g.sequence && !Newer(f, g)
  {
    var files := Matches(r, listing);
    SortedHeadNewest(files, f);
    SortFilesSorts(files);
    assert SortFiles(files)[0] in multiset(files);
  }
}
