/**
 * TemplatedPathRoller: rolled log file names of the form
 * prefix + yyyyMMdd + optional "_NNN" + suffix, built from a path template
 * such as "Logs/log-{Date}.txt", and recognised again in a directory listing.
 * Dates are proleptic Gregorian (year, month, day) triples; paths use '/'.
 */
module Roller {
  import opened Wrappers
  import opened Chars

  // ------------------------------------------------------------ dates

  datatype Date = Date(year: int, month: int, day: int)

  predicate IsLeap(y: int) {
    y % 4 == 0 && (y % 100 != 0 || y % 400 == 0)
  }

  function MonthLength(y: int, m: int): int {
    if m == 2 then (if IsLeap(y) then 29 else 28)
    else if m == 4 || m == 6 || m == 9 || m == 11 then 30
    else 31
  }

  /** A LocalDate. */
  predicate ValidDate(d: Date) {
    1 <= d.month <= 12 && 1 <= d.day <= MonthLength(d.year, d.month)
  }

  /** LocalDate.compareTo < 0: year, then month, then day. */
  predicate DateBefore(a: Date, b: Date) {
    a.year < b.year || (a.year == b.year && (a.month < b.month || (a.month == b.month && a.day < b.day)))
  }

  /** plusDays(1). */
  function NextDay(d: Date): (r: Date)
    requires ValidDate(d)
    ensures ValidDate(r) && DateBefore(d, r)
  {
    if d.day < MonthLength(d.year, d.month) then Date(d.year, d.month, d.day + 1)
    else if d.month < 12 then Date(d.year, d.month + 1, 1)
    else Date(d.year + 1, 1, 1)
  }

  /** A run of exactly w digits for n < 10^w, most significant first. */
  function FixedDigits(n: nat, w: nat): (r: string)
    ensures |r| == w && AllDigits(r)
  {
    if w == 0 then "" else FixedDigits(n / 10, w - 1) + [DigitChar(n % 10)]
  }

  function Pow10(w: nat): (r: nat)
    ensures r >= 1
  {
    if w == 0 then 1 else 10 * Pow10(w - 1)
  }

  /** Fixed-width digits read back give the number, when it fits. */
  lemma {:induction false} FixedDigitsValue(n: nat, w: nat)
    requires n < Pow10(w)
    ensures DigitsValue(FixedDigits(n, w)) == n
  {
    if w > 0 {
      FixedDigitsValue(n / 10, w - 1);
      var r := FixedDigits(n, w);
      assert r[..|r| - 1] == FixedDigits(n / 10, w - 1);
    }
  }

  /**
   * The "yyyy" field: the year of era (1 - year for years before 1), at
   * least four digits, with a '+' when it needs more.
   */
  function FormatYear(y: int): (r: string)
    ensures 1 <= y <= 9999 ==> r == FixedDigits(y, 4)
  {
    var yoe: nat := if y >= 1 then y else 1 - y;
    if yoe < 10000 then FixedDigits(yoe, 4) else "+" + NatToString(yoe)
  }

  /** DateTimeFormatter.ofPattern("yyyyMMdd").format. */
  function FormatDate(d: Date): string
    requires ValidDate(d)
  {
    FormatYear(d.year) + FixedDigits(d.month, 2) + FixedDigits(d.day, 2)
  }

  /**
   * LocalDate.parse of eight digits with "yyyyMMdd" and the default SMART
   * resolver: year of era 1 or more, month 1 to 12 and day 1 to 31 are
   * required; a day past the end of its month is moved to the month's last day.
   */
  function ParseDate(s: string): (r: Option<Date>)
    requires |s| == 8 && AllDigits(s)
    ensures r.Some? ==> ValidDate(r.value)
  {
    var y := DigitsValue(s[..4]);
    var m := DigitsValue(s[4..6]);
    var d := DigitsValue(s[6..]);
    if y < 1 || m < 1 || m > 12 || d < 1 || d > 31 then None
    else Some(Date(y, m, if d > MonthLength(y, m) then MonthLength(y, m) else d))
  }

  /** Formatting a date with a four-digit year and parsing it back gives the date. */
  lemma DateRoundTrip(d: Date)
    requires ValidDate(d) && 1 <= d.year <= 9999
    ensures |FormatDate(d)| == 8 && AllDigits(FormatDate(d))
    ensures ParseDate(FormatDate(d)) == Some(d)
  {
    var s := FormatDate(d);
    assert s[..4] == FixedDigits(d.year, 4);
    assert s[4..6] == FixedDigits(d.month, 2);
    assert s[6..] == FixedDigits(d.day, 2);
    assert Pow10(2) == 100;
    assert Pow10(4) == 10000;
    FixedDigitsValue(d.year, 4);
    FixedDigitsValue(d.month, 2);
    FixedDigitsValue(d.day, 2);
  }

  // ------------------------------------------------------------ the roller

  const DateSpecifier := "{date}"
  const OldStyleDateSpecifier := "{0}"

  datatype Roller = Roller(directory: string, prefix: string, suffix: string)

  /** A matched file: its name, its date and its sequence number. */
  datatype LogFile = LogFile(filename: string, date: Date, sequence: int)

  /**
   * The path java.io.File keeps: each run of '/' collapsed to one, and a
   * trailing '/' dropped unless the path is the root "/".
   */
  function Normalize(path: string): (r: string)
    ensures |r| <= |path|
  {
    var c := CollapseSlashes(path);
    if |c| > 1 && c[|c| - 1] == '/' then c[..|c| - 1] else c
  }

  /** The path with every '/' that another '/' follows removed. */
  function CollapseSlashes(path: string): (r: string)
    ensures |r| <= |path|
    ensures |path| > 0 ==> |r| > 0 && r[0] == path[0] && r[|r| - 1] == path[|path| - 1]
    ensures forall i :: 0 <= i < |r| - 1 ==> !(r[i] == '/' && r[i + 1] == '/')
  {
    if |path| <= 1 then path
    else if path[0] == '/' && path[1] == '/' then CollapseSlashes(path[1..])
    else [path[0]] + CollapseSlashes(path[1..])
  }

  /** A path in the form java.io.File keeps: no doubled '/' and no trailing '/' but the root. */
  predicate Normal(path: string) {
    (forall i :: 0 <= i < |path| - 1 ==> !(path[i] == '/' && path[i + 1] == '/'))
    && (|path| > 1 ==> path[|path| - 1] != '/')
  }

  /** Normalising gives a normal path, leaves a normal path alone, and so is idempotent. */
  lemma NormalizeNormal(path: string)
    ensures Normal(Normalize(path))
    ensures Normal(path) ==> Normalize(path) == path
    ensures Normalize(Normalize(path)) == Normalize(path)
  {
    var c := CollapseSlashes(path);
    if |c| > 1 && c[|c| - 1] == '/' {
      assert c[|c| - 2] != '/';
    }
    if Normal(path) {
      CollapseNormal(path);
    }
    NormalCollapse(Normalize(path));
  }

  /** A path without a doubled '/' has nothing to collapse. */
  lemma {:induction false} CollapseNormal(path: string)
    requires forall i :: 0 <= i < |path| - 1 ==> !(path[i] == '/' && path[i + 1] == '/')
    ensures CollapseSlashes(path) == path
  {
    if |path| > 1 {
      CollapseNormal(path[1..]);
      assert [path[0]] + path[1..] == path;
    }
  }

  /** A normal path normalises to itself. */
  lemma NormalCollapse(path: string)
    requires Normal(path)
    ensures Normalize(path) == path
  {
    CollapseNormal(path);
  }

  /** File.getParent of a normalised path: the part before the last '/', "/" for a file in the root, none without a '/' or for the root itself. */
  function Parent(path: string): Option<string> {
    var i := LastIndexOf(path, '/');
    if i < 0 then None
    else if i == 0 then (if |path| > 1 then Some("/") else None)
    else Some(path[..i])
  }

  /** File.getName of a normalised path: the part after the last '/'. */
  function FileName(path: string): string {
    path[LastIndexOf(path, '/') + 1..]
  }

  /** A file name without "{date}" (in any case) gets "-{date}" before its last '.', or at its end. */
  function WithDate(name: string): string {
    if Contains(Lower(name), DateSpecifier) then name
    else
      var dot := LastIndexOf(name, '.');
      if dot >= 0 then name[..dot] + "-" + DateSpecifier + name[dot..] else name + "-" + DateSpecifier
  }

  /**
   * The constructor: rejects "{0}"; takes the directory of the normalised
   * template, or the working directory, through `canonical` (getCanonicalPath,
   * None when it throws an IOException) and rejects a failure or a canonical
   * directory holding "{date}"; then rejects an empty file name. The prefix
   * and suffix are the text around the first "{date}".
   */
  function NewRoller(template: string, workingDirectory: string, canonical: string -> Option<string>): (r: Outcome<Roller>)
    ensures r.Thrown? ==> r.failure == IllegalArgument("pathTemplate")
    ensures r.Ok? <==>
      !Contains(template, OldStyleDateSpecifier)
      && canonical(Directory(Normalize(template), workingDirectory)).Some?
      && !Contains(Lower(canonical(Directory(Normalize(template), workingDirectory)).value), DateSpecifier)
      && FileName(Normalize(template)) != ""
    ensures r.Ok? ==>
      r.value.directory == canonical(Directory(Normalize(template), workingDirectory)).value
      && exists tag :: Lower(tag) == DateSpecifier && r.value.prefix + tag + r.value.suffix == WithDate(FileName(Normalize(template)))
    ensures r.Ok? ==> !Contains(Lower(r.value.prefix), DateSpecifier)
  {
    if Contains(template, OldStyleDateSpecifier) then Thrown(IllegalArgument("pathTemplate"))
    else
      var file := Normalize(template);
      var directory := canonical(Directory(file, workingDirectory));
      if directory.None? || Contains(Lower(directory.value), DateSpecifier) then Thrown(IllegalArgument("pathTemplate"))
      else if FileName(file) == "" then Thrown(IllegalArgument("pathTemplate"))
      else
        var name := WithDate(FileName(file));
        var i := Find(Lower(name), DateSpecifier);
        WithDateHasTag(FileName(file));
        TagSplit(name, i);
        Ok(Roller(directory.value, name[..i], name[i + 6..]))
  }

  /** The directory part of the template, or the working directory. */
  function Directory(file: string, workingDirectory: string): string {
    var parent := Parent(file);
    if parent.None? || parent.value == "" then workingDirectory else parent.value
  }

  /**
   * A template ending in '/' names a file after its last segment: "logs/"
   * rolls files "logs-<date>" in the canonical working directory.
   */
  lemma TrailingSlashTemplate(workingDirectory: string, canonical: string -> Option<string>)
    requires canonical(workingDirectory).Some?
    requires !Contains(Lower(canonical(workingDirectory).value), DateSpecifier)
    ensures NewRoller("logs/", workingDirectory, canonical) == Ok(Roller(canonical(workingDirectory).value, "logs-", ""))
  {
    NoBraceNoTag("logs/", OldStyleDateSpecifier);
    NormalizeLogs();
    LogsParts(workingDirectory);
    LogsWithDate();
  }

  /** A text without '{' holds nothing that starts with '{'. */
  lemma NoBraceNoTag(s: string, sub: string)
    requires '{' !in s && |sub| > 0 && sub[0] == '{'
    ensures !Contains(s, sub)
  {
    forall k | 0 <= k <= |s|
      ensures !OccursAt(s, sub, k)
    {
      if k + |sub| <= |s| {
        assert s[k..k + |sub|][0] == s[k] != sub[0];
      }
    }
  }

  lemma NormalizeLogs()
    ensures Normalize("logs/") == "logs"
  {
    assert CollapseSlashes("s/") == "s/";
    assert CollapseSlashes("gs/") == "gs/";
    assert CollapseSlashes("ogs/") == "ogs/";
    assert CollapseSlashes("logs/") == "logs/";
  }

  lemma LogsParts(workingDirectory: string)
    ensures Directory("logs", workingDirectory) == workingDirectory
    ensures FileName("logs") == "logs"
  {
    assert LastIndexOf("logs", '/') == -1;
  }

  lemma LogsWithDate()
    ensures WithDate("logs") == "logs-{date}"
    ensures Find(Lower("logs-{date}"), DateSpecifier) == 5
    ensures "logs-{date}"[..5] == "logs-" && "logs-{date}"[11..] == ""
  {
    var l := Lower("logs");
    assert l == "logs";
    assert !Contains(l, DateSpecifier);
    assert LastIndexOf("logs", '.') == -1;
    var s := Lower("logs-{date}");
    assert s == "logs-{date}";
    assert OccursAt(s, DateSpecifier, 5) by {
      assert s[5..11] == DateSpecifier;
    }
    forall k | 0 <= k < 5
      ensures !OccursAt(s, DateSpecifier, k)
    {
      assert s[k..k + 6][0] == s[k] != '{';
    }
  }

  lemma WithDateHasTag(name: string)
    ensures Contains(Lower(WithDate(name)), DateSpecifier)
  {
    if !Contains(Lower(name), DateSpecifier) {
      var dot := LastIndexOf(name, '.');
      var w := WithDate(name);
      var at;
      if dot >= 0 {
        at := dot + 1;
        assert w == (name[..dot] + "-") + DateSpecifier + name[dot..];
      } else {
        at := |name| + 1;
        assert w == (name + "-") + DateSpecifier;
      }
      assert w[at..at + 6] == DateSpecifier;
      LowerSlice(w, at, at + 6);
      LowerTag();
      assert OccursAt(Lower(w), DateSpecifier, at);
    }
  }

  lemma LowerSlice(s: string, i: int, j: int)
    requires 0 <= i <= j <= |s|
    ensures Lower(s)[i..j] == Lower(s[i..j])
  {
  }

  lemma LowerTag()
    ensures Lower(DateSpecifier) == DateSpecifier
  {
    var l := Lower(DateSpecifier);
    assert l[0] == '{' && l[1] == 'd' && l[2] == 'a' && l[3] == 't' && l[4] == 'e' && l[5] == '}';
  }

  /** The first "{date}", in any case, splits the name into a prefix free of it, the tag and the rest. */
  lemma TagSplit(name: string, i: int)
    requires i == Find(Lower(name), DateSpecifier) && i >= 0
    ensures i + 6 <= |name| && Lower(name[i..i + 6]) == DateSpecifier
    ensures name[..i] + name[i..i + 6] + name[i + 6..] == name
    ensures !Contains(Lower(name[..i]), DateSpecifier)
  {
    assert Lower(name[i..i + 6]) == Lower(name)[i..i + 6];
    PrefixHasNoTag(name, i);
  }

  lemma PrefixHasNoTag(name: string, i: int)
    requires i == Find(Lower(name), DateSpecifier) && i >= 0
    ensures !Contains(Lower(name[..i]), DateSpecifier)
  {
    if Contains(Lower(name[..i]), DateSpecifier) {
      var k := Find(Lower(name[..i]), DateSpecifier);
      assert Lower(name[..i])[k..k + 6] == Lower(name)[k..k + 6];
      assert OccursAt(Lower(name), DateSpecifier, k);
      assert false;
    }
  }

  /**
   * A template file name with no "{date}" and an extension gets the date
   * just before the extension, after a '-'.
   */
  lemma DateInsertedBeforeExtension(name: string)
    requires !Contains(Lower(name), DateSpecifier)
    requires LastIndexOf(name, '.') >= 0
    ensures WithDate(name) == name[..LastIndexOf(name, '.')] + "-{date}" + name[LastIndexOf(name, '.')..]
  {
    var dot := LastIndexOf(name, '.');
    WithDateUntagged(name, dot);
    DateSpelledOut(name[..dot], name[dot..]);
  }

  /** "-" then DateSpecifier is "-{date}". */
  lemma DateSpelledOut(a: string, b: string)
    ensures a + "-" + DateSpecifier + b == a + "-{date}" + b
  {
    assert "-" + DateSpecifier == "-{date}";
    assert a + "-" + DateSpecifier == a + ("-" + DateSpecifier);
  }

  /** Without "{date}", WithDate inserts "-{date}" before the '.' at `dot`. */
  lemma WithDateUntagged(name: string, dot: int)
    requires !Contains(Lower(name), DateSpecifier)
    requires dot == LastIndexOf(name, '.') && dot >= 0
    ensures WithDate(name) == name[..dot] + "-" + DateSpecifier + name[dot..]
  {
  }

  /** String.format("%03d", n): at least three digits, zero padded after any sign. */
  function Pad3(n: int): string {
    if n >= 0 then (if n < 1000 then FixedDigits(n, 3) else NatToString(n))
    else if -n < 100 then "-" + FixedDigits(-n, 2) else "-" + NatToString(-n)
  }

  /** The file-name part of getLogFilePath. */
  function LogFileName(r: Roller, d: Date, sequence: int): string
    requires ValidDate(d)
  {
    r.prefix + FormatDate(d) + (if sequence != 0 then "_" + Pad3(sequence) else "") + r.suffix
  }

  /** Paths.get(directory, name).toString(). */
  function Join(directory: string, name: string): string {
    if directory != [] && directory[|directory| - 1] == '/' then directory + name else directory + "/" + name
  }

  /** getLogFilePath: the directory joined with prefix + yyyyMMdd + "_NNN" (only for a non-zero sequence) + suffix. */
  function LogFilePath(r: Roller, d: Date, sequence: int): (p: string)
    requires ValidDate(d)
  {
    Join(r.directory, LogFileName(r, d, sequence))
  }

  /** File.getName of a joined path is the name, when the name has no separator. */
  lemma JoinFileName(directory: string, name: string)
    requires forall k :: 0 <= k < |name| ==> name[k] != '/'
    ensures FileName(Join(directory, name)) == name
  {
    var p := Join(directory, name);
    var j := |p| - |name| - 1;
    assert p[j] == '/';
    assert p[j + 1..] == name;
    assert forall k :: j < k < |p| ==> p[k] == name[k - j - 1];
  }

  /**
   * The middle of a name between the prefix and the suffix, when the name
   * has room for both and eight digits: the regular expression is anchored
   * on both literal ends, so the middle is fixed by the name's length.
   */
  function Middle(r: Roller, name: string): Option<string> {
    if |name| >= |r.prefix| + 8 + |r.suffix|
       && name[..|r.prefix|] == r.prefix && name[|name| - |r.suffix|..] == r.suffix
    then Some(name[|r.prefix|..|name| - |r.suffix|])
    else None
  }

  /** One name against ^prefix(\d{8})(_[0-9]{3,})?suffix$, then the date and the sequence parsed. */
  function MatchName(r: Roller, name: string): (m: Option<LogFile>)
    ensures m.Some? ==> m.value.filename == name && ValidDate(m.value.date) && m.value.sequence >= 0
  {
    match Middle(r, name)
    case None => None
    case Some(mid) =>
      var rest := mid[8..];
      if !AllDigits(mid[..8]) then None
      else if rest != [] && !(|rest| >= 4 && rest[0] == '_' && AllDigits(rest[1..])) then None
      else
        var sequence := if rest == [] then 0 else match ParseInt32(rest[1..]) case Some(v) => v case None => 0;
        match ParseDate(mid[..8])
        case None => None
        case Some(d) => Some(LogFile(name, d, sequence))
  }

  /** getMatches: the names that match, in input order. */
  function Matches(r: Roller, names: seq<string>): (ms: seq<LogFile>)
    ensures |ms| <= |names|
  {
    if names == [] then []
    else
      var rest := Matches(r, names[1..]);
      match MatchName(r, names[0]) case Some(f) => [f] + rest case None => rest
  }

  /** getMatches, with its loop. */
  method GetMatches(r: Roller, names: seq<string>) returns (result: seq<LogFile>)
    ensures result == Matches(r, names)
  {
    result := [];
    for i := 0 to |names|
      invariant result + Matches(r, names[i..]) == Matches(r, names)
    {
      assert names[i..][1..] == names[i + 1..];
      var m := MatchName(r, names[i]);
      if m.Some? {
        result := result + [m.value];
      }
    }
    assert names[|names|..] == [];
  }

  /** Matching distributes over concatenated listings, so the result keeps the input order. */
  lemma {:induction false} MatchesAppend(r: Roller, a: seq<string>, b: seq<string>)
    ensures Matches(r, a + b) == Matches(r, a) + Matches(r, b)
  {
    if a != [] {
      MatchesAppend(r, a[1..], b);
      assert a + b == [a[0]] + (a[1..] + b);
      assert a == [a[0]] + a[1..];
      MatchesCons(r, a[0], a[1..] + b);
      MatchesCons(r, a[0], a[1..]);
      var h := Matches(r, [a[0]]);
      assert h + (Matches(r, a[1..]) + Matches(r, b)) == (h + Matches(r, a[1..])) + Matches(r, b);
    } else {
      assert a + b == b;
    }
  }

  /** The matches of a name followed by more names are its own match, if any, then theirs. */
  lemma MatchesCons(r: Roller, x: string, xs: seq<string>)
    ensures Matches(r, [x] + xs) == Matches(r, [x]) + Matches(r, xs)
  {
    assert ([x] + xs)[0] == x && ([x] + xs)[1..] == xs;
    assert [x][1..] == [];
  }

  /** Every match comes from a name in the listing that matches, and every matching name is kept. */
  lemma {:induction false} MatchesExactly(r: Roller, names: seq<string>, f: LogFile)
    ensures f in Matches(r, names) <==> exists i :: 0 <= i < |names| && MatchName(r, names[i]) == Some(f)
  {
    if names != [] {
      MatchesExactly(r, names[1..], f);
      if exists i :: 0 <= i < |names| && MatchName(r, names[i]) == Some(f) {
        var i :| 0 <= i < |names| && MatchName(r, names[i]) == Some(f);
        if i > 0 {
          assert names[1..][i - 1] == names[i];
        }
      }
      if f in Matches(r, names[1..]) {
        var i :| 0 <= i < |names[1..]| && MatchName(r, names[1..][i]) == Some(f);
        assert names[i + 1] == names[1..][i];
      }
    }
  }

  lemma {:induction false} NatToStringLong(n: nat)
    requires n >= 100
    ensures |NatToString(n)| >= 3
  {
    var q := n / 10;
    assert q >= 10;
    assert |NatToString(q)| >= 2 by {
      assert NatToString(q) == NatToString(q / 10) + [DigitChar(q % 10)];
    }
    assert NatToString(n) == NatToString(q) + [DigitChar(n % 10)];
  }

  /** The middle of prefix + x + suffix is x. */
  lemma MiddleOf(r: Roller, x: string)
    requires |x| >= 8
    ensures Middle(r, r.prefix + x + r.suffix) == Some(x)
  {
    var name := r.prefix + x + r.suffix;
    assert name[..|r.prefix|] == r.prefix;
    assert name[|name| - |r.suffix|..] == r.suffix;
    assert name[|r.prefix|..|name| - |r.suffix|] == x;
  }

  /** The "_NNN" part of a positive sequence is an underscore and at least three digits that parse back. */
  lemma SequencePartParses(sequence: int)
    requires 0 < sequence <= IntMax
    ensures var inc := "_" + Pad3(sequence);
      |inc| >= 4 && inc[0] == '_' && AllDigits(inc[1..]) && ParseInt32(inc[1..]) == Some(sequence)
  {
    var inc := "_" + Pad3(sequence);
    assert inc[1..] == Pad3(sequence);
    if sequence < 1000 {
      assert Pow10(3) == 1000;
      FixedDigitsValue(sequence, 3);
    } else {
      NatToStringLong(sequence);
    }
  }

  /**
   * The round trip: the file name getLogFilePath builds for a date with a
   * four-digit year and a non-negative sequence matches, giving back that
   * date and that sequence.
   */
  lemma RoundTrip(r: Roller, d: Date, sequence: int)
    requires ValidDate(d) && 1 <= d.year <= 9999
    requires 0 <= sequence <= IntMax
    ensures MatchName(r, LogFileName(r, d, sequence)) == Some(LogFile(LogFileName(r, d, sequence), d, sequence))
  {
    var inc := if sequence != 0 then "_" + Pad3(sequence) else "";
    var date := FormatDate(d);
    DateRoundTrip(d);
    var mid := date + inc;
    assert LogFileName(r, d, sequence) == r.prefix + mid + r.suffix;
    MiddleOf(r, mid);
    assert mid[..8] == date && mid[8..] == inc;
    if sequence != 0 {
      SequencePartParses(sequence);
    }
  }
}
