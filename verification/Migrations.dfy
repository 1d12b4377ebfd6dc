/** The migration runner: loading numbered SQL files, and applying them once each under interruption. */
module Migrations {

  import opened Wrappers

  const MAX_VERSION: int := 0x7FFF_FFFF_FFFF_FFFF

  datatype File = File(name: string, isDir: bool, content: string)

  datatype Migration = Migration(version: int, name: string, path: string, sql: string, checksum: string)

  // ---- File names ----

  predicate Digit(c: char) {
    '0' <= c <= '9'
  }

  predicate TitleChar(c: char) {
    'a' <= c <= 'z' || 'A' <= c <= 'Z' || Digit(c) || c == '_' || c == '-'
  }

  predicate Digits(s: string) {
    s != "" && forall c | c in s :: Digit(c)
  }

  predicate Title(s: string) {
    s != "" && forall c | c in s :: TitleChar(c)
  }

  function Value(digits: string): int
    requires forall c | c in digits :: Digit(c)
  {
    if digits == "" then 0
    else 10 * Value(digits[..|digits| - 1]) + (digits[|digits| - 1] as int - '0' as int)
  }

  /** The decimal numeral of a number, without leading zeros. */
  function Decimal(n: nat): (s: string)
    ensures Digits(s)
  {
    var last := ('0' as int + n % 10) as char;
    if n < 10 then [last] else Decimal(n / 10) + [last]
  }

  /** Reading a number's numeral gives the number. */
  lemma {:induction false} ValueOfDecimal(n: nat)
    ensures Value(Decimal(n)) == n
  {
    var s := Decimal(n);
    if n >= 10 {
      ValueOfDecimal(n / 10);
      assert s[..|s| - 1] == Decimal(n / 10);
    } else {
      assert s[..|s| - 1] == "";
    }
  }

  /** Leading zeros do not change a version. */
  lemma {:induction false} LeadingZeroChangesNothing(s: string)
    requires forall c | c in s :: Digit(c)
    ensures Value("0" + s) == Value(s)
  {
    var padded := "0" + s;
    if s == "" {
      assert padded[..0] == "" && padded[0] == '0';
    } else {
      LeadingZeroChangesNothing(s[..|s| - 1]);
      assert padded[..|padded| - 1] == "0" + s[..|s| - 1];
    }
  }

  /** The first digit in which two groups of one length differ is the smaller in the first. */
  ghost predicate DigitsBefore(a: string, b: string) {
    |a| == |b| && exists i | 0 <= i < |a| :: a[..i] == b[..i] && a[i] < b[i]
  }

  lemma {:induction false} DigitsBeforeMeansLess(a: string, b: string)
    requires (forall c | c in a :: Digit(c)) && (forall c | c in b :: Digit(c)) && DigitsBefore(a, b)
    ensures Value(a) < Value(b)
    decreases |a|
  {
    var i :| 0 <= i < |a| && a[..i] == b[..i] && a[i] < b[i];
    var n := |a| - 1;
    assert a[n] in a && b[n] in b;
    if i == n {
      assert a[..n] == b[..n];
    } else {
      assert a[..n][..i] == a[..i] && b[..n][..i] == b[..i];
      assert DigitsBefore(a[..n], b[..n]);
      DigitsBeforeMeansLess(a[..n], b[..n]);
    }
  }

  lemma {:induction false} DigitsAreComparable(a: string, b: string)
    requires |a| == |b|
    ensures a == b || DigitsBefore(a, b) || DigitsBefore(b, a)
    decreases |a|
  {
    if a != b {
      var n := |a| - 1;
      if a[..n] == b[..n] {
        assert a == a[..n] + [a[n]] && b == b[..n] + [b[n]];
        assert a[n] != b[n];
      } else {
        DigitsAreComparable(a[..n], b[..n]);
        var x, y := if DigitsBefore(a[..n], b[..n]) then a else b, if DigitsBefore(a[..n], b[..n]) then b else a;
        var i :| 0 <= i < n && x[..n][..i] == y[..n][..i] && x[..n][i] < y[..n][i];
        assert x[..i] == x[..n][..i] && y[..i] == y[..n][..i];
      }
    }
  }

  /** Numerals of one length are ordered as numbers exactly as they are ordered digit by digit. */
  lemma ValueOrdersDigits(a: string, b: string)
    requires (forall c | c in a :: Digit(c)) && (forall c | c in b :: Digit(c)) && |a| == |b|
    ensures Value(a) < Value(b) <==> DigitsBefore(a, b)
  {
    DigitsAreComparable(a, b);
    if DigitsBefore(a, b) {
      DigitsBeforeMeansLess(a, b);
    }
    if DigitsBefore(b, a) {
      DigitsBeforeMeansLess(b, a);
    }
  }

  function LeadingDigits(s: string): (n: nat)
    ensures n <= |s|
    ensures forall i | 0 <= i < n :: Digit(s[i])
    ensures n < |s| ==> !Digit(s[n])
  {
    if s == "" || !Digit(s[0]) then 0 else 1 + LeadingDigits(s[1..])
  }

  datatype FileName = FileName(digits: string, title: string)

  /** The pattern ^([0-9]+)_([a-zA-Z0-9_-]+)\.sql$ and its two groups. */
  function Match(name: string): (r: Option<FileName>)
    ensures r.Some? ==> Digits(r.value.digits) && Title(r.value.title)
  {
    var n, m := LeadingDigits(name), |name| - 4;
    if 0 < n < m && name[n] == '_' && n + 1 < m && name[m..] == ".sql"
        && (forall c | c in name[n + 1..m] :: TitleChar(c))
    then Some(FileName(name[..n], name[n + 1..m]))
    else None
  }

  lemma {:induction false} LeadingDigitsOf(digits: string, rest: string)
    requires (forall c | c in digits :: Digit(c)) && (rest == "" || !Digit(rest[0]))
    ensures LeadingDigits(digits + rest) == |digits|
  {
    if digits == "" {
      assert digits + rest == rest;
    } else {
      LeadingDigitsOf(digits[1..], rest);
      assert (digits + rest)[1..] == digits[1..] + rest;
    }
  }

  /** The matcher accepts exactly the names of the pattern, and splits them as the pattern does. */
  lemma MatchIsPattern(name: string, digits: string, title: string)
    ensures Match(name) == Some(FileName(digits, title))
            <==> Digits(digits) && Title(title) && name == digits + "_" + title + ".sql"
  {
    if Digits(digits) && Title(title) && name == digits + "_" + title + ".sql" {
      assert name == digits + ("_" + title + ".sql");
      LeadingDigitsOf(digits, "_" + title + ".sql");
      var m := |name| - 4;
      assert name[..|digits|] == digits && name[|digits| + 1..m] == title && name[m..] == ".sql";
    }
    if Match(name) == Some(FileName(digits, title)) {
      var n, m := LeadingDigits(name), |name| - 4;
      assert name == name[..n] + "_" + name[n + 1..m] + name[m..];
    }
  }

  // ---- Load ----

  datatype LoadError = BadVersion(name: string) | DuplicateVersion(version: int, first: string, second: string)

  predicate IsMigration(f: File) {
    !f.isDir && Match(f.name).Some?
  }

  function VersionOf(f: File): int
    requires IsMigration(f)
  {
    Value(Match(f.name).value.digits)
  }

  function FromFile(f: File, dir: string, checksum: string -> string): (m: Migration)
    requires IsMigration(f)
    ensures m.sql == f.content && m.checksum == checksum(f.content) && m.path == dir + "/" + f.name
    ensures Match(f.name) == Some(FileName(Match(f.name).value.digits, m.name))
    ensures m.version == Value(Match(f.name).value.digits)
  {
    Migration(VersionOf(f), Match(f.name).value.title, dir + "/" + f.name, f.content, checksum(f.content))
  }

  ghost predicate Increasing(list: seq<Migration>) {
    forall i, j | 0 <= i < j < |list| :: list[i].version < list[j].version
  }

  /** The list holds the migration of each matching file, and nothing else. */
  ghost predicate Covers(list: seq<Migration>, files: seq<File>, dir: string, checksum: string -> string) {
    && (forall f | f in files && IsMigration(f) :: FromFile(f, dir, checksum) in list)
    && (forall m | m in list :: exists f | f in files :: IsMigration(f) && m == FromFile(f, dir, checksum))
  }

  ghost predicate AllFit(files: seq<File>) {
    forall f | f in files && IsMigration(f) :: VersionOf(f) <= 9_223_372_036_854_775_807
  }

  ghost predicate VersionsDiffer(files: seq<File>) {
    forall i, j | 0 <= i < j < |files| && IsMigration(files[i]) && IsMigration(files[j]) ::
        VersionOf(files[i]) != VersionOf(files[j])
  }

  ghost predicate DistinctVersions(list: seq<Migration>) {
    forall i, j | 0 <= i < j < |list| :: list[i].version != list[j].version
  }

  /** The migrations of the matching files in directory order. */
  function Collected(files: seq<File>, dir: string, checksum: string -> string): seq<Migration> {
    if files == [] then []
    else
      var last := files[|files| - 1];
      Collected(files[..|files| - 1], dir, checksum)
          + (if IsMigration(last) then [FromFile(last, dir, checksum)] else [])
  }

  lemma {:induction false} CollectedCovers(files: seq<File>, dir: string, checksum: string -> string)
    ensures Covers(Collected(files, dir, checksum), files, dir, checksum)
  {
    if files != [] {
      var before, last := files[..|files| - 1], files[|files| - 1];
      CollectedCovers(before, dir, checksum);
      assert files == before + [last];
      forall m | m in Collected(files, dir, checksum)
        ensures exists f | f in files :: IsMigration(f) && m == FromFile(f, dir, checksum)
      {
        if m in Collected(before, dir, checksum) {
          var f :| f in before && IsMigration(f) && m == FromFile(f, dir, checksum);
          assert f in files;
        } else {
          assert last in files;
        }
      }
    }
  }

  function VersionsIn(files: seq<File>): set<int> {
    set f | f in files && IsMigration(f) :: VersionOf(f)
  }

  lemma OneMoreFile(before: seq<File>, f: File)
    ensures VersionsIn(before + [f]) == VersionsIn(before) + (if IsMigration(f) then {VersionOf(f)} else {})
    ensures AllFit(before + [f]) <==> AllFit(before) && (IsMigration(f) ==> VersionOf(f) <= MAX_VERSION)
  {
    assert forall g :: g in before + [f] <==> g in before || g == f;
  }

  lemma DifferWithOneMore(before: seq<File>, f: File)
    ensures VersionsDiffer(before + [f])
            <==> VersionsDiffer(before) && (IsMigration(f) ==> VersionOf(f) !in VersionsIn(before))
  {
    var all := before + [f];
    assert forall k | 0 <= k < |before| :: all[k] == before[k];
    assert all[|before|] == f;
    if IsMigration(f) && VersionOf(f) in VersionsIn(before) {
      var g :| g in before && IsMigration(g) && VersionOf(g) == VersionOf(f);
      var k :| 0 <= k < |before| && before[k] == g;
      assert all[k] == g;
    }
    if IsMigration(f) && VersionOf(f) !in VersionsIn(before) {
      assert forall k | 0 <= k < |before| && IsMigration(before[k]) :: VersionOf(before[k]) in VersionsIn(before);
    }
  }

  lemma {:induction false} CollectedDistinct(files: seq<File>, dir: string, checksum: string -> string)
    requires VersionsDiffer(files)
    ensures DistinctVersions(Collected(files, dir, checksum))
  {
    if files != [] {
      var before, last := files[..|files| - 1], files[|files| - 1];
      assert files == before + [last];
      DifferWithOneMore(before, last);
      CollectedDistinct(before, dir, checksum);
      CollectedCovers(before, dir, checksum);
      forall m | m in Collected(before, dir, checksum) ensures m.version in VersionsIn(before) {
      }
    }
  }

  lemma InsertKeepsOrder(sorted: seq<Migration>, m: Migration, i: nat)
    requires Increasing(sorted) && i <= |sorted|
    requires forall k | 0 <= k < i :: sorted[k].version < m.version
    requires forall k | i <= k < |sorted| :: m.version < sorted[k].version
    ensures Increasing(sorted[..i] + [m] + sorted[i..])
    ensures multiset(sorted[..i] + [m] + sorted[i..]) == multiset(sorted) + multiset{m}
  {
    var r := sorted[..i] + [m] + sorted[i..];
    assert forall k | 0 <= k < |r| :: r[k] == if k < i then sorted[k] else if k == i then m else sorted[k - 1];
    assert sorted == sorted[..i] + sorted[i..];
  }

  method InsertByVersion(sorted: seq<Migration>, m: Migration) returns (r: seq<Migration>)
    requires Increasing(sorted) && forall k | 0 <= k < |sorted| :: sorted[k].version != m.version
    ensures Increasing(r) && multiset(r) == multiset(sorted) + multiset{m}
  {
    var i := 0;
    while i < |sorted| && sorted[i].version < m.version
      invariant 0 <= i <= |sorted|
      invariant forall k | 0 <= k < i :: sorted[k].version < m.version
    {
      i := i + 1;
    }
    InsertKeepsOrder(sorted, m, i);
    r := sorted[..i] + [m] + sorted[i..];
  }

  method SortByVersion(list: seq<Migration>) returns (r: seq<Migration>)
    requires DistinctVersions(list)
    ensures Increasing(r) && multiset(r) == multiset(list)
  {
    r := [];
    for i := 0 to |list|
      invariant Increasing(r) && multiset(r) == multiset(list[..i])
    {
      assert list[..i + 1] == list[..i] + [list[i]];
      forall k | 0 <= k < |r| ensures r[k].version != list[i].version {
        assert r[k] in multiset(r);
        assert r[k] in list[..i];
      }
      r := InsertByVersion(r, list[i]);
    }
    assert list[..|list|] == list;
  }

  ghost predicate Loadable(files: seq<File>) {
    AllFit(files) && VersionsDiffer(files)
  }

  /** A file that is to blame for the error, or the two files that share the version. */
  ghost predicate Blames(e: LoadError, files: seq<File>) {
    match e
    case BadVersion(name) =>
      exists f | f in files :: IsMigration(f) && f.name == name && VersionOf(f) > MAX_VERSION
    case DuplicateVersion(version, first, second) =>
      exists i, j | 0 <= i < j < |files| ::
        Holds(files[i], version, first) && Holds(files[j], version, second)
  }

  predicate Holds(f: File, version: int, name: string) {
    IsMigration(f) && VersionOf(f) == version && f.name == name
  }

  predicate Admits(f: File, versions: set<int>) {
    IsMigration(f) ==> VersionOf(f) <= MAX_VERSION && VersionOf(f) !in versions
  }

  lemma PrefixesLoad(files: seq<File>, i: nat)
    requires i < |files|
    ensures Loadable(files) ==> Loadable(files[..i + 1])
    ensures Loadable(files[..i + 1]) <==> Loadable(files[..i]) && Admits(files[i], VersionsIn(files[..i]))
    ensures VersionsIn(files[..i + 1])
        == VersionsIn(files[..i]) + (if IsMigration(files[i]) then {VersionOf(files[i])} else {})
  {
    assert files[..i + 1] == files[..i] + [files[i]];
    OneMoreFile(files[..i], files[i]);
    DifferWithOneMore(files[..i], files[i]);
    assert forall f | f in files[..i + 1] :: f in files;
  }

  lemma CollectedStep(files: seq<File>, i: nat, dir: string, checksum: string -> string)
    requires i < |files|
    ensures Collected(files[..i + 1], dir, checksum)
            == Collected(files[..i], dir, checksum)
                + (if IsMigration(files[i]) then [FromFile(files[i], dir, checksum)] else [])
  {
    assert files[..i + 1][..i] == files[..i];
  }

  /** The scan of the directory, which stops at the first version that does not fit or is taken. */
  method Collect(files: seq<File>, dir: string, checksum: string -> string)
      returns (r: Result<seq<Migration>, LoadError>)
    ensures r.Success? <==> Loadable(files)
    ensures r.Success? ==> r.value == Collected(files, dir, checksum)
    ensures r.Failure? ==> Blames(r.error, files)
  {
    var result: seq<Migration> := [];
    var seen: map<int, string> := map[];
    for i := 0 to |files|
      invariant Loadable(files[..i])
      invariant result == Collected(files[..i], dir, checksum)
      invariant seen.Keys == VersionsIn(files[..i])
      invariant forall v | v in seen :: exists k | 0 <= k < i :: Holds(files[k], v, seen[v])
    {
      var f := files[i];
      PrefixesLoad(files, i);
      CollectedStep(files, i, dir, checksum);
      var groups := Match(f.name);
      if !f.isDir && groups.Some? {
        var version := Value(groups.value.digits);
        if version > MAX_VERSION {
          return Failure(BadVersion(f.name));
        }
        if version in seen {
          assert Holds(f, version, f.name);
          return Failure(DuplicateVersion(version, seen[version], f.name));
        }
        assert Holds(files[i], version, f.name);
        seen := seen[version := f.name];
        result := result + [Migration(version, groups.value.title, dir + "/" + f.name, f.content, checksum(f.content))];
      }
    }
    assert files[..|files|] == files;
    return Success(result);
  }

  /** Files whose version groups have one length come in the order of the digits of their names. */
  ghost predicate InDigitOrder(list: seq<Migration>, dir: string, checksum: string -> string) {
    forall f, g, i, j |
      && 0 <= i < |list| && InPlace(list, i, f, dir, checksum)
      && 0 <= j < |list| && InPlace(list, j, g, dir, checksum) ::
      DigitsBefore(Match(f.name).value.digits, Match(g.name).value.digits) ==> i < j
  }

  ghost predicate InPlace(list: seq<Migration>, i: int, f: File, dir: string, checksum: string -> string)
    requires 0 <= i < |list|
  {
    IsMigration(f) && list[i] == FromFile(f, dir, checksum)
  }

  lemma IncreasingIsInDigitOrder(list: seq<Migration>, dir: string, checksum: string -> string)
    requires Increasing(list)
    ensures InDigitOrder(list, dir, checksum)
  {
    forall f, g, i, j |
      && 0 <= i < |list| && InPlace(list, i, f, dir, checksum)
      && 0 <= j < |list| && InPlace(list, j, g, dir, checksum)
      && DigitsBefore(Match(f.name).value.digits, Match(g.name).value.digits)
      ensures i < j
    {
      DigitsBeforeMeansLess(Match(f.name).value.digits, Match(g.name).value.digits);
    }
  }

  /** Fails exactly when a version does not fit 64 bits or two files share one. */
  method Load(files: seq<File>, dir: string, checksum: string -> string) returns (r: Result<seq<Migration>, LoadError>)
    ensures r.Success? <==> Loadable(files)
    ensures r.Success? ==> Increasing(r.value) && Covers(r.value, files, dir, checksum)
    ensures r.Success? ==> |r.value| == |Collected(files, dir, checksum)|
    ensures r.Success? ==> InDigitOrder(r.value, dir, checksum)
    ensures r.Failure? ==> Blames(r.error, files)
  {
    r := Collect(files, dir, checksum);
    if r.Success? {
      CollectedDistinct(files, dir, checksum);
      CollectedCovers(files, dir, checksum);
      var sorted := SortByVersion(r.value);
      SameElements(sorted, r.value);
      IncreasingIsInDigitOrder(sorted, dir, checksum);
      r := Success(sorted);
    }
  }

  lemma SameElements(a: seq<Migration>, b: seq<Migration>)
    requires multiset(a) == multiset(b)
    ensures |a| == |b| && forall m :: m in a <==> m in b
  {
    assert |multiset(a)| == |multiset(b)|;
    forall m ensures m in a <==> m in b {
      assert m in multiset(a) <==> m in multiset(b);
    }
  }
}
