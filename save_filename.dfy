/**
 * create_save_filename: the data files of a measurement go into a
 * `database/YYYY/MM/DD` folder tree and are called
 * `YYYYMMDD_<name>_NNNN.txt`, where NNNN is the first increment whose file
 * does not exist yet. The clock is a fixed `Date` and the file system an
 * abstract set of existing paths.
 */
module SaveFilename {
  import opened Text

  datatype Date = Date(year: nat, month: nat, day: nat)

  /** POSIX `os.path.join(a, b)`: an absolute `b` replaces `a`, otherwise one '/' separates them. */
  function PathJoin(a: string, b: string): string
  {
    if |b| > 0 && b[0] == '/' then b
    else if a == "" || a[|a| - 1] == '/' then a + b
    else a + "/" + b
  }

  /** `os.path.join(database_folder, year)`, which `os.makedirs` creates along with the month folder. */
  function YearFolder(db: string, d: Date): string
  {
    PathJoin(db, NatToString(d.year))
  }

  /** `os.path.join(database_folder, year, month)`. */
  function MonthFolder(db: string, d: Date): string
  {
    PathJoin(YearFolder(db, d), ZeroPad(d.month, 2))
  }

  /** The folders of a date's branch of the tree: year, month and day. */
  function DateFolders(db: string, d: Date): set<string>
  {
    {YearFolder(db, d), MonthFolder(db, d), DayFolder(db, d)}
  }

  /** `os.path.join(month_folder, day)`. */
  function DayFolder(db: string, d: Date): string
  {
    PathJoin(MonthFolder(db, d), ZeroPad(d.day, 2))
  }

  /** `strftime("%Y%m%d")`. */
  function Stamp(d: Date): string
  {
    ZeroPad(d.year, 4) + ZeroPad(d.month, 2) + ZeroPad(d.day, 2)
  }

  /** The candidate name: stamp, `_`, filename, `_`, the counter zero padded to four digits, `.txt`. */
  function Candidate(d: Date, filename: string, k: nat): string
  {
    Stamp(d) + "_" + filename + "_" + ZeroPad(k, 4) + ".txt"
  }

  /** The characters `file_name[-8:-4]` the loop reads the last increment back from. */
  function IncrementField(name: string): string
    requires |name| >= 8
  {
    name[|name| - 8..|name| - 4]
  }

  /** Whether the file of increment `k` already exists in `folder`. */
  predicate Taken(paths: set<string>, folder: string, d: Date, filename: string, k: nat)
  {
    PathJoin(folder, Candidate(d, filename, k)) in paths
  }

  predicate FreeIncrementExists(paths: set<string>, folder: string, d: Date, filename: string)
  {
    exists k :: 1 <= k <= 10000 && !Taken(paths, folder, d, filename, k)
  }

  /**
   * The first increment from `k` on, up to 10000, whose file does not exist;
   * 10001 when all of them exist.
   */
  function FirstFreeFrom(paths: set<string>, folder: string, d: Date, filename: string, k: nat): (r: nat)
    requires 1 <= k <= 10001
    ensures k <= r <= 10001
    ensures r <= 10000 ==> !Taken(paths, folder, d, filename, r)
    ensures forall j :: k <= j < r ==> Taken(paths, folder, d, filename, j)
    decreases 10001 - k
  {
    if k == 10001 then 10001
    else if !Taken(paths, folder, d, filename, k) then k
    else FirstFreeFrom(paths, folder, d, filename, k + 1)
  }

  /** When some increment up to 10000 is free, the first free one is among them. */
  lemma FirstFreeExists(paths: set<string>, folder: string, d: Date, filename: string)
    requires FreeIncrementExists(paths, folder, d, filename)
    ensures 1 <= FirstFreeFrom(paths, folder, d, filename, 1) <= 10000
  {
    var k :| 1 <= k <= 10000 && !Taken(paths, folder, d, filename, k);
    assert FirstFreeFrom(paths, folder, d, filename, 1) <= k;
  }

  /** The file system, reduced to the set of paths that exist. */
  class Disk {
    var paths: set<string>

    constructor(paths: set<string>)
      ensures this.paths == paths
    {
      this.paths := paths;
    }
  }

  /**
   * create_save_filename: creates the month folder when missing, with
   * `os.makedirs` creating the year folder on the way, then the day folder, and
   * returns the day folder with the first free file name in it. The loop
   * reads each rejected name's increment back from its last four digits, so it
   * only ends when some increment up to 10000 is free.
   */
  method CreateSaveFilename(disk: Disk, db: string, filename: string, date: Date)
    returns (dayFolder: string, fileName: string)
    requires FreeIncrementExists(disk.paths, DayFolder(db, date), date, filename)
    modifies disk
    ensures disk.paths == old(disk.paths)
      + (if MonthFolder(db, date) in old(disk.paths) then {} else {YearFolder(db, date)})
      + {MonthFolder(db, date), DayFolder(db, date)}
    ensures dayFolder == DayFolder(db, date)
    ensures fileName == Candidate(date, filename, FirstFreeFrom(disk.paths, dayFolder, date, filename, 1))
    ensures PathJoin(dayFolder, fileName) !in disk.paths
  {
    ghost var created;
    dayFolder, created := CreateDateFolders(disk, db, date);
    FreeAfterFolders(old(disk.paths), created, db, date, filename);
    fileName := FirstFreeName(disk.paths, dayFolder, date, filename);
  }

  /** The folder part of create_save_filename: `os.makedirs` of the month folder, then of the day folder. */
  method CreateDateFolders(disk: Disk, db: string, date: Date) returns (dayFolder: string, ghost created: set<string>)
    modifies disk
    ensures created == (if MonthFolder(db, date) in old(disk.paths) then {} else {YearFolder(db, date)})
      + {MonthFolder(db, date), DayFolder(db, date)}
    ensures created <= DateFolders(db, date)
    ensures disk.paths == old(disk.paths) + created
    ensures dayFolder == DayFolder(db, date)
  {
    var year := NatToString(date.year);
    var month := ZeroPad(date.month, 2);
    var day := ZeroPad(date.day, 2);
    var yearFolder := PathJoin(db, year);
    var monthFolder := PathJoin(yearFolder, month);
    if monthFolder !in disk.paths {
      disk.paths := disk.paths + {yearFolder, monthFolder};
    }
    dayFolder := PathJoin(monthFolder, day);
    if dayFolder !in disk.paths {
      disk.paths := disk.paths + {dayFolder};
    }
    created := (if monthFolder in old(disk.paths) then {} else {yearFolder}) + {monthFolder, dayFolder};
  }

  /** Creating folders of the date's branch frees no name and takes none. */
  lemma FreeAfterFolders(paths: set<string>, created: set<string>, db: string, date: Date, filename: string)
    requires created <= DateFolders(db, date)
    requires FreeIncrementExists(paths, DayFolder(db, date), date, filename)
    ensures FreeIncrementExists(paths + created, DayFolder(db, date), date, filename)
  {
    FolderCreationKeepsCandidates(paths, created, db, date, filename);
    var k0 :| 1 <= k0 <= 10000 && !Taken(paths, DayFolder(db, date), date, filename, k0);
    assert !Taken(paths + created, DayFolder(db, date), date, filename, k0);
  }

  /**
   * The search loop of create_save_filename: starting from increment 1, each
   * taken name's increment is read back from its last four digits and
   * incremented, until the name is free.
   */
  method FirstFreeName(paths: set<string>, dayFolder: string, date: Date, filename: string)
    returns (fileName: string)
    requires FreeIncrementExists(paths, dayFolder, date, filename)
    ensures fileName == Candidate(date, filename, FirstFreeFrom(paths, dayFolder, date, filename, 1))
    ensures PathJoin(dayFolder, fileName) !in paths
  {
    FirstFreeExists(paths, dayFolder, date, filename);
    ghost var first := FirstFreeFrom(paths, dayFolder, date, filename, 1);
    var num: nat := 1;
    fileName := Candidate(date, filename, num);
    while PathJoin(dayFolder, fileName) in paths
      invariant 1 <= num <= first
      invariant fileName == Candidate(date, filename, num)
      decreases first - num
    {
      assert Taken(paths, dayFolder, date, filename, num);
      assert num != first;
      CandidateIncrement(date, filename, num);
      var n := ParseDigits(IncrementField(fileName));
      assert n == num;
      num := n + 1;
      fileName := Candidate(date, filename, num);
    }
    assert !Taken(paths, dayFolder, date, filename, num);
    assert num == first;
  }

  /** `|os.path.join(a, b)| > |a|` for a relative, non-empty `b`. */
  lemma PathJoinLonger(a: string, b: string)
    requires |b| > 0 && b[0] != '/'
    ensures |PathJoin(a, b)| > |a|
  {
  }

  /**
   * Creating folders of the date's branch never creates a candidate file:
   * each candidate path is longer than the year, month and day folders.
   */
  lemma FolderCreationKeepsCandidates(paths: set<string>, created: set<string>, db: string, d: Date, filename: string)
    requires created <= DateFolders(db, d)
    ensures forall k: nat ::
      Taken(paths + created, DayFolder(db, d), d, filename, k)
      <==> Taken(paths, DayFolder(db, d), d, filename, k)
  {
    var month := ZeroPad(d.month, 2);
    var day := ZeroPad(d.day, 2);
    assert IsDigit(month[0]) && IsDigit(day[0]);
    PathJoinLonger(YearFolder(db, d), month);
    PathJoinLonger(MonthFolder(db, d), day);
    forall k: nat
      ensures PathJoin(DayFolder(db, d), Candidate(d, filename, k)) !in DateFolders(db, d)
    {
      var c := Candidate(d, filename, k);
      assert c[0] == ZeroPad(d.year, 4)[0];
      assert IsDigit(c[0]);
      PathJoinLonger(DayFolder(db, d), c);
    }
  }

  /** The day folder is `database/YYYY/MM/DD` for a plain database path and a date with a two-digit month and day. */
  lemma DayFolderLayout(db: string, d: Date)
    requires db != "" && db[|db| - 1] != '/'
    requires d.month < 100 && d.day < 100
    ensures DayFolder(db, d)
      == db + "/" + NatToString(d.year) + "/" + ZeroPad(d.month, 2) + "/" + ZeroPad(d.day, 2)
    ensures |ZeroPad(d.month, 2)| == 2 && |ZeroPad(d.day, 2)| == 2
  {
    NatToStringLength(d.month, 2);
    NatToStringLength(d.day, 2);
    var y := NatToString(d.year);
    var m := ZeroPad(d.month, 2);
    assert IsDigit(y[0]) && IsDigit(m[0]) && IsDigit(ZeroPad(d.day, 2)[0]);
    assert PathJoin(db, y) == db + "/" + y;
    assert PathJoin(db + "/" + y, m) == db + "/" + y + "/" + m;
  }

  /** The first name tried is `YYYYMMDD_<name>_0001.txt`. */
  lemma FirstCandidate(d: Date, filename: string)
    ensures Candidate(d, filename, 1) == Stamp(d) + "_" + filename + "_0001.txt"
  {
    assert ZeroPad(1, 4) == "0001";
  }

  /**
   * Reading the increment back from a candidate name: up to 9999 it is the
   * increment itself, so the loop tries 1, 2, 3, ... in order; the name of
   * 10000 reads back as 0, so after 10000 the loop starts again at 1.
   */
  lemma CandidateIncrement(d: Date, filename: string, k: nat)
    requires 1 <= k <= 10000
    ensures |Candidate(d, filename, k)| >= 8 && AllDigits(IncrementField(Candidate(d, filename, k)))
    ensures k <= 9999 ==> ParseDigits(IncrementField(Candidate(d, filename, k))) + 1 == k + 1
    ensures k == 10000 ==> ParseDigits(IncrementField(Candidate(d, filename, k))) + 1 == 1
  {
    var z := ZeroPad(k, 4);
    IncrementFieldOf(Stamp(d) + "_" + filename + "_", z);
    if k <= 9999 {
      NatToStringLength(k, 4);
      assert z[|z| - 4..] == z;
      ParseDigitsOfZeroPad(k, 4);
    } else {
      TenThousandField();
    }
  }

  lemma IncrementFieldOf(prefix: string, z: string)
    requires |z| >= 4
    ensures |prefix + z + ".txt"| >= 8 && IncrementField(prefix + z + ".txt") == z[|z| - 4..]
  {
    var c := prefix + z + ".txt";
    assert c[|c| - 8..|c| - 4] == z[|z| - 4..];
  }

  /** Padding 10000 to four digits leaves all five digits, "10000". */
  lemma TenThousandField()
    ensures ZeroPad(10000, 4) == "10000"
    ensures ParseDigits("10000"[1..]) == 0
  {
    assert NatToString(1) == "1";
    assert NatToString(10) == "10";
    assert NatToString(100) == "100";
    assert NatToString(1000) == "1000";
    assert NatToString(10000) == "10000";
    assert "10000"[1..] == Zeros(4);
    ParseDigitsOfZeros(4);
  }

  /** Distinct increments up to 9999 name distinct files. */
  lemma CandidatesDistinct(d: Date, filename: string, j: nat, k: nat)
    requires 1 <= j <= 9999 && 1 <= k <= 9999 && j != k
    ensures Candidate(d, filename, j) != Candidate(d, filename, k)
  {
    CandidateIncrement(d, filename, j);
    CandidateIncrement(d, filename, k);
  }
}
