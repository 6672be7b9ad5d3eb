/** The cases of WP_Backup_Config_Test replayed against BackupConfig: each
    method builds the object the way setUp does, calls what the case calls and
    asserts what the case asserts. They are clients of the contracts in Config
    only. */
module Scenarios {

  import opened Wrappers
  import opened Paths
  import opened History
  import opened Actions
  import opened Scheduling
  import opened Config

  /** setUp: a fresh configuration over an empty option store and scheduler. */
  method SetUp(offset: int) returns (c: BackupConfig)
    ensures fresh(c) && c.Valid() && c.blogOffset == offset
    ensures c.options == DefaultOptions && c.history == [] && c.actions == []
    ensures c.events == map[] && c.schedule == None
  {
    c := new BackupConfig.Construct(Missing, [], [], None, map[], offset);
  }

  method Construct() {
    var c := SetUp(0);
    assert c.GetOptions() == Options("Tests/backups", "WordPressBackup", None, false);
    assert c.GetHistory() == [];
    assert c.GetActions() == [];
  }

  method ConstructDudData() {
    var c := new BackupConfig.Construct(Malformed, [], [], None, map[], 0);
    assert c.GetOptions() == Options("Tests/backups", "WordPressBackup", None, false);
  }

  /** The case sets the blog clock to t, t + 1, ... while the system clock is
      `offset` behind it; the entries carry the blog times. */
  method SetGetClearHistory(t: int, offset: int) {
    var c := SetUp(offset);
    c.Log(Started, "One", t - offset);
    c.Log(Finished, "Two", t + 1 - offset);
    c.Log(Warning, "Three", t + 2 - offset);
    c.Log(Failed, "Four", t + 3 - offset);
    var history := c.GetHistory();
    assert history == [Entry(t, Started, "One"), Entry(t + 1, Finished, "Two"),
                       Entry(t + 2, Warning, "Three"), Entry(t + 3, Failed, "Four")];
    c.ClearHistory();
    assert c.GetHistory() == [];
  }

  /** The decimal spelling of n, the message each log call of MaxHistory gets. */
  function Decimal(n: nat): string {
    (if n < 10 then "" else Decimal(n / 10)) + ["0123456789"[n % 10]]
  }

  /** The entries logged, all at the same time, for the given messages. */
  function Stamped(messages: seq<string>, stamp: int): (r: seq<Entry>)
    ensures |r| == |messages|
    ensures forall j :: 0 <= j < |messages| ==> r[j] == Entry(stamp, Started, messages[j])
  {
    seq(|messages|, j requires 0 <= j < |messages| => Entry(stamp, Started, messages[j]))
  }

  lemma StampedAppend(ms: seq<string>, m: string, stamp: int)
    ensures Stamped(ms + [m], stamp) == Stamped(ms, stamp) + [Entry(stamp, Started, m)]
  {
    var l, r := Stamped(ms + [m], stamp), Stamped(ms, stamp) + [Entry(stamp, Started, m)];
    assert |l| == |r|;
    forall j | 0 <= j < |l|
      ensures l[j] == r[j]
    {
      if j < |ms| {
        assert (ms + [m])[j] == ms[j];
      }
    }
  }

  lemma LogOneMore(messages: seq<string>, i: nat, stamp: int)
    requires i < |messages|
    ensures Trimmed(Trimmed(Stamped(messages[..i], stamp)) + [Entry(stamp, Started, messages[i])])
         == Trimmed(Stamped(messages[..i + 1], stamp))
  {
    var e := Entry(stamp, Started, messages[i]);
    TrimmedAbsorbs(Stamped(messages[..i], stamp), [e]);
    assert messages[..i + 1] == messages[..i] + [messages[i]];
    StampedAppend(messages[..i], messages[i], stamp);
  }

  /** The loop of the case: one log call per message, in order. */
  method LogEach(c: BackupConfig, messages: seq<string>, now: int)
    requires c.Valid() && c.history == []
    modifies c
    ensures c.Valid() && c.history == Trimmed(Stamped(messages, now + c.blogOffset))
  {
    var stamp := now + c.blogOffset;
    var i := 0;
    while i < |messages|
      invariant 0 <= i <= |messages|
      invariant c.Valid() && stamp == now + c.blogOffset
      invariant c.history == Trimmed(Stamped(messages[..i], stamp))
    {
      c.Log(Started, messages[i], now);
      LogOneMore(messages, i, stamp);
      i := i + 1;
    }
    assert messages[..i] == messages;
  }

  /** The case logs the numbers 0 to 109 and reads back 100 entries, from 10
      to 109. */
  method MaxHistoryKept(now: int) {
    var c := SetUp(0);
    var numbers := seq(MaxHistory + 10, j requires 0 <= j => Decimal(j));
    LogEach(c, numbers, now);
    var logged := Stamped(numbers, now + c.blogOffset);
    assert Trimmed(logged) == logged[10..];
    var history := c.GetHistory();
    assert |history| == 100;
    assert history[0].message == Decimal(10);
    assert history[MaxHistory - 1].message == Decimal(109);
  }

  method SetGetAction(t: int, offset: int) {
    var c := SetUp(offset);
    c.SetCurrentAction("Action1", Some("File1"), t - offset);
    c.SetCurrentAction("Action2", Some("File2"), t + 1 - offset);
    assert c.GetCurrentAction() == Some(Action(t + 1, "Action2", Some("File2")));
  }

  method GetUploadedFiles(t: int) {
    var c := SetUp(0);
    c.SetCurrentAction("Action1", Some("File1"), t);
    c.SetCurrentAction("Action2", Some("File2"), t);
    var files := c.GetUploadedFiles();
    assert FilesOf([]) == [];
    assert files == ["File1", "File2"];
  }

  method InProgress() {
    var c := SetUp(0);
    assert !c.InProgress();
    c.SetInProgress(true);
    assert c.InProgress();
    c.SetInProgress(false);
    assert !c.InProgress();
  }

  /** The schedule cases set the blog clock to a whole hour h of its day and
      leave the system clock where it is, so the offset between them is any
      number of seconds. */
  method ScheduleWhereTimeOfDayHasPast(now: int, offset: int, h: nat)
    requires h < 24 && (now + offset) % Day == h * 3600
  {
    var c := SetUp(offset);
    var blogNow := now + offset;
    TimeReachedOnRequestedDay(TimeOfDay(h, 0), blogNow);
    OnTheHour(blogNow, h);
    assert SystemInstant(blogNow + Week, now, blogNow) == StartOfHour(now) + Week;
    c.SetSchedule(Some(WeekdayOf(blogNow)), TimeOfDay(h, 0), "daily", now);
    var schedule := c.GetSchedule();
    assert schedule == Some(Schedule(blogNow + Week, "daily"));
    assert c.NextScheduled(BackupHook) == Some(StartOfHour(now) + Week);
  }

  method ScheduleWhereTimeOfDayHasPastAndNoDaySupplied(now: int, offset: int, h: nat)
    requires h < 24 && (now + offset) % Day == h * 3600
  {
    var c := SetUp(offset);
    var blogNow := now + offset;
    TimeReachedNoDay(TimeOfDay(h, 0), blogNow);
    OnTheHour(blogNow, h);
    assert SystemInstant(blogNow + Day, now, blogNow) == StartOfHour(now) + Day;
    c.SetSchedule(None, TimeOfDay(h, 0), "daily", now);
    var schedule := c.GetSchedule();
    assert schedule == Some(Schedule(blogNow + Day, "daily"));
    assert c.NextScheduled(BackupHook) == Some(StartOfHour(now) + Day);
  }

  method ScheduleWhereTimeOfDayHasNotPast(now: int, offset: int, h: nat)
    requires h + 1 < 24 && (now + offset) % Day == h * 3600
  {
    var c := SetUp(offset);
    var blogNow := now + offset;
    TimeAheadToday(TimeOfDay(h + 1, 0), blogNow);
    OnTheHour(blogNow, h);
    assert SystemInstant(blogNow + 3600, now, blogNow) == StartOfHour(now) + Hour;
    c.SetSchedule(Some(WeekdayOf(blogNow)), TimeOfDay(h + 1, 0), "daily", now);
    var schedule := c.GetSchedule();
    assert schedule == Some(Schedule(blogNow + 3600, "daily"));
    assert c.NextScheduled(BackupHook) == Some(StartOfHour(now) + Hour);
  }

  /** The characters the options case tries as paths, all of them refused. */
  const BadChars: string := "!@#$%^&*()+={}][:;\"'<>?,~`|\\"

  /** The first half of the options case: every bad character is refused in
      both fields, with the raw input and the fixed message, and the stored
      options stay the defaults. */
  method TryBadPaths(c: BackupConfig)
    requires c.Valid() && c.options == DefaultOptions
    modifies c
    ensures c.Valid() && c.options == DefaultOptions
  {
    var i := 0;
    while i < |BadChars|
      invariant 0 <= i <= |BadChars|
      invariant c.Valid() && c.options == DefaultOptions
    {
      var bad := [BadChars[i]];
      assert !IsPathChar(bad[0]);
      var errors := c.SetOptions(Options(bad, bad, None, false));
      assert errors != map[];
      assert errors[DumpLocationKey] == FieldError(bad, InvalidPathMessage);
      assert errors[DropboxLocationKey] == FieldError(bad, InvalidPathMessage);
      i := i + 1;
    }
  }

  /** A directory name as the options case uses them: non-empty, made of
      path characters, without a slash. */
  predicate DirectoryName(a: string) {
    a != [] && SlashFree(a) && AllowedPath(a)
  }

  /** The middle of the options case: 'wp-content/backups' and
      'WordPressBackup' are accepted and stored as they are. */
  method StorePlainPaths(c: BackupConfig, wpContent: string, backups: string,
                         wordPressBackup: string)
    requires c.Valid()
    requires DirectoryName(wpContent) && DirectoryName(backups) && DirectoryName(wordPressBackup)
    modifies c
    ensures c.Valid()
  {
    var dump := wpContent + ['/'] + backups;
    NormalizeStripsAndCollapses(wpContent, backups, 0, 1, 0);
    assert dump == Slashes(0) + wpContent + Slashes(1) + backups + Slashes(0);
    assert Canonical(wordPressBackup);
    NormalizeFixesExactlyCanonical(wordPressBackup);
    var errors := c.SetOptions(Options(dump, wordPressBackup, None, false));
    assert errors == map[];
    assert c.GetOptions().dumpLocation == dump;
    assert c.GetOptions().dropboxLocation == wordPressBackup;
  }

  /** The end of the options case: '///wp-content////backups///' and
      '////WordPressBackups///SiteOne////' are accepted and stored with the
      slashes at either end dropped and each run inside cut to one. */
  method StoreSlashedPaths(c: BackupConfig, wpContent: string, backups: string,
                           wordPressBackups: string, siteOne: string)
    requires c.Valid()
    requires DirectoryName(wpContent) && DirectoryName(backups)
    requires DirectoryName(wordPressBackups) && DirectoryName(siteOne)
    modifies c
    ensures c.Valid()
  {
    var dumpLong := Slashes(3) + wpContent + Slashes(4) + backups + Slashes(3);
    var dropboxLong := Slashes(4) + wordPressBackups + Slashes(3) + siteOne + Slashes(4);
    NormalizeStripsAndCollapses(wpContent, backups, 3, 4, 3);
    NormalizeStripsAndCollapses(wordPressBackups, siteOne, 4, 3, 4);
    assert AllowedPath(dumpLong) && AllowedPath(dropboxLong);
    var errors := c.SetOptions(Options(dumpLong, dropboxLong, None, false));
    assert errors == map[];
    assert c.GetOptions().dumpLocation == wpContent + ['/'] + backups;
    assert c.GetOptions().dropboxLocation == wordPressBackups + ['/'] + siteOne;
  }

  /** The options case. Its paths are spelled out of directory names: it uses
      'wp-content', 'backups', 'WordPressBackup', 'WordPressBackups' and
      'SiteOne'; what it asserts holds for any names. */
  method SetGetOptions(wpContent: string, backups: string, wordPressBackup: string,
                       wordPressBackups: string, siteOne: string)
    requires DirectoryName(wpContent) && DirectoryName(backups) && DirectoryName(wordPressBackup)
    requires DirectoryName(wordPressBackups) && DirectoryName(siteOne)
  {
    var c := SetUp(0);
    TryBadPaths(c);
    assert c.GetOptions().dumpLocation == "Tests/backups";
    assert c.GetOptions().dropboxLocation == "WordPressBackup";
    StorePlainPaths(c, wpContent, backups, wordPressBackup);
    StoreSlashedPaths(c, wpContent, backups, wordPressBackups, siteOne);
  }

  /** The case schedules Mondays at midnight; what it asserts holds for any
      time of day, which is left open here. */
  method CleanUp(now: int, time: TimeOfDay) {
    var c := SetUp(0);
    c.SetSchedule(Some(1), time, "daily", now);
    c.SetCurrentAction("Action1", Some("File1"), now);
    assert c.GetActions() != [];
    c.CleanUp();
    assert c.GetActions() == [];
    assert c.NextScheduled(MonitorHook) == None;
    assert c.NextScheduled(RunHook) == None;
  }

}
