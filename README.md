# WP_Backup_Config in Dafny

A model of `WP_Backup_Config`, the configuration object of the WordPress
Backup to Dropbox plugin, as its PHPUnit test case pins it down. The
configuration holds five things:

- **Options.** A dump location and a Dropbox location, the time of the last
  backup and an in-progress flag. They live in the WordPress option store.
  Construction falls back to fixed defaults when the store holds nothing
  usable.
- **Options updates.** `set_options` validates both paths all-or-nothing. It
  returns one error per bad field, and stores the paths in normalised form when
  there are none.
- **History.** A log of `(time, status, message)` entries in logging order,
  bounded at 100. The oldest entries are dropped first.
- **Actions.** The actions of the running backup. The latest one is the
  current action. The files the actions name are the uploaded files, in call
  order.
- **Schedule.** `set_schedule` works out the first run of the periodic backup
  from an optional weekday and a time of day. It does this in blog time and
  registers the run with WP-cron in system time. `clean_up` drops the actions
  and unschedules two hooks.

Modules:

- `Wrappers`: `Option` and `Result`.
- `Paths`: splitting, joining and normalising slash-separated paths, and
  validating a proposed path.
- `History`: the bounded log as a function of what was logged.
- `Actions`: the uploaded-files ledger as a function of the actions.
- `Scheduling`: the next-run computation on integer seconds.
- `Config`: the options record, the option store, the scheduler events and the
  class `BackupConfig`, whose methods change the fields in place.
- `Scenarios`: each test case replayed as a client of `BackupConfig`. These
  methods build the object as `setUp` does, make the same calls and assert what
  the case asserts.

The system clock is an `int` parameter `now` (seconds since 1 January 1970).
Blog time is system time plus a fixed offset, `BackupConfig.blogOffset`. It is
the clock the test sets with `set_current_time`: `Log` and `SetCurrentAction`
stamp entries and actions with `now + blogOffset`, and `SetSchedule` works out
the run from it. The scheduler is the map `BackupConfig.events` from hook name
to event.

The getters the test calls read the fields directly, so they have no rows:

- `Config.BackupConfig.GetOptions` is get_options (:33, :53, :218, :227, :235).
- `Config.BackupConfig.GetHistory` is get_history (:41, :75, :94, :101).
- `Config.BackupConfig.GetActions` is get_actions (:44, :250, :254).
- `Config.BackupConfig.GetCurrentAction` is get_current_action (:113-118). It is the last action, through `Actions.Latest`.
- `Config.BackupConfig.GetSchedule` is get_schedule (:145, :163, :186).
- `Config.BackupConfig.InProgress` is in_progress (:130-136).
- `Config.BackupConfig.NextScheduled` is wp_next_scheduled (:153, :171, :194, :255-256).

`Scheduling.NextRun` is the run set_schedule works out (:139-196). Its lemmas
have rows: `NextRunIsFirstMatch` and the three `Time...` lemmas.

## Model

| member | source | states |
|---|---|---|
| Config.ReloadKeepsOptions | Tests/class-wp-backup-config-test.php:26-60 | constructing over a missing or malformed store yields the default options, and over a stored record yields that record; constructing again over what the first construction wrote back gives the same options |
| Config.BackupConfig.Construct | Tests/class-wp-backup-config-test.php:26-60 | construct() loads the stored options, or the defaults when the store holds no record, and writes them back to the store; it starts from the saved history, actions and schedule and the scheduler as it is |
| Paths.ValidatePath | Tests/class-wp-backup-config-test.php:198-238 | a path is accepted exactly when every character is a letter, a digit, '/' or '-'; a rejected one gives the raw input and the fixed message; an accepted one comes back canonical, with the same directory names |
| Paths.JoinSplit | Tests/class-wp-backup-config-test.php:231-238 | joining the slash-separated segments of a path with '/' gives back the path |
| Paths.NormalizeKeepsComponents | Tests/class-wp-backup-config-test.php:231-238 | normalising keeps the directory names of a path and their order |
| Paths.NormalizeCanonical | Tests/class-wp-backup-config-test.php:231-238 | a normalised path has no leading slash, no trailing slash and no two slashes in a row |
| Paths.NormalizeFixesExactlyCanonical | Tests/class-wp-backup-config-test.php:222-238 | normalising leaves a path unchanged exactly when it is already canonical, so 'wp-content/backups' is stored as given |
| Paths.NormalizeIdempotent | Tests/class-wp-backup-config-test.php:231-238 | normalising twice is normalising once |
| Paths.NormalizeKeepsAllowed | Tests/class-wp-backup-config-test.php:231-238 | normalising an acceptable path introduces no forbidden character |
| Paths.NormalizeStripsAndCollapses | Tests/class-wp-backup-config-test.php:231-238 | any runs of slashes before, between and after two directory names normalise to the two names joined by a single slash |
| Config.OptionErrors | Tests/class-wp-backup-config-test.php:199-215 | there is an error under 'dump_location' or 'dropbox_location' exactly when that field is not an acceptable path, and it holds the field's raw input and the fixed message; there are no other keys |
| Config.NormalizedOptions | Tests/class-wp-backup-config-test.php:222-241 | an accepted record stores both paths canonical, with the proposed directory names, and keeps last_backup_time and in_progress as proposed |
| Config.BackupConfig.SetOptions | Tests/class-wp-backup-config-test.php:198-241 | returns exactly the field errors; with none it stores the normalised record, and with any it keeps the old options; nothing else changes |
| History.LogOneEntry | Tests/class-wp-backup-config-test.php:62-105 | logging into a log with room appends the entry; logging into a full log appends it and drops exactly the oldest entry |
| History.TrimmedAbsorbs | Tests/class-wp-backup-config-test.php:97-105 | trimming before appending more entries loses nothing that trimming afterwards keeps |
| History.LogAllKeepsLatest | Tests/class-wp-backup-config-test.php:62-105 | logging entries one at a time leaves the last 100 of everything logged, in logging order |
| History.HundredAndTenLogged | Tests/class-wp-backup-config-test.php:97-105 | after 110 entries logged into an empty history, 100 remain: the eleventh logged is first and the last logged is last |
| Config.BackupConfig.Log | Tests/class-wp-backup-config-test.php:62-105 | the history becomes the trimmed old history plus the new entry; it holds at most 100 entries and the new entry is last; nothing else changes |
| Config.BackupConfig.ClearHistory | Tests/class-wp-backup-config-test.php:93-94 | the history is empty and nothing else changes |
| Actions.FilesOfAppend | Tests/class-wp-backup-config-test.php:121-127 | the files of two runs of actions, one after the other, are the files of the first followed by those of the second |
| Actions.FilesOfAreActionFiles | Tests/class-wp-backup-config-test.php:121-127 | a name is among the uploaded files exactly when some action named it as a non-empty file |
| Config.BackupConfig.SetCurrentAction | Tests/class-wp-backup-config-test.php:107-127 | the action is appended and becomes the current one; its file, if any, is appended to the uploaded files; nothing else changes |
| Config.BackupConfig.GetUploadedFiles | Tests/class-wp-backup-config-test.php:121-127 | returns the files of all actions so far, in call order |
| Config.BackupConfig.SetInProgress | Tests/class-wp-backup-config-test.php:129-137 | in_progress() then answers the flag given; the other options and the rest of the state are unchanged |
| Scheduling.NextRunIsFirstMatch | Tests/class-wp-backup-config-test.php:139-196 | the first run is strictly after now, at the requested time of day and weekday, at most a day away (no weekday) or a week away (weekday); no earlier future instant matches the request |
| Scheduling.TimeReachedOnRequestedDay | Tests/class-wp-backup-config-test.php:139-155 | asking for today's weekday at the current time of day gives a run exactly a week away |
| Scheduling.TimeReachedNoDay | Tests/class-wp-backup-config-test.php:157-173 | asking for no weekday at the current time of day gives a run exactly a day away |
| Scheduling.TimeAheadToday | Tests/class-wp-backup-config-test.php:175-196 | a time of day still ahead gives a run later today, with today's weekday or with none |
| Scheduling.SystemInstantWholeHours | Tests/class-wp-backup-config-test.php:152-154 | when blog time is a whole number of hours off system time, the instant given to the scheduler is the blog-time run shifted back by exactly the offset |
| Scheduling.SystemInstantAfterHourStart | Tests/class-wp-backup-config-test.php:152-154 | a run after the blog clock reaches the scheduler after the start of the current system hour, whatever the offset |
| Config.BackupConfig.SetSchedule | Tests/class-wp-backup-config-test.php:139-196 | the schedule is the first run in blog time with the recurrence tag as given; the backup hook is registered at the run's distance from the start of the blog hour, counted from the start of the system hour, which is after the start of the system hour, and is exactly the run shifted back by the offset (after now) when the clocks are a whole number of hours apart; the rest of the state is unchanged |
| Config.BackupConfig.CleanUp | Tests/class-wp-backup-config-test.php:244-257 | the actions, current action and uploaded files are empty; the monitor and run hooks are not scheduled; the other events, options, history and schedule are unchanged |
| Scenarios.SetUp | Tests/class-wp-backup-config-test.php:26-30 | a fresh configuration over an empty store holds the default options, an empty history, no actions, no events and no schedule |

The `Scenarios` methods without contracts replay the test cases:

- `Construct` and `ConstructDudData` replay :32-60.
- `SetGetClearHistory` replays :62-95, with the blog clock set and the system clock any fixed offset away from it.
- `MaxHistoryKept` replays :97-105. Its loop is `LogEach`, with the step lemmas `LogOneMore` and `StampedAppend`.
- `SetGetAction` and `GetUploadedFiles` replay :107-127.
- `InProgress` replays :129-137.
- The three `Schedule...` methods replay :139-196.
- `SetGetOptions`, `TryBadPaths`, `StorePlainPaths` and `StoreSlashedPaths` replay :198-242.
- `CleanUp` replays :244-257.

## Left out

- The PHPUnit harness and the mocked WordPress functions. The class the test loads (Classes/class-wp-backup-config.php) is not part of this model. Its behaviour is taken from what the test asserts.
- Parsing of date strings, day names ('Monday', date('D')) and "HH:MM" times. The model takes a numeric weekday (0 is Sunday) and a structured `TimeOfDay`.
- Real timezones and daylight saving. Every day is 86400 seconds and blog time is system time plus a fixed offset.
- The test's own hour-23 overflow in the case at :175-196. `ScheduleWhereTimeOfDayHasNotPast` requires the next hour to exist.
- Making backups, uploading to Dropbox and running WP-cron events. The model keeps only the scheduled events.
- Write failures of the option store. Every write succeeds.
- Paths.IsPathChar: '-' is accepted although the error message speaks only of alphanumerics and '/'. 'wp-content/backups' has to pass (:223-229). Characters the test does not try, such as '_', '.' and space, are rejected.
- Paths.Normalize: trailing slashes are stripped as well as leading ones, as :237-238 require.
- Config.BackupConfig.Construct: the saved history, actions and schedule are passed in at construction. Writes of them back to the option store are not modelled, and a loaded schedule is not checked against the backup hook's event.
- Config.BackupConfig.SetSchedule: the test pins the conversion to system time only for a blog clock on a whole hour. The model generalises it as the run's distance from the start of the blog hour, counted from the start of the system hour. With an offset that is not a whole number of hours (a +5:30 timezone), this is the run shifted back by a whole number of hours next to the offset (which one depends on the minute of the system clock), not by the exact offset. The instant given to the scheduler is then only known to be after the start of the current system hour. It can fall up to an hour before `now`, although the blog-time run is after the blog clock. For example, take an offset of 5:30, a system clock at 12:59 and a request for 18:45 with no weekday. The run is 16 minutes ahead in blog time, but the scheduler gets 12:45 system time.
- Actions.FileOf: PHP also treats the file name "0" as false. Only an absent or empty name uploads nothing here.
- Scenarios.CleanUp: leaves the time of day symbolic rather than fixing it at midnight, which the case's assertions do not depend on.
- Scenarios.SetGetOptions: is stated over any five directory names rather than the case's literal ones. The bad characters are the literal list of :200.
