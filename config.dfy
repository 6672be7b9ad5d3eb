/** WP_Backup_Config: the options, history, current action and schedule of the
    backup job, as one object over the WordPress option store and the WP-cron
    scheduler.

    The system clock is a parameter of every operation that reads it (`now`, in
    seconds). Blog time, the timezone the blog displays, is the system time
    shifted by the fixed `blogOffset`; history entries and actions are stamped
    with blog time, and the schedule is worked out in it. The scheduler is the
    map from hook name to scheduled event held in `events`. */
module Config {

  import opened Wrappers
  import opened Paths
  import opened History
  import opened Actions
  import opened Scheduling

  /** The options record kept under the plugin's option key. */
  datatype Options = Options(
    dumpLocation: string,
    dropboxLocation: string,
    lastBackupTime: Option<int>,  // None stands for the stored `false`
    inProgress: bool)

  const DefaultOptions: Options := Options("Tests/backups", "WordPressBackup", None, false)

  /** What the option store holds under the options key: nothing, something
      that is not an options record (such as array('bad')), or a record. */
  datatype StoredOptions = Missing | Malformed | Stored(options: Options)

  /** The options construct() starts from: the stored record, or the defaults
      when the store holds none. */
  function LoadOptions(stored: StoredOptions): Options {
    if stored.Stored? then stored.options else DefaultOptions
  }

  const DumpLocationKey: string := "dump_location"
  const DropboxLocationKey: string := "dropbox_location"

  /** The errors set_options reports for a proposed record: one per path field
      that holds a character a path may not contain, keyed by the field's name. */
  function OptionErrors(proposed: Options): (errors: map<string, FieldError>)
    ensures errors.Keys <= {DumpLocationKey, DropboxLocationKey}
    ensures DumpLocationKey in errors <==> !AllowedPath(proposed.dumpLocation)
    ensures DropboxLocationKey in errors <==> !AllowedPath(proposed.dropboxLocation)
    ensures DumpLocationKey in errors ==>
      errors[DumpLocationKey] == FieldError(proposed.dumpLocation, InvalidPathMessage)
    ensures DropboxLocationKey in errors ==>
      errors[DropboxLocationKey] == FieldError(proposed.dropboxLocation, InvalidPathMessage)
  {
    var dump := ValidatePath(proposed.dumpLocation);
    var dropbox := ValidatePath(proposed.dropboxLocation);
    (if dump.Failure? then map[DumpLocationKey := dump.error] else map[]) +
    (if dropbox.Failure? then map[DropboxLocationKey := dropbox.error] else map[])
  }

  /** The record set_options stores for an accepted proposal: both paths in
      canonical form naming the same directories, and the last backup time and
      in-progress flag as proposed. */
  function NormalizedOptions(proposed: Options): (o: Options)
    requires OptionErrors(proposed) == map[]
    ensures AllowedPath(o.dumpLocation) && Canonical(o.dumpLocation)
    ensures AllowedPath(o.dropboxLocation) && Canonical(o.dropboxLocation)
    ensures Components(o.dumpLocation) == Components(proposed.dumpLocation)
    ensures Components(o.dropboxLocation) == Components(proposed.dropboxLocation)
    ensures o.lastBackupTime == proposed.lastBackupTime && o.inProgress == proposed.inProgress
  {
    var dump := ValidatePath(proposed.dumpLocation);
    var dropbox := ValidatePath(proposed.dropboxLocation);
    proposed.(dumpLocation := dump.value, dropboxLocation := dropbox.value)
  }

  /** Hook names of the WP-cron events the configuration touches. */
  const BackupHook: string := "execute_periodic_drobox_backup"
  const MonitorHook: string := "monitor_dropbox_backup_hook"
  const RunHook: string := "run_dropbox_backup_hook"

  /** A recurring event of the host scheduler: its first run, in system time,
      and its recurrence tag ("daily", ...). */
  datatype Event = Event(time: int, recurrence: string)

  /** The schedule get_schedule returns: the first run in blog time and the
      recurrence tag. */
  datatype Schedule = Schedule(time: int, recurrence: string)

  class BackupConfig {
    var options: Options
    /** What the option store holds under the options key. */
    var storedOptions: StoredOptions
    var history: seq<Entry>
    var actions: seq<Action>
    var schedule: Option<Schedule>
    /** The host scheduler: the event registered under each hook name. */
    var events: map<string, Event>
    /** Blog time minus system time, in seconds. */
    const blogOffset: int

    /** Every write of the options goes through to the store. */
    ghost predicate Valid()
      reads this
    {
      storedOptions == Stored(options)
    }

    /** construct(): loads the options, falling back to (and storing) the
        defaults when the store holds no valid record. */
    constructor Construct(stored: StoredOptions, storedHistory: seq<Entry>,
                          storedActions: seq<Action>, storedSchedule: Option<Schedule>,
                          scheduler: map<string, Event>, offset: int)
      ensures Valid()
      ensures options == LoadOptions(stored)
      ensures !stored.Stored? ==> options == DefaultOptions
      ensures history == storedHistory && actions == storedActions
      ensures schedule == storedSchedule && events == scheduler && blogOffset == offset
    {
      options := LoadOptions(stored);
      storedOptions := Stored(LoadOptions(stored));
      history := storedHistory;
      actions := storedActions;
      schedule := storedSchedule;
      events := scheduler;
      blogOffset := offset;
    }

    function GetOptions(): Options
      reads this
    {
      options
    }

    /** set_options: stores the normalised proposal when both paths are
        acceptable and reports the errors otherwise, leaving the stored options
        as they were; nothing else changes. */
    method SetOptions(proposed: Options) returns (errors: map<string, FieldError>)
      requires Valid()
      modifies this
      ensures Valid()
      ensures errors == OptionErrors(proposed)
      ensures errors == map[] ==> options == NormalizedOptions(proposed)
      ensures errors != map[] ==> options == old(options)
      ensures history == old(history) && actions == old(actions)
      ensures schedule == old(schedule) && events == old(events)
    {
      errors := OptionErrors(proposed);
      if errors == map[] {
        options := NormalizedOptions(proposed);
        storedOptions := Stored(options);
      }
    }

    function InProgress(): bool
      reads this
    {
      options.inProgress
    }

    /** set_in_progress: sets the flag and stores the options. */
    method SetInProgress(inProgress: bool)
      requires Valid()
      modifies this
      ensures Valid()
      ensures InProgress() == inProgress
      ensures options == old(options).(inProgress := inProgress)
      ensures history == old(history) && actions == old(actions)
      ensures schedule == old(schedule) && events == old(events)
    {
      options := options.(inProgress := inProgress);
      storedOptions := Stored(options);
    }

    function GetHistory(): seq<Entry>
      reads this
    {
      history
    }

    /** log: appends the entry, stamped with the blog time, and drops entries
        from the front until at most MaxHistory remain. */
    method Log(status: Status, message: string, now: int)
      requires Valid()
      modifies this
      ensures Valid()
      ensures history == Trimmed(old(history) + [Entry(now + blogOffset, status, message)])
      ensures |history| <= MaxHistory
      ensures history[|history| - 1] == Entry(now + blogOffset, status, message)
      ensures options == old(options) && actions == old(actions)
      ensures schedule == old(schedule) && events == old(events)
    {
      var logged := history + [Entry(now + blogOffset, status, message)];
      var kept := logged;
      while |kept| > MaxHistory
        invariant kept == logged[|logged| - |kept|..]
        invariant |kept| < |logged| ==> |kept| >= MaxHistory
        decreases |kept|
      {
        kept := kept[1..];
      }
      assert kept == Trimmed(logged);
      history := kept;
    }

    /** clear_history: empties the history. */
    method ClearHistory()
      requires Valid()
      modifies this
      ensures Valid()
      ensures history == []
      ensures options == old(options) && actions == old(actions)
      ensures schedule == old(schedule) && events == old(events)
    {
      history := [];
    }

    function GetActions(): seq<Action>
      reads this
    {
      actions
    }

    function GetCurrentAction(): Option<Action>
      reads this
    {
      Latest(actions)
    }

    /** set_current_action: the action, stamped with the blog time, becomes the
        current one, and its file, if it names one, is the last of the uploaded
        files. */
    method SetCurrentAction(message: string, file: Option<string>, now: int)
      requires Valid()
      modifies this
      ensures Valid()
      ensures actions == old(actions) + [Action(now + blogOffset, message, file)]
      ensures GetCurrentAction() == Some(Action(now + blogOffset, message, file))
      ensures FilesOf(actions) == FilesOf(old(actions)) + FileOf(Action(now + blogOffset, message, file))
      ensures options == old(options) && history == old(history)
      ensures schedule == old(schedule) && events == old(events)
    {
      var a := Action(now + blogOffset, message, file);
      FilesOfAppend(actions, [a]);
      assert FilesOf([a]) == FileOf(a);
      actions := actions + [a];
    }

    /** get_uploaded_files: the files of all actions so far, in order. */
    method GetUploadedFiles() returns (files: seq<string>)
      ensures files == FilesOf(actions)
    {
      files := [];
      var i := 0;
      while i < |actions|
        invariant 0 <= i <= |actions|
        invariant files == FilesOf(actions[..i])
      {
        FilesOfAppend(actions[..i], [actions[i]]);
        assert FilesOf([actions[i]]) == FileOf(actions[i]);
        assert actions[..i + 1] == actions[..i] + [actions[i]];
        files := files + FileOf(actions[i]);
        i := i + 1;
      }
      assert actions[..|actions|] == actions;
    }

    /** set_schedule: works out the first run in blog time, registers it with
        the scheduler in system time and remembers it with its recurrence. The
        run reaches the scheduler at its distance from the start of the current
        blog hour past the start of the current system hour; with a blog clock a
        whole number of hours off that is the run shifted back by the offset. */
    method SetSchedule(day: Option<Weekday>, time: TimeOfDay, recurrence: string, now: int)
      requires Valid()
      modifies this
      ensures Valid()
      ensures schedule == Some(Schedule(NextRun(day, time, now + blogOffset), recurrence))
      ensures events == old(events)[BackupHook :=
        Event(SystemInstant(schedule.value.time, now, now + blogOffset), recurrence)]
      ensures events[BackupHook].time > StartOfHour(now)
      ensures blogOffset % Hour == 0 ==>
        events[BackupHook].time == schedule.value.time - blogOffset > now
      ensures options == old(options) && history == old(history) && actions == old(actions)
    {
      var blogNow := now + blogOffset;
      var run := NextRun(day, time, blogNow);
      NextRunIsFuture(day, time, blogNow);
      SystemInstantAfterHourStart(run, now, blogNow);
      if blogOffset % Hour == 0 {
        SystemInstantWholeHours(run, now, blogOffset);
      }
      events := events[BackupHook := Event(SystemInstant(run, now, blogNow), recurrence)];
      schedule := Some(Schedule(run, recurrence));
    }

    function GetSchedule(): Option<Schedule>
      reads this
    {
      schedule
    }

    /** wp_next_scheduled: when the event under `hook` runs next, if it is
        scheduled. */
    function NextScheduled(hook: string): (r: Option<int>)
      reads this
    {
      if hook in events then Some(events[hook].time) else None
    }

    /** clean_up: forgets the actions of the run and unschedules the monitoring
        and run hooks; options, history and the periodic backup stay. */
    method CleanUp()
      requires Valid()
      modifies this
      ensures Valid()
      ensures actions == [] && GetCurrentAction() == None && FilesOf(actions) == []
      ensures NextScheduled(MonitorHook) == None && NextScheduled(RunHook) == None
      ensures events == old(events) - {MonitorHook, RunHook}
      ensures options == old(options) && history == old(history) && schedule == old(schedule)
    {
      actions := [];
      events := events - {MonitorHook, RunHook};
    }
  }


  /** Constructing over the store that an earlier construction wrote gives the
      same options back: the defaults when the store held nothing usable (as
      array('bad')), and the stored record otherwise. */
  method ReloadKeepsOptions(stored: StoredOptions) returns (first: Options, reloaded: Options)
    ensures !stored.Stored? ==> first == DefaultOptions
    ensures stored.Stored? ==> first == stored.options
    ensures reloaded == first
  {
    var c := new BackupConfig.Construct(stored, [], [], None, map[], 0);
    var d := new BackupConfig.Construct(c.storedOptions, [], [], None, map[], 0);
    first, reloaded := c.GetOptions(), d.GetOptions();
  }

}
