/**
 * The Control Shell: a window holding the form (driver path, desktop and
 * mobile counts, headless box), a console, a status line and the Start and
 * Stop buttons. Start saves the form and hands the run to a background
 * thread, which launches the worker script as a child process, copies its
 * output into the console and, when the child exits, reports the outcome.
 * Stop asks for the child to be killed.
 *
 * The run-control logic is given first as functions on a value (RunState)
 * whose properties are proved as lemmas; the App class then has the
 * window's fields, and each of its methods is proved to move them as those
 * functions say. The background thread is split at the points where its
 * state is visible to the window (launched, output copied, child exited), so
 * that Stop can be called between the steps.
 */
module ControlShell {
  import opened Optional
  import opened PyText
  import opened SettingsFile

  // ---------------------------------------------------------------------
  // the worker's command line

  /** The directory the worker is told to log into. */
  const LogDir := "logs"

  /** The options the worker's argument parser defines. */
  const WorkerOptions: set<string> := {"--driver-path", "--desktop", "--mobile", "--log-dir"}

  /** The command the background thread runs: the interpreter, the script, four options and perhaps --headless. */
  function Command(python: string, script: string, s: Settings): (cmd: seq<string>)
    ensures |cmd| == if s.headless then 11 else 10
    ensures cmd[..2] == [python, script]
  {
    [python, script] + Options(s) + (if s.headless then ["--headless"] else [])
  }

  /**
   * The four options with their values, in the order the command lists
   * them: each is one the worker's parser defines, the path is passed
   * verbatim and each count as text that int() reads back as the count.
   */
  function Options(s: Settings): (r: seq<string>)
    ensures |r| == 8
    ensures forall i :: 0 <= i < 4 ==> r[2 * i] in WorkerOptions
    ensures r[1] == s.driverPath && r[7] == LogDir
  {
    ["--driver-path", s.driverPath,
     "--desktop", IntToString(s.desktopCount),
     "--mobile", IntToString(s.mobileCount),
     "--log-dir", LogDir]
  }

  /**
   * The command carries the form: the path verbatim, each count as text that
   * int() reads back as the same number, and a trailing --headless exactly
   * when the box is ticked.
   */
  lemma CommandCarriesForm(python: string, script: string, s: Settings)
    ensures var cmd := Command(python, script, s);
      && cmd[2] == "--driver-path" && cmd[3] == s.driverPath
      && cmd[4] == "--desktop" && ParseInt(cmd[5]) == Some(s.desktopCount)
      && cmd[6] == "--mobile" && ParseInt(cmd[7]) == Some(s.mobileCount)
      && cmd[8] == "--log-dir" && cmd[9] == LogDir
      && cmd[10..] == if s.headless then ["--headless"] else []
  {
    var cmd := Command(python, script, s);
    CommandParts(python, script, s);
    assert cmd[2..10] == Options(s);
    DesktopArgument(python, script, s);
    MobileArgument(python, script, s);
  }

  /** The command is the interpreter and the script, the options, and perhaps --headless. */
  lemma CommandParts(python: string, script: string, s: Settings)
    ensures Command(python, script, s)[2..10] == Options(s)
    ensures Command(python, script, s)[10..] == if s.headless then ["--headless"] else []
  {
  }

  lemma DesktopArgument(python: string, script: string, s: Settings)
    ensures ParseInt(Command(python, script, s)[5]) == Some(s.desktopCount)
  {
    CommandParts(python, script, s);
    assert Command(python, script, s)[5] == Options(s)[3];
    ParseIntRoundTrip(s.desktopCount);
  }

  lemma MobileArgument(python: string, script: string, s: Settings)
    ensures ParseInt(Command(python, script, s)[7]) == Some(s.mobileCount)
  {
    CommandParts(python, script, s);
    assert Command(python, script, s)[7] == Options(s)[5];
    ParseIntRoundTrip(s.mobileCount);
  }

  /** Every option the command names is one the worker defines, except the trailing --headless. */
  lemma CommandOptions(python: string, script: string, s: Settings)
    ensures var cmd := Command(python, script, s);
      && (forall i :: 2 <= i < 10 && i % 2 == 0 ==> cmd[i] in WorkerOptions)
      && (s.headless ==> cmd[10] !in WorkerOptions)
  {
    var cmd := Command(python, script, s);
    CommandParts(python, script, s);
    forall i | 2 <= i < 10 && i % 2 == 0
      ensures cmd[i] in WorkerOptions
    {
      assert cmd[i] == Options(s)[i - 2];
      assert i == 2 || i == 4 || i == 6 || i == 8;
    }
  }

  // ---------------------------------------------------------------------
  // run control, as functions on values

  /** The part of the window that Start, Stop and the end of a run write: the run flag, the status line and the two buttons. */
  datatype RunState = RunState(
    running: bool,
    status: string,
    startEnabled: bool,
    stopEnabled: bool)

  /** The buttons agree with the flag: Start is enabled exactly when no run is active, Stop exactly when one is. */
  predicate Consistent(c: RunState) {
    c.startEnabled == !c.running && c.stopEnabled == c.running
  }

  const ReadyStatus := "Ready"
  const InvalidPathStatus := "Error: WebDriver path is invalid."
  const RunningStatus := "Running..."
  const StoppedStatus := "Stopped by user"
  const CompletedStatus := "\U{2705} Completed successfully!"

  /** The status after a child exited on its own with a non-zero code. */
  function FailedStatus(code: int): string {
    "\U{274C} Failed (exit code " + IntToString(code) + ")"
  }

  /** The status after the background thread caught an exception. */
  function ErrorStatus(msg: string): string {
    "\U{274C} Error: " + msg
  }

  /** What Stop writes into the console. */
  const StopNotice := "\n\U{26A0}\U{FE0F} Stopping automation...\n"

  /**
   * Pressing Start: a missing or empty path sets the error status and
   * changes nothing else; otherwise a run begins, with Start disabled and
   * Stop enabled.
   */
  function Start(c: RunState, pathValid: bool): (r: RunState)
    ensures !pathValid ==> r.status == InvalidPathStatus && r.(status := c.status) == c
    ensures pathValid ==> r.running && r.status == RunningStatus && !r.startEnabled && r.stopEnabled
  {
    if !pathValid then c.(status := InvalidPathStatus)
    else c.(running := true, status := RunningStatus, startEnabled := false, stopEnabled := true)
  }

  /**
   * Pressing Stop: changes something exactly when there is a process and a
   * run is active, and then ends the run with "Stopped by user", Start
   * enabled and Stop disabled.
   */
  function Stop(c: RunState, hasProcess: bool): (r: RunState)
    ensures r != c <==> hasProcess && c.running
    ensures r != c ==> !r.running && r.status == StoppedStatus && r.startEnabled && !r.stopEnabled
  {
    if hasProcess && c.running then
      c.(running := false, status := StoppedStatus, startEnabled := true, stopEnabled := false)
    else c
  }

  /** The finally block of the background thread: the run is over, the buttons are idle and the status stays. */
  function Reset(c: RunState): (r: RunState)
    ensures !r.running && r.startEnabled && !r.stopEnabled
    ensures r.status == c.status
  {
    c.(running := false, startEnabled := true, stopEnabled := false)
  }

  /**
   * The child exited with `code`: the outcome is reported only if the run
   * was not stopped, then the finally block runs, so the run is over and
   * Start is enabled again.
   */
  function Finish(c: RunState, code: int): (r: RunState)
    ensures !r.running && r.startEnabled && !r.stopEnabled
    ensures !c.running ==> r.status == c.status
  {
    var status := if !c.running then c.status else if code == 0 then CompletedStatus else FailedStatus(code);
    Reset(c.(status := status))
  }

  /** The background thread caught an exception with message `msg`: it becomes the status and the run is over. */
  function Fail(c: RunState, msg: string): (r: RunState)
    ensures !r.running && r.startEnabled && !r.stopEnabled
    ensures r.status == ErrorStatus(msg)
  {
    Reset(c.(status := ErrorStatus(msg)))
  }

  /** Every transition keeps the buttons in agreement with the running flag. */
  lemma TransitionsKeepConsistent(c: RunState, pathValid: bool, hasProcess: bool, code: int, msg: string)
    requires Consistent(c)
    ensures Consistent(Start(c, pathValid))
    ensures Consistent(Stop(c, hasProcess))
    ensures Consistent(Finish(c, code))
    ensures Consistent(Fail(c, msg))
  {
  }

  /** A second Stop changes nothing. */
  lemma StopIdempotent(c: RunState, hasProcess: bool)
    ensures Stop(Stop(c, hasProcess), hasProcess) == Stop(c, hasProcess)
  {
  }

  /** After a Stop, the child's exit leaves "Stopped by user" in place, whatever its exit code. */
  lemma StoppedRunKeepsStatus(c: RunState, code: int)
    requires c.running
    ensures Finish(Stop(c, true), code).status == StoppedStatus
  {
  }

  /** A run that was not stopped reports success exactly when the exit code is 0. */
  lemma FinishReportsOutcome(c: RunState, code: int)
    requires c.running
    ensures Finish(c, code).status == CompletedStatus <==> code == 0
    ensures code != 0 ==> Finish(c, code).status == FailedStatus(code)
  {
    if code != 0 {
      assert FailedStatus(code)[0] != CompletedStatus[0];
    }
  }

  /** The failure status names the exit code: two different codes give two different texts. */
  lemma FailedStatusNamesCode(a: int, b: int)
    requires FailedStatus(a) == FailedStatus(b)
    ensures a == b
  {
    var pre := "\U{274C} Failed (exit code ";
    var ta, tb := IntToString(a), IntToString(b);
    assert FailedStatus(a) == pre + ta + ")";
    assert FailedStatus(b) == pre + tb + ")";
    assert |ta| == |tb|;
    assert ta == FailedStatus(a)[|pre|..|pre| + |ta|];
    assert tb == FailedStatus(b)[|pre|..|pre| + |tb|];
    ParseIntRoundTrip(a);
    ParseIntRoundTrip(b);
  }

  // ---------------------------------------------------------------------
  // the window

  /** Where the background thread is: not running, about to launch, copying output, waiting for the exit. */
  datatype Stage = Idle | Launching | Relaying | Waiting

  /** The child process: its command line, whether a kill was sent to it, and its exit code once waited for. */
  datatype Child = Child(cmd: seq<string>, killRequested: bool, returnCode: Option<int>)

  const SaveErrorPrefix := "Error saving settings: "
  const LoadErrorPrefix := "Error loading settings: "

  /** An error reported in the console: the prefix, the exception's message and a line break. */
  function ErrorLine(prefix: string, msg: string): string {
    prefix + msg + "\n"
  }

  /**
   * How save_settings fails, if it does: opening the file raises an OSError,
   * which is reported, or the driver path holds a character the locale's
   * encoding cannot write, so the first write raises UnicodeEncodeError,
   * which is not caught. Which characters an encoding can write is a
   * parameter of the platform.
   */
  datatype SaveFault = NoFault | OpenFailed(msg: string) | Unencodable

  /** The settings file after save_settings wrote the form `s` over `prior`. */
  function SavedFile(prior: Option<string>, s: Settings, fault: SaveFault): (r: Option<string>)
    ensures fault == NoFault ==> r == Some(FileText(s))
    ensures fault.OpenFailed? ==> r == prior
    ensures fault == Unencodable ==> r == Some("")
  {
    match fault
    case NoFault => Some(FileText(s))
    case OpenFailed(_) => prior
    case Unencodable => Some("")
  }

  /** What save_settings adds to the console: only an error opening the file is reported. */
  function SaveReport(fault: SaveFault): (r: string)
    ensures fault.OpenFailed? <==> r != ""
    ensures fault.OpenFailed? ==> r == ErrorLine(SaveErrorPrefix, fault.msg)
  {
    if fault.OpenFailed? then ErrorLine(SaveErrorPrefix, fault.msg) else ""
  }

  /**
   * A start that raised after setting the flag: Start stays disabled and,
   * with no process to kill, Stop changes nothing, so only a process left
   * from an earlier run lets Stop end it.
   */
  lemma StuckRun(c: RunState)
    requires Consistent(c) && c.startEnabled
    ensures var s := Start(c, true); s.running && !s.startEnabled && Stop(s, false) == s
    ensures var s := Start(c, true); !Stop(s, true).running && Stop(s, true).startEnabled
  {
  }

  class App {
    /** The form's four variables, as the values the settings file stores. */
    var form: Settings
    /** The last child started, if any; it is kept after the child exits. */
    var process: Option<Child>
    /** automation_running, the status line and the states of the Start and Stop buttons. */
    var run: RunState
    /** The text of the console. */
    var console: string
    /** The text of bing_rewards_settings.txt, or None when there is no such file. */
    var settingsFile: Option<string>
    /** Whether the logs directory exists. */
    var logDirExists: bool
    var worker: Stage

    /**
     * The buttons agree with the flag, and a thread past its launch has a
     * process. An active run need not have a thread: a start that raised
     * before starting one leaves the flag set (see StuckRun).
     */
    predicate Valid()
      reads this`run, this`process, this`worker
    {
      && Consistent(run)
      && ((worker == Relaying || worker == Waiting) ==> process.Some?)
    }

    /**
     * The window opens with an empty path, 30 and 20 searches, headless on,
     * status "Ready", Start enabled and Stop disabled, and then reads the
     * settings file `file` (None when absent); `readError` is the error
     * opening it raises, if any.
     */
    constructor (file: Option<string>, logDir: bool, readError: Option<string>)
      ensures Valid()
      ensures process == None && worker == Idle
      ensures !run.running && run.status == ReadyStatus && run.startEnabled && !run.stopEnabled
      ensures settingsFile == file && logDirExists == logDir
      ensures file == None ==> form == Initial && console == ""
      ensures file != None && readError != None ==>
        form == Initial && console == ErrorLine(LoadErrorPrefix, readError.value)
      ensures file != None && readError == None ==>
        var r := Load(Initial, ReadLines(file.value));
        form == r.settings && console == LoadReport(r)
    {
      form := Initial;
      process := None;
      run := RunState(false, ReadyStatus, true, false);
      console := "";
      settingsFile := file;
      logDirExists := logDir;
      worker := Idle;
      new;
      LoadSettings(readError);
    }

    /**
     * The user edits the form. The counts are the spin boxes' values; typed
     * text that is not an integer is not modelled.
     */
    method Edit(s: Settings)
      modifies this`form
      ensures form == s
    {
      form := s;
    }

    /**
     * save_settings: writes the four lines. An error opening the file is
     * reported in the console and leaves the file as it was. A driver path
     * the locale's encoding cannot write raises UnicodeEncodeError at the
     * first write, which the handler of IOError does not catch: the file,
     * opened for writing, is left empty and `raised` says that the
     * exception leaves the method.
     */
    method SaveSettings(fault: SaveFault) returns (raised: bool)
      modifies this`settingsFile, this`console
      ensures raised <==> fault == Unencodable
      ensures settingsFile == SavedFile(old(settingsFile), form, fault)
      ensures fault == NoFault ==> settingsFile == Some(FileText(form)) && console == old(console)
      ensures fault.OpenFailed? ==>
        settingsFile == old(settingsFile) && console == old(console) + ErrorLine(SaveErrorPrefix, fault.msg)
      ensures fault == Unencodable ==> settingsFile == Some("") && console == old(console)
    {
      match fault
      case OpenFailed(msg) =>
        console := console + ErrorLine(SaveErrorPrefix, msg);
        raised := false;
      case Unencodable =>
        settingsFile := Some("");
        raised := true;
      case NoFault =>
        settingsFile := Some(FileText(form));
        raised := false;
    }

    /**
     * load_settings: nothing happens without a file; an error opening it is
     * reported; otherwise the fields are assigned one by one from the
     * dictionary, and an unparsable count is reported and stops the
     * assignments there.
     */
    method LoadSettings(readError: Option<string>)
      modifies this`form, this`console
      ensures settingsFile == None ==> form == old(form) && console == old(console)
      ensures settingsFile != None && readError != None ==>
        form == old(form) && console == old(console) + ErrorLine(LoadErrorPrefix, readError.value)
      ensures settingsFile != None && readError == None ==>
        var r := Load(old(form), ReadLines(settingsFile.value));
        form == r.settings && console == old(console) + LoadReport(r)
    {
      if settingsFile.None? {
        return;
      }
      if readError.Some? {
        console := console + ErrorLine(LoadErrorPrefix, readError.value);
        return;
      }
      var loaded, error := ReadSettings(form, settingsFile.value);
      form := loaded;
      if error.Some? {
        console := console + ErrorLine(LoadErrorPrefix, error.value);
      }
    }

    /**
     * browse_driver: a chosen file (the dialog returns "" on cancel) replaces
     * the path by its normalised form `normalised` and saves the settings.
     */
    method BrowseDriver(chosen: string, normalised: string, fault: SaveFault) returns (raised: bool)
      modifies this`form, this`settingsFile, this`console
      ensures raised <==> chosen != "" && fault == Unencodable
      ensures chosen == "" ==> form == old(form) && settingsFile == old(settingsFile) && console == old(console)
      ensures chosen != "" ==>
        && form == old(form).(driverPath := normalised)
        && settingsFile == SavedFile(old(settingsFile), form, fault)
        && console == old(console) + SaveReport(fault)
    {
      raised := false;
      if chosen != "" {
        form := form.(driverPath := normalised);
        raised := SaveSettings(fault);
      }
    }

    /**
     * start_automation, pressed while the Start button is enabled, with
     * `pathExists` for whether the path names an existing file and
     * `dirError` for whether creating the logs directory raises. A valid
     * start sets the flag and the buttons, saves the form, clears the console
     * (so a save error written just before is lost), creates the logs
     * directory and starts the background thread. An exception from the
     * save or from creating the directory leaves the method (`raised`)
     * before the thread starts, and the run stays active with no thread.
     */
    method StartAutomation(pathExists: bool, fault: SaveFault, dirError: bool) returns (raised: bool)
      requires Valid() && worker == Idle && run.startEnabled
      modifies this`run, this`settingsFile, this`console, this`logDirExists, this`worker
      ensures Valid()
      ensures run == Start(old(run), form.driverPath != "" && pathExists)
      ensures raised <==> form.driverPath != "" && pathExists && (fault == Unencodable || dirError)
      ensures raised ==> run.running && worker == Idle
      ensures if form.driverPath == "" || !pathExists then
          settingsFile == old(settingsFile) && console == old(console)
          && logDirExists == old(logDirExists) && worker == Idle
        else if fault == Unencodable then
          settingsFile == Some("") && console == old(console)
          && logDirExists == old(logDirExists) && worker == Idle
        else
          && settingsFile == SavedFile(old(settingsFile), form, fault) && console == ""
          && logDirExists == (old(logDirExists) || !dirError)
          && worker == (if dirError then Idle else Launching)
    {
      raised := false;
      if form.driverPath == "" || !pathExists {
        run := run.(status := InvalidPathStatus);
        return;
      }
      run := run.(startEnabled := false, stopEnabled := true, status := RunningStatus, running := true);
      raised := SaveSettings(fault);
      if raised {
        return;
      }
      console := "";
      if dirError {
        raised := true;
        return;
      }
      logDirExists := true;
      worker := Launching;
    }

    /**
     * stop_automation: with a process and an active run, notes the stop in the
     * console, clears the flag, asks for the child's process tree to be
     * killed and re-enables Start.
     */
    method StopAutomation()
      requires Valid()
      modifies this`run, this`process, this`console
      ensures Valid()
      ensures run == Stop(old(run), old(process).Some?)
      ensures old(process.Some? && run.running) ==>
        console == old(console) + StopNotice && process == Some(old(process.value).(killRequested := true))
      ensures !old(process.Some? && run.running) ==> console == old(console) && process == old(process)
    {
      if process.Some? && run.running {
        console := console + StopNotice;
        run := run.(running := false);
        process := Some(process.value.(killRequested := true));
        run := run.(status := StoppedStatus, stopEnabled := false, startEnabled := true);
      }
    }

    /** The finally block: the run is over and the buttons return to their idle states. */
    method EndRun()
      modifies this`run, this`worker
      ensures run == Reset(old(run)) && worker == Idle
    {
      run := run.(running := false, startEnabled := true, stopEnabled := false);
      worker := Idle;
    }

    /** An exception in the background thread: its message becomes the status, then the finally block runs. */
    method WorkerFail(msg: string)
      requires Valid() && worker != Idle
      modifies this`run, this`worker
      ensures Valid()
      ensures run == Fail(old(run), msg) && worker == Idle
    {
      run := run.(status := ErrorStatus(msg));
      EndRun();
    }

    /**
     * The background thread starts the child with the command built from the
     * form as it is now; `popenError` is the exception starting it raises, if
     * any.
     */
    method WorkerLaunch(python: string, scriptPath: string, popenError: Option<string>)
      requires Valid() && worker == Launching
      modifies this`process, this`run, this`worker
      ensures Valid()
      ensures popenError != None ==>
        run == Fail(old(run), popenError.value) && process == old(process) && worker == Idle
      ensures popenError == None ==>
        && process == Some(Child(Command(python, scriptPath, form), false, None))
        && run == old(run) && worker == Relaying
    {
      if popenError.Some? {
        WorkerFail(popenError.value);
        return;
      }
      process := Some(Child(Command(python, scriptPath, form), false, None));
      worker := Relaying;
    }

    /**
     * The background thread copies the child's output into the console line
     * by line, as text mode reads it, and leaves the loop at the first line
     * it reads after the run was stopped.
     */
    method WorkerRelay(output: string)
      requires Valid() && worker == Relaying
      modifies this`console, this`worker
      ensures Valid()
      ensures worker == Waiting
      ensures console == old(console) + (if run.running then TranslateNewlines(output) else "")
    {
      var relayed := RelayLines(ReadLines(output), run.running);
      console := console + relayed;
      worker := Waiting;
    }

    /** The child exited with `exitCode`: the outcome is reported unless the run was stopped, then the finally block runs. */
    method WorkerFinish(exitCode: int)
      requires Valid() && worker == Waiting
      modifies this`process, this`run, this`worker
      ensures Valid()
      ensures run == Finish(old(run), exitCode) && worker == Idle
      ensures process == Some(old(process.value).(returnCode := Some(exitCode)))
    {
      process := Some(process.value.(returnCode := Some(exitCode)));
      if run.running {
        if exitCode == 0 {
          run := run.(status := CompletedStatus);
        } else {
          run := run.(status := FailedStatus(exitCode));
        }
      }
      EndRun();
    }
  }

  /**
   * The relay loop of the background thread over the lines it reads: each
   * line is copied while the run is active, and the loop is left at the
   * first line read once it is not.
   */
  method RelayLines(lines: seq<string>, running: bool) returns (relayed: string)
    ensures relayed == if running then Concat(lines) else ""
  {
    relayed := "";
    var i := 0;
    while i < |lines|
      invariant 0 <= i <= |lines|
      invariant relayed == if running then Concat(lines[..i]) else ""
    {
      if !running {
        break;
      }
      ConcatSnoc(lines[..i], lines[i]);
      assert lines[..i + 1] == lines[..i] + [lines[i]];
      relayed := relayed + lines[i];
      i := i + 1;
    }
    if running {
      assert lines[..|lines|] == lines;
    }
  }

  /** load_settings on the text of an existing file, from the form `prior`. */
  method ReadSettings(prior: Settings, text: string) returns (s: Settings, error: Option<string>)
    ensures Load(prior, ReadLines(text)) == Loaded(s, error)
  {
    var d := BuildSettingsDict(ReadLines(text));
    s, error := AssignSettings(prior, d);
  }

  /**
   * The assignments of load_settings from the dictionary `d`, in source
   * order, starting from the form `prior`: an unparsable count stops them
   * with its error, and the later fields keep their values.
   */
  method AssignSettings(prior: Settings, d: map<string, string>) returns (s: Settings, error: Option<string>)
    ensures LoadFrom(prior, d) == Loaded(s, error)
  {
    s := prior;
    error := None;
    s := s.(driverPath := Get(d, "driver_path", ""));
    var desktop := CountField(d, "desktop_count", 30);
    if desktop.None? {
      error := Some(BadIntMessage(d["desktop_count"]));
      return;
    }
    s := s.(desktopCount := desktop.value);
    var mobile := CountField(d, "mobile_count", 20);
    if mobile.None? {
      error := Some(BadIntMessage(d["mobile_count"]));
      return;
    }
    s := s.(mobileCount := mobile.value);
    s := s.(headless := Get(d, "headless", "True") == "True");
  }

  /** What load_settings adds to the console: the error that stopped the load, if one did. */
  function LoadReport(r: Loaded): string {
    if r.error.Some? then ErrorLine(LoadErrorPrefix, r.error.value) else ""
  }
}
