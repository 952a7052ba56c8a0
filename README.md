# Bing Rewards Farmer, modelled in Dafny

The repository has two programs:

- **bing_rewards_app.py** is a Tk window, the Control Shell. It holds a
  form with four fields: the Edge WebDriver path, the number of desktop
  searches, the number of mobile searches and a "Run in Background" box.
  It also has a console, a status line and the Start and Stop buttons. It
  keeps the form in `bing_rewards_settings.txt`. Start launches the worker
  script as a child process on a background thread and copies the child's
  output into the console. When the child exits, the window reports the
  outcome. On Windows, Stop kills the child's process tree with `taskkill`.
- **bing_rewards_automation.py** is the worker. It opens Edge on Bing. If
  the logged-in marker is missing, it lets the user log in by hand. It then
  captures the session cookies and runs the desktop searches. Each search
  is a query made of a fixed prefix and one to three random words, submitted
  when the search box appears and followed by a random delay. Next it
  closes the browser. When mobile searches are requested, it opens a mobile
  browser, replays the cookies into it and runs the mobile searches.

The Dafny project has five modules:

- `Optional` defines the `Option` datatype.
- `PyText` models the Python string operations the programs rely on:
  `str.isspace`, `strip()`, `find`, `split`, `join`, `str(int)`, `int(str)`
  and the lines a text-mode file yields when iterated.
- `SettingsFile` models the settings file: how it is written, the
  dictionary built from it, and the field-by-field load that stops at the
  first bad count.
- `ControlShell` models the window. It has the worker's command line, the
  run control (as functions on a `RunState` value with lemmas about them),
  and a class `App` whose methods change the window's fields as those
  functions say. The background thread is split into three steps (launch,
  relay the output, wait for the exit) so that Stop can happen between them.
- `Worker` models the worker as the trace of events it logs and performs.
  It has the search loop `PerformSearches`, the whole script `RunScript`,
  and lemmas about counts, order and cookies in the trace.

Every outcome from outside is an input of the model:

- whether a path exists;
- the error that opening the settings file raises, and whether the driver
  path can be written in the locale's encoding;
- whether creating the logs directory raises;
- what the file dialog returns, and the normalised path;
- the exception that starting the child raises;
- the child's output and its exit code;
- whether the logged-in marker appears;
- the cookies the browser returns;
- each iteration's prefix, words and whether the search box was found.

## Model

| member | source | states |
|---|---|---|
| SettingsFile.Render | bing_rewards_app.py:100-104 | The save writes exactly four lines. The last line is `headless=True` or `headless=False`, following the box. |
| SettingsFile.Line | bing_rewards_app.py:101-104 | Each written line is the key, `=`, the value and one newline. |
| SettingsFile.Entry | bing_rewards_app.py:112 | A line holding `=` is stripped and split at its first `=`, so the key holds no `=` (the value may). |
| SettingsFile.SettingsDict | bing_rewards_app.py:112 | The dictionary built from the lines has no key holding `=`. |
| SettingsFile.DictLastWins | bing_rewards_app.py:112 | A key is in the settings dictionary exactly when some line holding `=` defines it. Its value is the one from the last line defining it. |
| SettingsFile.BuildSettingsDict | bing_rewards_app.py:112 | The comprehension, run as a loop over the lines, builds the dictionary defined by SettingsDict. |
| SettingsFile.DictSnoc | bing_rewards_app.py:112 | One more line adds its entry over the earlier ones when it holds `=`, and changes nothing otherwise. |
| SettingsFile.LookupUnique | bing_rewards_app.py:112 | A key defined by exactly one line has that line's value. |
| SettingsFile.EntryOfLine | bing_rewards_app.py:101-112 | A written `key=value` line reads back as the entry (key, value) when the value has no trailing whitespace. |
| SettingsFile.RenderedDict | bing_rewards_app.py:98-112 | The four written lines read back as a dictionary holding exactly the four fields' texts. |
| SettingsFile.RenderedLinesWhole | bing_rewards_app.py:101-104 | Every written line is one whole line without a carriage return, given a path without line breaks. |
| SettingsFile.LoadRoundTrip | bing_rewards_app.py:98-116 | Saving and then loading restores the path, both counts and the headless flag exactly, whatever the form held before. This needs a path with no line break and no trailing whitespace. |
| SettingsFile.FileTextNotEmpty | bing_rewards_app.py:100-104 | A saved file is never empty, so a file emptied by a failed save cannot be mistaken for a save. |
| SettingsFile.LoadEmptied | bing_rewards_app.py:108-116 | An empty settings file, as a save that raised before its first write leaves it, loads as "", 30, 20 and True with no error. |
| SettingsFile.LoadRendered | bing_rewards_app.py:113-116 | The dictionary of a written file assigns every field its saved value, with no error. |
| SettingsFile.Load | bing_rewards_app.py:111-118 | A load sets the path to the file's `driver_path` entry, or "" without one. It can fail only when the file has a count entry. |
| SettingsFile.LoadFrom | bing_rewards_app.py:113-118 | The path is always assigned from the dictionary. The load fails exactly when one of the counts does not parse, and then the mobile count and the headless flag keep their values. Without an error, each count is int() of its own entry, or 30 and 20 when that entry is absent, and headless is set exactly when its entry is "True" or absent. |
| SettingsFile.CountFieldOf | bing_rewards_app.py:114-115 | A count stored as the text of n is read back by int() as n. |
| SettingsFile.LoadDefaults | bing_rewards_app.py:113-116 | When the file defines none of the four keys, the fields become "", 30, 20 and True. |
| SettingsFile.LoadHeadless | bing_rewards_app.py:116 | After a load without error, headless is true exactly when its entry is absent or is the string "True". |
| SettingsFile.LoadStopsAtDesktop | bing_rewards_app.py:113-118 | An unparsable desktop count stops the load with int()'s ValueError. Only the path has been assigned. |
| SettingsFile.LoadStopsAtMobile | bing_rewards_app.py:113-118 | An unparsable mobile count after a good desktop count stops the load. The path and the desktop count have been assigned. |
| SettingsFile.LoadOutcome | bing_rewards_app.py:113-118 | Whether a load fails does not depend on the earlier form. A successful load determines every field. A failed load keeps the earlier mobile count and headless flag. |
| PyText.TrimLeft | bing_rewards_app.py:112 | Leading whitespace of the given kind (str.strip()'s or int()'s) is dropped. The result is no longer and starts with a non-space. |
| PyText.TrimRight | bing_rewards_app.py:112 | Trailing whitespace is dropped. The result is no longer and ends with a non-space. |
| PyText.TrimLeftSuffix | bing_rewards_app.py:112 | What remains after dropping leading whitespace is a suffix of the line. |
| PyText.TrimLeftDropsSpaces | bing_rewards_app.py:112 | Every character dropped from the front is whitespace. |
| PyText.TrimRightPrefix | bing_rewards_app.py:112 | What remains after dropping trailing whitespace is a prefix of the line. |
| PyText.TrimRightDropsSpaces | bing_rewards_app.py:112 | Every character dropped from the end is whitespace. |
| PyText.Strip | bing_rewards_app.py:112 | strip() leaves no whitespace of its kind at either end, and the result is no longer. |
| PyText.StripKeeps | bing_rewards_app.py:112 | strip() keeps every non-whitespace character, so it keeps the `=` the filter saw. |
| PyText.StripFrom | bing_rewards_app.py:112 | Every character of strip(s) comes from s. |
| PyText.StripUnchanged | bing_rewards_app.py:112 | A string with no whitespace at either end is its own strip(). |
| PyText.StripNewlineTerminated | bing_rewards_app.py:112 | strip() of a written line removes exactly its newline. |
| PyText.IndexOf | bing_rewards_app.py:112 | The first occurrence of the separator, or the length when there is none. Nothing before it is the separator. |
| PyText.IndexOfAfter | bing_rewards_app.py:112 | The first `=` of `key=value` is the one right after the key, when the key holds no `=`. |
| PyText.SplitOn | bing_rewards_automation.py:60 | split(sep) gives at least one piece. No piece holds the separator, and joining the pieces gives the text back. |
| PyText.SplitJoin | bing_rewards_automation.py:59-60 | Splitting a join gives the pieces back when no piece holds the separator. |
| PyText.Join | bing_rewards_automation.py:59 | When no piece holds the separator, it occurs in the join exactly when there are two pieces or more. |
| PyText.JoinLeads | bing_rewards_automation.py:59-60 | A join leads with its first piece. |
| PyText.ConcatSnoc | bing_rewards_app.py:166-168 | Appending one more line to the console adds it at the end. |
| PyText.NatToDigits | bing_rewards_app.py:152-153 | str() of a natural number is a non-empty run of digits with no leading zero, and its value is the number. |
| PyText.IntToString | bing_rewards_app.py:102-103 | str() of an integer is non-empty, starts with no space and ends with a digit. It holds no line break and no `=`. |
| PyText.DigitsAreRun | bing_rewards_app.py:114-115 | A non-empty string of plain digits is a literal int() accepts. |
| PyText.ParseDigits | bing_rewards_app.py:114-115 | int() reads plain digits as their value. |
| PyText.ParseNegDigits | bing_rewards_app.py:114-115 | int() reads a minus sign followed by digits as minus their value. |
| PyText.ParseMinus | bing_rewards_app.py:114-115 | A stripped minus sign followed by a digit run reads as minus the run's value. |
| PyText.ParseIntRoundTrip | bing_rewards_app.py:102-115 | int(str(n)) == n for every integer. |
| PyText.ParseIntNeedsDigit | bing_rewards_app.py:114-117 | int() raises ValueError on text holding no digit at all. |
| PyText.ParseInt | bing_rewards_app.py:114-117 | A literal int() accepts ends in a digit once int()'s whitespace is stripped. |
| PyText.SeparatorsNotIntSpace | bing_rewards_app.py:112-115 | The separators U+001C to U+001F are stripped by str.strip() but make int() raise ValueError. |
| PyText.TranslateNewlines | bing_rewards_app.py:161-163 | Text mode leaves no carriage return, and leaves text without one unchanged. |
| PyText.SplitLines | bing_rewards_app.py:112 | File iteration cuts text into non-empty lines that give the text back. Every line but the last ends in its only newline. |
| PyText.FirstLineEnd | bing_rewards_app.py:112 | The first line ends just after the first newline, or at the end of the text. |
| PyText.ConcatCons | bing_rewards_app.py:166-168 | The text of a line followed by more lines is that line followed by their text. |
| PyText.ReadLines | bing_rewards_app.py:161-168 | The lines read from a text hold all of it with line ends translated. Every line is non-empty and free of carriage returns, and all but the last are whole lines. |
| PyText.SplitConcat | bing_rewards_app.py:100-112 | Whole lines written one after another are read back as exactly those lines. |
| PyText.ReadLinesConcat | bing_rewards_app.py:100-112 | A file made of whole lines reads back as exactly those lines. |
| ControlShell.Command | bing_rewards_app.py:149-158 | The command has 11 elements with the box ticked and 10 without. It starts with the interpreter and the script. |
| ControlShell.CommandParts | bing_rewards_app.py:149-158 | The interpreter and script are followed by the four options with their values, then `--headless` exactly when the box is ticked. |
| ControlShell.Options | bing_rewards_app.py:149-155 | The four options each name one the worker's parser defines. The path is passed verbatim and the log directory is `logs`. |
| ControlShell.CommandCarriesForm | bing_rewards_app.py:149-158 | The command carries the path verbatim and each count as text that int() reads back as the same number. `--log-dir logs` follows, and `--headless` comes last exactly when the box is ticked. |
| ControlShell.DesktopArgument | bing_rewards_app.py:152 | The value after `--desktop` reads back as the desktop count. |
| ControlShell.MobileArgument | bing_rewards_app.py:153 | The value after `--mobile` reads back as the mobile count. |
| ControlShell.CommandOptions | bing_rewards_app.py:149-158 | Every option in the command except the trailing `--headless` is one the worker's parser defines. `--headless` is not one of them. |
| ControlShell.TransitionsKeepConsistent | bing_rewards_app.py:129-183 | Start, Stop, the child's exit and an exception all keep Start enabled exactly when no run is active, and Stop exactly when one is. |
| ControlShell.Start | bing_rewards_app.py:132-140 | Start with an invalid path sets the error status and changes nothing else. A valid one begins a run, with the status "Running...", Start disabled and Stop enabled. |
| ControlShell.Stop | bing_rewards_app.py:120-130 | Stop changes something exactly when there is a process and an active run. Then the run is over, the status is "Stopped by user", Start is enabled and Stop disabled. |
| ControlShell.StopIdempotent | bing_rewards_app.py:120-130 | A second Stop changes nothing. |
| ControlShell.Reset | bing_rewards_app.py:180-183 | The finally block ends the run and returns the buttons to their idle states. It keeps the status. |
| ControlShell.Finish | bing_rewards_app.py:171-183 | After the child's exit the run is over with Start enabled. A stopped run keeps its status. |
| ControlShell.Fail | bing_rewards_app.py:178-183 | After an exception the run is over with Start enabled, and the status is the exception's message. |
| ControlShell.StoppedRunKeepsStatus | bing_rewards_app.py:128-173 | After a Stop, the child's exit leaves "Stopped by user" in place, whatever the exit code. |
| ControlShell.FinishReportsOutcome | bing_rewards_app.py:173-177 | A run that was not stopped reports success exactly when the exit code is 0. Otherwise it reports the failure with the code. |
| ControlShell.FailedStatusNamesCode | bing_rewards_app.py:177 | Two different exit codes give two different failure texts. |
| ControlShell.SavedFile | bing_rewards_app.py:98-106 | A save writes the four lines. An error opening the file leaves it as it was. A path the encoding cannot write leaves it empty. |
| ControlShell.SaveReport | bing_rewards_app.py:105-106 | The console gains a line exactly when opening the file failed, and that line reports the error. |
| ControlShell.StuckRun | bing_rewards_app.py:120-144 | A start that raised after setting the flag leaves Start disabled. With no process, Stop changes nothing. Only a process from an earlier run lets Stop end the run. |
| ControlShell.App.constructor | bing_rewards_app.py:11-87 | The window starts with no process and no run, status "Ready", Start enabled and Stop disabled, and a form of "", 30, 20 and True. Then it loads the settings file if one exists. |
| ControlShell.App.Edit | bing_rewards_app.py:41-62 | The user's edits replace the form's four values. |
| ControlShell.App.SaveSettings | bing_rewards_app.py:98-106 | The file becomes the four written lines. An error opening it leaves it unchanged and is appended to the console. A path the locale's encoding cannot write empties the file, reports nothing, and the UnicodeEncodeError leaves the method. |
| ControlShell.App.LoadSettings | bing_rewards_app.py:108-118 | With no file, nothing changes. An error opening the file is reported. Otherwise the form becomes the load's result and its ValueError, if any, is reported in the console. |
| ControlShell.App.BrowseDriver | bing_rewards_app.py:92-106 | A cancelled dialog changes nothing. A chosen file sets the path to its normalised form and saves, with each of the save's outcomes, the escaping UnicodeEncodeError included. |
| ControlShell.App.StartAutomation | bing_rewards_app.py:132-144 | The run state moves as Start says. An invalid path touches nothing else. A valid start saves the form, clears the console, creates the logs directory and starts the thread. A save that raises stops it before the console is cleared; a failing `os.makedirs` stops it before the thread starts. Either way the run stays active with no thread. |
| ControlShell.App.StopAutomation | bing_rewards_app.py:120-130 | The run state moves as Stop says. With a process and an active run, the stop notice is appended to the console and a kill is requested for the child. Otherwise nothing changes. |
| ControlShell.App.EndRun | bing_rewards_app.py:180-183 | The finally block: the run flag is cleared and the buttons return to their idle states. |
| ControlShell.App.WorkerFail | bing_rewards_app.py:178-183 | An exception's message becomes the status, then the finally block runs. |
| ControlShell.App.WorkerLaunch | bing_rewards_app.py:148-183 | The child is started with the command built from the form as it is now. If starting it raises, the error path runs. |
| ControlShell.App.WorkerRelay | bing_rewards_app.py:166-169 | The console gains the child's output, with line ends translated, while the run is active. Nothing is copied once it is stopped. |
| ControlShell.App.WorkerFinish | bing_rewards_app.py:171-183 | The exit code is recorded and the run state moves as Finish says. |
| ControlShell.RelayLines | bing_rewards_app.py:166-169 | The relay loop copies every line while the run is active and leaves at the first line once it is not. |
| ControlShell.ReadSettings | bing_rewards_app.py:111-116 | Reading the file's text gives the fields and the error that Load defines. |
| ControlShell.AssignSettings | bing_rewards_app.py:113-116 | The assignments, in source order, give the fields and the error that LoadFrom defines. |
| Worker.MatchPrefix | bing_rewards_automation.py:53-60 | A found prefix followed by a space starts the query. When there is none, no prefix from there on does. |
| Worker.PrefixesDistinct | bing_rewards_automation.py:53 | No query built from one prefix starts with another prefix and a space. |
| Worker.QueryRoundTrip | bing_rewards_automation.py:53-60 | A query gives back its prefix and its one to three words when no word holds a space. |
| Worker.PerformSearches | bing_rewards_automation.py:45-86 | The loop logs exactly the phase's trace. The counter ends equal to the number of searches. |
| Worker.AttemptCounts | bing_rewards_automation.py:61-75 | Attempt: an iteration logs its counter in a "Searched" line exactly when its query was submitted. |
| Worker.AttemptsCounts | bing_rewards_automation.py:56-79 | Over the first k iterations, the "Searched" counters are the numbers of the submitted iterations. |
| Worker.SearchCountsAreFound | bing_rewards_automation.py:54-79 | The "(k/N) Searched" lines carry exactly the numbers of the iterations whose box was found, in order. The counter counts failed iterations too. |
| Worker.FoundIsIncreasing | bing_rewards_automation.py:54-61 | Those numbers increase strictly, lie in 1..N, and are exactly the submitted iterations. |
| Worker.AttemptTally | bing_rewards_automation.py:66-84 | Attempt: an iteration ends with one delay. It logs one error exactly when its search failed. |
| Worker.AttemptsDelays | bing_rewards_automation.py:56-84 | k iterations wait k times. |
| Worker.AttemptsErrors | bing_rewards_automation.py:66-79 | Over k iterations, the errors and the submitted searches add up to k. |
| Worker.SearchPhaseCounts | bing_rewards_automation.py:56-84 | A phase of N searches waits N times, and every iteration logs either one search or one error. |
| Worker.WaitsConcat | bing_rewards_automation.py:56-84 | Iterations run one after another keep every search, page wait and error followed by its wait. |
| Worker.AttemptWaits | bing_rewards_automation.py:71-84 | Within an iteration, the logged search is followed by the page wait, and the page wait or the error by the delay. |
| Worker.AttemptsWait | bing_rewards_automation.py:56-84 | The same holds for the first k iterations. |
| Worker.SearchPhaseShape | bing_rewards_automation.py:46-86 | A phase starts with its announcement and the separator and ends with its completion line, each occurring once. Every search, page wait and error in it is followed by its wait. |
| Worker.AttemptsEvents | bing_rewards_automation.py:56-84 | The iterations log only searches, page waits, errors and delays. Every search names the phase's kind and total. |
| Worker.SearchTraceEvents | bing_rewards_automation.py:45-86 | A phase logs only search events, and every logged search belongs to it. |
| Worker.AttemptsQueries | bing_rewards_automation.py:57-75 | Each logged search shows the query built from its own iteration's choices. |
| Worker.SearchQueries | bing_rewards_automation.py:53-75 | Each logged search shows its iteration's query. That query gives back the iteration's prefix and words. |
| Worker.ApplyCookies | bing_rewards_automation.py:121-127 | The mobile browser opens on Bing and adds every captured cookie, in order. |
| Worker.RunScript | bing_rewards_automation.py:88-135 | The script's events: it opens the browser, logs in if needed, captures the cookies and runs the desktop phase when its count is positive. Then it closes the browser, runs the mobile session when asked, and completes. |
| Worker.ScriptTrace | bing_rewards_automation.py:88-135 | The script's log starts with the start line and ends with the completion line. |
| Worker.PhaseIsPhaseLog | bing_rewards_automation.py:110-130 | A phase with a positive count is announced. Otherwise it logs nothing. |
| Worker.CookieEventsAreCookies | bing_rewards_automation.py:125-126 | Replaying the cookies only adds cookies. |
| Worker.MobilePartEvents | bing_rewards_automation.py:116-132 | The mobile part of a run holds only mobile-session events. |
| Worker.RunCaptureOnce | bing_rewards_automation.py:106-107 | A run captures the cookies exactly once. |
| Worker.RunDesktopClosedOnce | bing_rewards_automation.py:112-113 | A run closes the desktop browser exactly once. |
| Worker.RunCapture | bing_rewards_automation.py:106-111 | The capture happens once, before every search. |
| Worker.RunCaptureFirst | bing_rewards_automation.py:106-130 | No search comes before the capture. |
| Worker.RunDesktopClosed | bing_rewards_automation.py:110-121 | The desktop browser is closed once, after every desktop search and before the mobile browser opens. |
| Worker.RunDesktopSearchesFirst | bing_rewards_automation.py:110-112 | No desktop search comes after the desktop browser closes. |
| Worker.RunMobileAfterDesktop | bing_rewards_automation.py:112-121 | The mobile browser opens only after the desktop browser has closed. |
| Worker.RunMobileSession | bing_rewards_automation.py:116-132 | The mobile browser is opened and closed once when the mobile session runs, and never otherwise. |
| Worker.RunMobileCount | bing_rewards_automation.py:116-132 | Each of the mobile browser's opening and closing occurs once with the mobile session, and never without it. |
| Worker.AddedCookiesConcat | bing_rewards_automation.py:125-126 | The cookies added over two stretches are those of the first, then those of the second. |
| Worker.CookieEventsAdd | bing_rewards_automation.py:125-126 | Replaying the cookies adds exactly them, in order. |
| Worker.RunAddsCookies | bing_rewards_automation.py:106-127 | A run adds exactly the captured cookies, in order, when the mobile session runs, and none otherwise. |
| Worker.RunCookiesBeforeMobileSearches | bing_rewards_automation.py:125-130 | Every cookie is added before any mobile search. |
| Worker.RunCookiesAfterMobileOpened | bing_rewards_automation.py:121-126 | Cookies are added only once the mobile browser is open. |
| Worker.OpeningEndsOnBing | bing_rewards_automation.py:93-103 | After the login check, logged in or not, the browser shows Bing. |
| Worker.RunCapturesOnBing | bing_rewards_automation.py:93-106 | The cookies are captured while the desktop browser shows Bing. |
| Worker.RunAppliesOnBing | bing_rewards_automation.py:122-127 | The cookies are replayed while the mobile browser shows Bing. |
| Worker.RunLogin | bing_rewards_automation.py:96-103 | The manual login happens exactly when the logged-in marker was missing. |
| Worker.OpeningLogin | bing_rewards_automation.py:96-103 | The same holds for the opening of the run. |
| Worker.RunSearchesFromPhases | bing_rewards_automation.py:110-130 | Desktop searches come only from the desktop phase. Mobile searches come only from a mobile session. |
| Worker.ScriptPhases | bing_rewards_automation.py:110-130 | The two phases of the script log only events of their own kind. |
| Worker.ScriptOrder | bing_rewards_automation.py:106-121 | The script captures the cookies once, before any search. It closes the desktop browser once, after every desktop search and before the mobile browser opens. |
| Worker.ScriptSessions | bing_rewards_automation.py:109-132 | The desktop browser is quit exactly once, even with a count of 0. The mobile browser is opened and closed once exactly when mobile searches are requested. Each phase runs exactly when its count is positive. |
| Worker.ScriptCookies | bing_rewards_automation.py:106-130 | The mobile session receives exactly the captured cookies, in order. They arrive after its browser opens on Bing and before its first search. |
| Worker.ScriptLogin | bing_rewards_automation.py:95-106 | The login prompt appears exactly when the logged-in marker was missing. Either way, the cookies are captured on Bing. |

## Left out

- The Tk layout, the theme and the main loop (bing_rewards_app.py:27-90,185-189) are presentation only. The status line is a string and the buttons are booleans.
- The file dialog, `os.path.normpath` and `os.path.exists` are calls into the platform. Their results are parameters of BrowseDriver and StartAutomation.
- ControlShell.App.StopAutomation: follows the Windows branch (bing_rewards_app.py:124-125), where `taskkill` ends the child's process tree and never raises. It records only a kill request on the child. On other platforms `killpg` sends SIGTERM to the child's process group (bing_rewards_app.py:126-127). The child is started without a new session there, so that group is the window's own, and the window is terminated too. `killpg` on a child already reaped raises. Neither is modelled. The creation flags of `Popen` are left out.
- The background thread runs concurrently with the window, and the two race on `automation_running`. The model cuts the thread into launch, relay and exit steps, and Stop can happen only between them.
- ControlShell.App.WorkerRelay: Stop cannot happen in the middle of the relay, so the relay copies either all of the output or none of it.
- ControlShell.App.StartAutomation: requires that no earlier background thread is still running. Overlapping runs are concurrency and are not modelled. It also requires Start to be enabled, since a disabled button does not call it.
- The form's four Tk variables are grouped into one `Settings` value. The run flag, the status line and the two buttons are grouped into one `RunState` value. Each is assigned per field as the source does.
- ControlShell.App.Edit: a spin box holding text that is not an integer makes `IntVar.get` raise TclError. This is not modelled, so the counts are always integers.
- PyText.ParseInt accepts only ASCII digits. Python's int() also accepts other Unicode decimal digits. It also has no length limit: CPython (3.11 on, and the security releases of 3.8 to 3.10) raises ValueError when int() reads a literal of more than 4300 digits, so such a count in the file fails to load there and loads in the model.
- PyText.ParseIntRoundTrip: holds for every integer because the model has no digit limit. In CPython, str() of an integer with more than 4300 digits raises ValueError, and int() rejects such a literal. SettingsFile.CountFieldOf, SettingsFile.LoadRendered and SettingsFile.LoadRoundTrip inherit this: they hold only for counts under that size in CPython.
- ControlShell.App.SaveSettings: a count of more than 4300 digits makes the f-string of its line raise ValueError in CPython. That is not an IOError, so it escapes after the path line was written. The model has no such fault and writes the whole file.
- SettingsFile.BadIntMessage quotes the value in single quotes, where Python uses `repr()`. `repr()` switches quotes and escapes some characters, and CPython cuts the repr to 200 characters in this message.
- The I/O error texts are parameters; their wording is not modelled.
- An OSError while writing, after the file was opened (a full disk, say), is not modelled. Only an error opening the file and the encoding error of the path are.
- The default settings tick the headless box, so a default run passes `--headless`. The worker's parser does not define it and exits with code 2, so such a run reports "Failed (exit code 2)" through WorkerFinish. CommandOptions states the mismatch.
- Selenium, the Edge driver, the user agent, `RandomWords` and the logger's configuration are external. The browser's behaviour appears only as events and inputs.
- The random choices and their distribution (weights 0.7, 0.2 and 0.1, and the uniform delays) are left out. Each iteration's outcome is an input, and the length of each delay is left out.
- `time.sleep`, timestamps, the dated log file name and the log line formatting are left out.
- `RandomWords` returning None, and Selenium errors outside the search box, are not modelled; they would end the script.
- The command-line parsing of the worker (`argparse`, bing_rewards_automation.py:16-21) is left out. The worker defines no `--headless` option, while the window appends one when the box is ticked (bing_rewards_app.py:157-158). The model builds the command as the window does, and CommandOptions states the mismatch.
- Waiting for the user to press Enter after a manual login is modelled as one LoginConfirmed event.
