# guard-brakeman in Dafny

guard-brakeman is a Guard plugin that runs the Brakeman security scanner
over a Rails application and reports the results.

- On `start` it configures the scanner. It can run a full scan at once or
  announce that it is ready.
- On `run_all` it scans everything, prints the warnings and throws
  `:task_has_failed` when any remain.
- On `run_on_changes` it rescans the changed paths and prints the fixed, new
  and previous warnings. It may send a desktop notification, and it throws
  when warnings remain after the rescan.

A companion `Runner` module announces and performs a rescan of a path list.
It also assembles a command line from options and picks the platform's null
device.

The model covers the plugin object, its reports and the runner helpers:

- `text.dfy`: the string operations the code relies on, written out. These
  are integer rendering, `Array#join`, `String#index`, `String#chomp` and
  `Array#inspect`, plus a splitting function used as the inverse of `join`.
- `values.dfy`: the options hash, with Ruby truthiness and `to_s`.
- `findings.dfy`: a scanner warning, `decorate_warning` and the
  `sort_by { |w| w.confidence }` order. The method is proved against
  `DecoratedText`, and the sort is proved to give a permutation of the
  warnings in non-decreasing confidence.
- `reports.dfy`: the exact printout and notification of `print_failed` and
  `print_changed`, as functions from the warnings and options to a sequence
  of events. Lemmas state when a notification is sent and with which icon
  and title. They also state that each printed bucket lists its warnings as
  such a sorted permutation, and what the message says. The message is
  stated in full when output files are absent or an array; a truthy
  `output_files` of another kind is covered only by the chomp's bound.
- `guard.dfy`: the class `Guard`, whose fields are the plugin's options,
  scanner options, memoised tracker and the log of events. The constructor
  and the lifecycle methods change those fields in place. Each method's
  postcondition ties the new log and state to the functions of
  `reports.dfy`.
- `runner.dfy`: `run` as a function returning what it prints, whether it
  rescans and runs checks, and what it returns. It also holds
  `brakeman_command` as a method that appends the command's words one by one,
  the `bundler?` memo as the field of a class, and `null_device`.

Two behaviours of the code worth noting:

- With fixed warnings and previous warnings but no new ones, the
  notification icon is success, not pending. The success assignment at
  lib/guard/brakeman.rb:126 makes `icon ||= :pending` at line 148 a no-op.
  `Reports.FixedBeatsExisting` states this case.
- `run_on_changes` does not treat an empty path list specially
  (lib/guard/brakeman.rb:79-85). Only `Runner.run` returns early on one.

## Model

| member | source | states |
|---|---|---|
| Findings.SortByConfidence | lib/guard/brakeman.rb:109 | the warnings are listed in non-decreasing confidence and are a permutation of the input |
| Findings.RelativeWarningPath | lib/guard/brakeman.rb:220-229 | a warning has no path exactly when it has no file |
| Findings.DecorateWarning | lib/guard/brakeman.rb:197-218 | the fragment-by-fragment build produces the confidence text, type and message, then the line, path and code fragments each present only when the warning has that datum |
| Findings.DecoratedFragments | lib/guard/brakeman.rb:207-216 | the line starts with the head; it ends with the code fragment when there is code, else with the path fragment when there is a file, else with the line fragment when there is a line; it is the bare head exactly when all three are absent |
| Reports.PluralizeWord | lib/guard/brakeman.rb:183-185 | the naive plural is the singular followed by one "s" |
| Reports.Pluralize | lib/guard/brakeman.rb:178-180 | a pluralized phrase always opens with the count, 0 for nil, and a space |
| Reports.PluralizeExplicit | lib/guard/brakeman.rb:178-179 | with an explicit plural, the phrase is the count and the singular when the count is one, and the count and the given plural otherwise |
| Reports.PluralizeCount | lib/guard/brakeman.rb:178-179 | the first word of a pluralized phrase reads back as the count, 0 for nil |
| Reports.PluralizeSingularIff | lib/guard/brakeman.rb:178-185 | without an explicit plural, the singular is used exactly when the count is one, else the singular plus "s" |
| Reports.Section | lib/guard/brakeman.rb:119-122 | an empty bucket prints nothing; a non-empty one prints one count line and one line per warning, and never notifies |
| Reports.SectionContent | lib/guard/brakeman.rb:119-122 | a non-empty bucket's first event is its pluralized count line in the bucket's colour; the rest is `WarningLines` of some ordering of the bucket that is sorted by confidence and a permutation of it |
| Reports.CountLine | lib/guard/brakeman.rb:119-146 | a bucket contributes a message part exactly when it is non-empty, and that part opens with its size and noun |
| Reports.Header | lib/guard/brakeman.rb:94 | the header is printed once, as a white info line, exactly when quiet is not set, and never notifies |
| Reports.WarningLines | lib/guard/brakeman.rb:191-195 | one printed line per warning and no notification |
| Reports.ReportWrites | lib/guard/brakeman.rb:170-176 | writing reports never notifies |
| Reports.FailedIcon | lib/guard/brakeman.rb:96 | the icon is failed exactly when warnings remain, else success |
| Reports.FailedNotification | lib/guard/brakeman.rb:93-110 | a full run notifies exactly when chatty and warnings remain; every notification carries the summary, the full-results title and the failed icon; the summary line is printed in either case |
| Reports.FailedMessage | lib/guard/brakeman.rb:97-102 | the summary opens with "N brakeman findings", N the number of filtered warnings; without output files it is exactly that, and with them it is that text directly followed by "\nResults written to " and the files' `to_s` |
| Reports.FailedNotice | lib/guard/brakeman.rb:104-106 | at most one notification, sent exactly when chatty and warnings remain, carrying the summary, the full-results title and the failed icon |
| Reports.FailedEvents | lib/guard/brakeman.rb:93-110 | the printout's length is that of the header, the report writes, the notice, the summary line and one line per filtered warning; the yellow summary line stands right before the warning lines |
| Reports.FailedEventsContent | lib/guard/brakeman.rb:93-110 | the printout opens with the header, followed by the report writes, and ends with `WarningLines` of some ordering of the filtered warnings that is sorted by confidence and a permutation of them |
| Reports.FailedMessageCount | lib/guard/brakeman.rb:97-102 | the summary's first word reads back as the number of filtered warnings, with or without the note on written reports |
| Reports.ChangedIcon | lib/guard/brakeman.rb:118-149 | the icon is failed iff new warnings exist; else success iff fixed ones exist; else pending iff previous ones exist; else none |
| Reports.ChangedTitle | lib/guard/brakeman.rb:156-163 | a title exists exactly when an icon does |
| Reports.ChangedPrintout | lib/guard/brakeman.rb:113-154 | the header, the three bucket sections and the report writes contain no notification |
| Reports.ChangedMessageParts | lib/guard/brakeman.rb:115-153 | the number of parts is one per non-empty bucket plus one when output files are set, and there are none exactly when all buckets are empty and no files are written |
| Reports.ChangedMessagePartsOrder | lib/guard/brakeman.rb:115-153 | the parts are, in order, the pluralized fixed, new and previous count lines of the non-empty buckets, then "\nResults written to " and the files' `to_s` when output files are set |
| Reports.ChangedMessage | lib/guard/brakeman.rb:166 | the notified message is the parts joined by ", ", with either nothing or one final "\n", "\r" or "\r\n" removed |
| Reports.ChangedAlert | lib/guard/brakeman.rb:116-147 | the alert is raised exactly when the icon is failed or success, or when it is pending in chatty mode |
| Reports.ChangedNotice | lib/guard/brakeman.rb:165-167 | at most one notification, sent exactly when notifications are on and the alert condition holds, carrying the message and the report's icon, which is always present |
| Reports.ChangedEvents | lib/guard/brakeman.rb:112-168 | the events are exactly the printout followed by `ChangedNotice`, one event longer exactly when the rescan notifies |
| Reports.ChangedNotification | lib/guard/brakeman.rb:115-166 | a rescan notifies iff notifications are on and there are fixed or new warnings, or previous ones in chatty mode; the notification is the last event, carries the chomped message, the icon `ChangedIcon` of the report and a title, and the title counts the bucket the icon stands for |
| Reports.ChangedMessageUnchomped | lib/guard/brakeman.rb:151-166 | when output files are unset or an array, the chomp removes nothing: the message is the parts joined by ", " |
| Reports.ChangedMessageExample | lib/guard/brakeman.rb:115-166 | one fixed and two previous warnings without output files give the message "1 fixed warning, 2 previous warnings" |
| Reports.FixedBeatsExisting | lib/guard/brakeman.rb:118-163 | one fixed and one previous warning give the success icon and the title "1 Warning fixed." |
| GuardPlugin.NormalizeCheckName | lib/guard/brakeman.rb:18-23 | a skipped check's name always starts with "Check"; it is unchanged iff it already did, else it is "Check" followed by the name |
| GuardPlugin.NormalizeSkipChecks | lib/guard/brakeman.rb:18-23 | the list keeps its length and each name is normalised in place |
| GuardPlugin.NormalizeSkipChecksIdempotent | lib/guard/brakeman.rb:18-23 | normalising the list twice is normalising it once, keeps the length and order, and every result starts with "Check" |
| GuardPlugin.Defaults | lib/guard/brakeman.rb:36-42 | the defaults set exactly notifications and support_rescanning on, run_on_start, chatty and quiet off, and min_confidence 2 |
| GuardPlugin.ConstructedOptions | lib/guard/brakeman.rb:36-43 | the constructed options have exactly the default keys and the user's keys |
| GuardPlugin.ConstructedOptionsProperties | lib/guard/brakeman.rb:18-43 | user values win except that a set skip_checks list becomes its normalised list and a truthy chatty forces notifications on; unset keys keep their defaults, and notifications defaults to true |
| GuardPlugin.WithAppPath | lib/guard/brakeman.rb:44 | the keys are the options' keys plus the app path; every option keeps its value, and the app path is "." unless the options give one |
| GuardPlugin.MemoTracker | lib/guard/brakeman.rb:89-91 | a tracker exists afterwards, and an existing tracker is kept |
| GuardPlugin.HaltIf | lib/guard/brakeman.rb:71 | the cycle halts exactly when warnings remain, and otherwise ends normally |
| GuardPlugin.RescanningLine | lib/guard/brakeman.rb:81 | the line is two line breaks and "rescanning ", then the paths shown by `Inspect`, then ", running all checks" |
| GuardPlugin.RescanEvents | lib/guard/brakeman.rb:80-84 | unless quiet, the rescanning line comes first; the events end with the rescan report's `ChangedEvents`, and there is exactly one event more than those unless quiet |
| GuardPlugin.Guard.constructor | lib/guard/brakeman.rb:13-45 | the options become the normalised user options merged over the defaults; the scanner options are the library's reading of them with an app path; no tracker and nothing printed yet |
| GuardPlugin.Guard.EnsureTracker | lib/guard/brakeman.rb:89-91 | the tracker is created on first use only |
| GuardPlugin.Guard.WarningInfo | lib/guard/brakeman.rb:191-195 | the loop prints exactly `WarningLines` of the warnings, in order |
| GuardPlugin.Guard.WriteReport | lib/guard/brakeman.rb:170-176 | the loop writes the i-th output file with the i-th format, for every file in order |
| GuardPlugin.Guard.PrintFailed | lib/guard/brakeman.rb:93-110 | the log grows by exactly `FailedEvents` of the filtered warnings |
| GuardPlugin.Guard.PrintSection | lib/guard/brakeman.rb:119-124 | a non-empty bucket prints its count line and its warnings by confidence and yields the count line; an empty bucket prints nothing |
| GuardPlugin.AlertAndIcon | lib/guard/brakeman.rb:116-148 | the bucket-by-bucket updates leave the alert flag equal to `ChangedAlert` and the icon equal to `ChangedIcon`: failed iff new warnings, else success iff fixed ones, else pending iff previous ones |
| GuardPlugin.Guard.PrintBuckets | lib/guard/brakeman.rb:113-149 | after the three bucket blocks the message, alert flag and icon equal `CountLine`s, `ChangedAlert` and `ChangedIcon`, and the log grows by the header and the three sections |
| GuardPlugin.Guard.PrintChanged | lib/guard/brakeman.rb:112-168 | the log grows by exactly `ChangedEvents` of the report |
| GuardPlugin.Guard.RunAll | lib/guard/brakeman.rb:66-72 | it fails with "no scanner opts (start not called?)!" and changes nothing without scanner options; otherwise it processes the tracker once, prints the full report and halts iff filtered warnings remain |
| GuardPlugin.Guard.RunOnChanges | lib/guard/brakeman.rb:79-85 | without checks it behaves as `RunAll`; otherwise it prints the rescanning line (unless quiet) and the rescan report, and halts iff the report has any warnings |
| GuardPlugin.Guard.Start | lib/guard/brakeman.rb:51-60 | the scanner options are reset and merged into the options; then it behaves as `RunAll` when run_on_start is set, or else sends the ready notification with the pending icon only when chatty |
| BrakemanRunner.RunMessage | lib/guard/brakeman/runner.rb:23 | a set message option is the announcement; otherwise it is the whole-project text exactly when the paths are ["."], and else opens with "Run brakeman checks " |
| BrakemanRunner.Run | lib/guard/brakeman/runner.rb:20-32 | an empty path list returns false with no output, rescan or checks; otherwise it announces `RunMessage` and rescans; a reported change runs the checks and is returned, and no change returns nil without checks |
| BrakemanRunner.RunMessageWords | lib/guard/brakeman/runner.rb:23 | without a message option, for a non-empty list of paths without spaces other than ["."], the announcement's words are "Run brakeman checks" followed by the paths |
| BrakemanRunner.CommandParts | lib/guard/brakeman/runner.rb:46-52 | the command has one to five words before the paths, one of them "brakeman" |
| BrakemanRunner.CommandPartsOrder | lib/guard/brakeman/runner.rb:46-52 | the rvm wrapper, then the bundler wrapper, then "brakeman", then the cli text right after it, then "-o output" last, each optional part present exactly when its option is set |
| BrakemanRunner.CommandIgnoresNotification | lib/guard/brakeman/runner.rb:54-60 | the notification option never changes the command |
| BrakemanRunner.CommandEndsWithPaths | lib/guard/brakeman/runner.rb:62 | for a non-empty list of paths without spaces, the command's last words are the paths, in their given order |
| BrakemanRunner.Runner.Bundler | lib/guard/brakeman/runner.rb:69-71 | a found Gemfile is remembered, and a missing one is probed again |
| BrakemanRunner.Runner.BrakemanCommand | lib/guard/brakeman/runner.rb:45-63 | the appended words are `CommandParts`, joined with the paths by single spaces, and the bundler memo is updated by the probe |
| BrakemanRunner.NullDevice | lib/guard/brakeman/runner.rb:77-79 | "NUL" exactly when the platform string contains "mswin", "/dev/null" otherwise |
| Text.Chomp | lib/guard/brakeman.rb:166 | chomp removes a final "\r\n", else a final "\n" or "\r", and leaves any other string unchanged |
| Text.Inspect | lib/guard/brakeman.rb:81 | an inspected array opens with "[" and closes with "]" |
| Text.InspectShows | lib/guard/brakeman.rb:81 | the empty array shows as "[]", and one or two strings show quoted, in order, separated by ", " |
| Text.Index | lib/guard/brakeman/runner.rb:78 | the index exists exactly when the pattern occurs, and it is the first occurrence |

## Left out

- The Brakeman library is outside the model. That covers `set_options`, `Scanner#process`, `run_checks`, `filter_warnings`, `rescan`, `tracker.report` and `TEXT_CONFIDENCE`.
  - `set_options` and the confidence labels are functions supplied with the plugin (`Library`).
  - The filtered warnings of a full run, whether the tracker has run its checks, and the rescan report are inputs of the methods.
  - `format_code` is taken as the already formatted `code` of a warning.
- Terminal colours are not modelled: the `UI.color` wrapping of a confidence label and of info lines. Each printed line records its colour name.
- Report files are not written. A `ReportWritten` event records the file and its format.
  - When `output_formats` has no entry for a file, the format is recorded as nil where the source would raise.
  - A truthy `output_files` that is not an array writes nothing, where the source would raise.
- `::Brakeman.instance_variable_set(:@quiet, ...)` is not modelled; it sets process-wide library state.
- The conversion of `url_safe_methods` to symbols is not modelled: symbols and strings are not distinguished, and keys are symbol names.
- Findings.SortByConfidence: modelled as a stable sort. Ruby's `sort_by` does not promise an order for warnings of equal confidence.
- Reports.Pluralize: only integer counts and the naive "+ s" plural are modelled. The string-count regular expression branch and ActiveSupport's `String#pluralize` are left out.
- Findings.RelativeWarningPath: the `relative_path` branch for scanners older than 4.5.1 is left out.
- Text.Inspect: strings are quoted without escaping.
- The `paths` interpolation in the rescanning line therefore shows paths as quoted, unescaped strings.
- GuardPlugin.Guard.constructor: requires a truthy `skip_checks` to be a list. A truthy `skip_checks` of another kind makes the source raise `NoMethodError` at lib/guard/brakeman.rb:19, and that error path is not modelled.
- The caller's options hash is modelled by value. The in-place rewrite of the caller's hash, and any aliasing with it, are not modelled.
- `bundler?` takes the Gemfile probe's answer as a boolean parameter, and `null_device` takes `RUBY_PLATFORM` as a string parameter.
- `Runner.run` does not model UI output beyond the announcement text; the `:reset` flag of that info call is left out.
- The notification formatter branch of `brakeman_command` (lib/guard/brakeman/runner.rb:54-60) holds only comments and appends nothing, so the model has no branch for it.
- Guard's host process (`Guard::Plugin`, the notifier and the file watcher) is not part of this model.
