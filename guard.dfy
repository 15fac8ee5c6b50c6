/** The guard plugin object (lib/guard/brakeman.rb, class Guard::Brakeman):
    option normalisation at construction, the start / run_all /
    run_on_changes lifecycle rules, and the reports it prints. The scanner
    library is outside the model: what the plugin asks of it arrives as
    values (the filtered warnings of a full run, whether the tracker has run
    its checks, the rescan report) and as the functions of a `Library`. */
module GuardPlugin {
  import opened Wrappers
  import opened Text
  import opened Values
  import opened Findings
  import opened Reports

  /** The scanner library calls whose results the plugin uses as values:
      `Brakeman.set_options` and the confidence labels `TEXT_CONFIDENCE`. */
  datatype Library = Library(setOptions: Hash -> Hash, confidenceText: int -> string)

  /** The scanner's tracker, known here by the scanner options it was processed with. */
  datatype Tracker = Tracker(scannerOpts: Option<Hash>)

  /** How a lifecycle call ends: normally, by throwing `:task_has_failed`
      (the host halts this cycle), or by raising a runtime error. */
  datatype Outcome = Ok | Halt | Failure(message: string)

  const READY_MESSAGE := "Brakeman is ready to work!"
  const STARTED_TITLE := "Brakeman started"
  const NO_SCANNER_OPTS := "no scanner opts (start not called?)!"

  // ---------------------------------------------------------------------------
  // Option normalisation

  /** A skipped check's name as the scanner expects it: prefixed with "Check". */
  function NormalizeCheckName(name: string): (r: string)
    ensures StartsWith(r, "Check")
    ensures r == name <==> StartsWith(name, "Check")
    ensures r == name || r == "Check" + name
  {
    if StartsWith(name, "Check") then name else "Check" + name
  }

  function NormalizeSkipChecks(names: seq<string>): (r: seq<string>)
    ensures |r| == |names|
    ensures forall i :: 0 <= i < |r| ==> r[i] == NormalizeCheckName(names[i])
  {
    seq(|names|, i requires 0 <= i < |names| => NormalizeCheckName(names[i]))
  }

  /** Normalising is idempotent, keeps length and order, and leaves a name
      alone exactly when it already starts with "Check". */
  lemma NormalizeSkipChecksIdempotent(names: seq<string>)
    ensures NormalizeSkipChecks(NormalizeSkipChecks(names)) == NormalizeSkipChecks(names)
    ensures forall i :: 0 <= i < |names| ==>
      StartsWith(NormalizeSkipChecks(names)[i], "Check")
      && (NormalizeSkipChecks(names)[i] == names[i] <==> StartsWith(names[i], "Check"))
  {
  }

  /** The source maps over `skip_checks` when it is set, so it must then be an array. */
  predicate SkipChecksListed(opts: Hash) {
    Truthy(Lookup(opts, SKIP_CHECKS)) ==> opts[SKIP_CHECKS].List?
  }

  /** The plugin's defaults, under which the user's options are merged. */
  function Defaults(): (r: Hash)
    ensures r.Keys == {NOTIFICATIONS, RUN_ON_START, CHATTY, MIN_CONFIDENCE, QUIET, SUPPORT_RESCANNING}
    ensures Truthy(r[NOTIFICATIONS]) && Truthy(r[SUPPORT_RESCANNING])
    ensures !Truthy(r[RUN_ON_START]) && !Truthy(r[CHATTY]) && !Truthy(r[QUIET])
    ensures r[MIN_CONFIDENCE] == Int(2)
  {
    map[NOTIFICATIONS := Bool(true), RUN_ON_START := Bool(false), CHATTY := Bool(false),
        MIN_CONFIDENCE := Int(2), QUIET := Bool(false), SUPPORT_RESCANNING := Bool(true)]
  }

  /** The value a key takes after construction, key by key. */
  function ConstructedValue(opts: Hash, key: string): Value
    requires SkipChecksListed(opts)
    requires key in Defaults() || key in opts
  {
    if key == SKIP_CHECKS && Truthy(Lookup(opts, SKIP_CHECKS))
    then List(NormalizeSkipChecks(opts[SKIP_CHECKS].items))
    else if key == NOTIFICATIONS && Truthy(Lookup(opts, CHATTY)) then Bool(true)
    else if key in opts then opts[key]
    else Defaults()[key]
  }

  /** The options after construction, described key by key. */
  function ConstructedOptions(opts: Hash): (r: Hash)
    requires SkipChecksListed(opts)
    ensures r.Keys == Defaults().Keys + opts.Keys
  {
    map key | key in Defaults().Keys + opts.Keys :: ConstructedValue(opts, key)
  }

  /** After construction the user's value wins for every key it gives, except
      that a set `skip_checks` list is normalised name by name and a truthy
      `chatty` forces `notifications` on; every other default key keeps its default. */
  lemma ConstructedOptionsProperties(opts: Hash)
    requires SkipChecksListed(opts)
    ensures var o := ConstructedOptions(opts);
      && (forall key :: key in Defaults() && key !in opts && key != NOTIFICATIONS ==> o[key] == Defaults()[key])
      && (forall key :: key in opts && key != SKIP_CHECKS && key != NOTIFICATIONS ==> o[key] == opts[key])
      && (Truthy(Lookup(opts, CHATTY)) ==> o[NOTIFICATIONS] == Bool(true))
      && (!Truthy(Lookup(opts, CHATTY)) ==> o[NOTIFICATIONS] == (if NOTIFICATIONS in opts then opts[NOTIFICATIONS] else Bool(true)))
      && (Truthy(Lookup(opts, SKIP_CHECKS)) ==> o[SKIP_CHECKS] == List(NormalizeSkipChecks(opts[SKIP_CHECKS].items)))
      && (!Truthy(Lookup(opts, SKIP_CHECKS)) && SKIP_CHECKS in opts ==> o[SKIP_CHECKS] == opts[SKIP_CHECKS])
  {
  }

  /** The two in-place rewrites of `initialize`, merged over the defaults, give `ConstructedOptions`. */
  lemma MergeIsConstructed(opts: Hash, skip: Hash, o: Hash)
    requires SkipChecksListed(opts)
    requires skip == if Truthy(Lookup(opts, SKIP_CHECKS))
      then opts[SKIP_CHECKS := List(NormalizeSkipChecks(opts[SKIP_CHECKS].items))] else opts
    requires o == if Truthy(Lookup(skip, CHATTY)) then skip[NOTIFICATIONS := Bool(true)] else skip
    ensures Defaults() + o == ConstructedOptions(opts)
  {
    var merged, c := Defaults() + o, ConstructedOptions(opts);
    assert merged.Keys == c.Keys;
    forall key | key in merged
      ensures merged[key] == c[key]
    {
    }
  }

  /** `{:app_path => '.'}.merge(options)`. */
  function WithAppPath(options: Hash): (r: Hash)
    ensures r.Keys == options.Keys + {APP_PATH}
    ensures forall k :: k in options ==> r[k] == options[k]
    ensures APP_PATH !in options ==> r[APP_PATH] == Str(".")
  {
    map[APP_PATH := Str(".")] + options
  }

  /** `@tracker ||= ...`: the tracker is processed once, with the scanner options current then. */
  function MemoTracker(tracker: Option<Tracker>, scannerOpts: Option<Hash>): (r: Option<Tracker>)
    ensures r.Some?
    ensures tracker.Some? ==> r == tracker
  {
    if tracker.Some? then tracker else Some(Tracker(scannerOpts))
  }

  /** `throw :task_has_failed` when warnings remain. */
  function HaltIf(warningsRemain: bool): (r: Outcome)
    ensures r == Halt <==> warningsRemain
    ensures r != Halt ==> r == Ok
  {
    if warningsRemain then Halt else Ok
  }

  /** The text before and after the changed paths in the rescanning line. */
  const RESCANNING := "\n\nrescanning "
  const RUNNING_ALL := ", running all checks"

  /** The line printed before a rescan: the changed paths as a Ruby array. */
  function RescanningLine(paths: seq<string>): (r: string)
    ensures StartsWith(r, RESCANNING + "[") && EndsWith(r, "]" + RUNNING_ALL)
    ensures |r| == |RESCANNING| + |Inspect(paths)| + |RUNNING_ALL|
    ensures r[|RESCANNING|..|r| - |RUNNING_ALL|] == Inspect(paths)
  {
    var shown := Inspect(paths);
    Surround(RESCANNING, shown, RUNNING_ALL, "[", "]");
    assert (RESCANNING + shown + RUNNING_ALL)[|RESCANNING|..|RESCANNING| + |shown|] == shown;
    RESCANNING + shown + RUNNING_ALL
  }

  /** Everything `run_on_changes` prints and notifies once the tracker has run its checks. */
  function RescanEvents(paths: seq<string>, report: RescanReport, options: Hash, confidenceText: int -> string): (r: seq<Event>)
    ensures !Truthy(Lookup(options, QUIET)) ==> |r| >= 1 && r[0] == Info(RescanningLine(paths), White)
    ensures |r| == (if Truthy(Lookup(options, QUIET)) then 0 else 1) + |ChangedEvents(report, options, confidenceText)|
    ensures var changed := ChangedEvents(report, options, confidenceText);
      |changed| <= |r| && r[|r| - |changed|..] == changed
  {
    (if Truthy(Lookup(options, QUIET)) then [] else [Info(RescanningLine(paths), White)])
      + ChangedEvents(report, options, confidenceText)
  }

  lemma AppendAssoc(a: seq<Event>, b: seq<Event>, c: seq<Event>)
    ensures (a + b) + c == a + (b + c)
  {
  }

  lemma Prepend5(x: seq<Event>, a: seq<Event>, b: seq<Event>, c: seq<Event>, d: seq<Event>, e: seq<Event>)
    ensures x + (a + b + c + d + e) == x + a + b + c + d + e
  {
    AppendAssoc(x, a + b + c + d, e);
    AppendAssoc(x, a + b + c, d);
    AppendAssoc(x, a + b, c);
    AppendAssoc(x, a, b);
  }

  /** The alert flag and icon of `print_changed`, updated bucket by bucket:
      fixed warnings alert with the success icon, new ones alert with the
      failed icon, and previous ones alert only in chatty mode and give the
      pending icon only when no other icon was set. */
  method AlertAndIcon(report: RescanReport, chatty: bool) returns (shouldAlert: bool, icon: Option<Icon>)
    ensures shouldAlert == ChangedAlert(report, chatty)
    ensures icon == ChangedIcon(report)
  {
    shouldAlert := false;
    icon := None;
    if |report.fixedWarnings| > 0 {
      shouldAlert := true;
      icon := Some(Success);
    }
    if |report.newWarnings| > 0 {
      shouldAlert := true;
      icon := Some(Failed);
    }
    if |report.existingWarnings| > 0 {
      if chatty {
        shouldAlert := true;
      }
      if icon.None? {
        icon := Some(Pending);
      }
    }
  }

  /** The notification `print_changed` sends, in terms of the values its three blocks build up. */
  lemma ChangedNoticeSent(report: RescanReport, options: Hash, message: seq<string>, shouldAlert: bool, icon: Option<Icon>)
    requires message == ChangedMessageParts(report, options)
    requires shouldAlert == ChangedAlert(report, Truthy(Lookup(options, CHATTY)))
    requires icon == ChangedIcon(report)
    ensures ChangedNotice(report, options)
      == if Truthy(Lookup(options, NOTIFICATIONS)) && shouldAlert
         then [Notify(Chomp(Join(message, ", ")), ChangedTitle(icon, report), icon)]
         else []
  {
  }

  // ---------------------------------------------------------------------------
  // The plugin object

  class Guard {
    var options: Hash
    var scannerOpts: Option<Hash>
    var tracker: Option<Tracker>
    /** What the plugin has printed, notified and written, oldest first. */
    var log: seq<Event>
    const library: Library

    /** `initialize`: normalises the user's options in place and merges them over the defaults. */
    constructor (opts: Hash, library: Library)
      requires SkipChecksListed(opts)
      ensures options == ConstructedOptions(opts)
      ensures scannerOpts == Some(library.setOptions(WithAppPath(options)))
      ensures tracker == None && log == [] && this.library == library
    {
      var o := opts;
      if Truthy(Lookup(o, SKIP_CHECKS)) {
        o := o[SKIP_CHECKS := List(NormalizeSkipChecks(o[SKIP_CHECKS].items))];
      }
      ghost var skip := o;
      // chatty implies notifications
      if Truthy(Lookup(o, CHATTY)) {
        o := o[NOTIFICATIONS := Bool(true)];
      }
      this.library := library;
      options := Defaults() + o;
      scannerOpts := Some(library.setOptions(WithAppPath(Defaults() + o)));
      tracker := None;
      log := [];
      MergeIsConstructed(opts, skip, o);
    }

    /** `tracker`: processes the scan on first use only. */
    method EnsureTracker()
      modifies this`tracker
      ensures tracker == MemoTracker(old(tracker), scannerOpts)
    {
      if tracker.None? {
        tracker := Some(Tracker(scannerOpts));
      }
    }

    /** `warning_info`: prints each warning on its own line, in the given order. */
    method WarningInfo(ws: seq<Warning>)
      modifies this`log
      ensures log == old(log) + WarningLines(ws, library.confidenceText)
    {
      for i := 0 to |ws|
        invariant log == old(log) + WarningLines(ws[..i], library.confidenceText)
      {
        var line := DecorateWarning(ws[i], library.confidenceText(ws[i].confidence));
        log := log + [Info(line, White)];
        assert WarningLines(ws[..i + 1], library.confidenceText)
          == WarningLines(ws[..i], library.confidenceText) + [Info(line, White)];
      }
      assert ws[..|ws|] == ws;
    }

    /** `write_report`: writes each output file with the format at the same position. */
    method WriteReport()
      modifies this`log
      ensures log == old(log) + ReportWrites(Lookup(options, OUTPUT_FILES), Lookup(options, OUTPUT_FORMATS))
    {
      var files := Lookup(options, OUTPUT_FILES);
      var formats := Lookup(options, OUTPUT_FORMATS);
      if files.List? {
        for i := 0 to |files.items|
          invariant log == old(log) + ReportWrites(List(files.items[..i]), formats)
        {
          log := log + [ReportWritten(files.items[i], FormatAt(formats, i))];
          assert ReportWrites(List(files.items[..i + 1]), formats)
            == ReportWrites(List(files.items[..i]), formats) + [ReportWritten(files.items[i], FormatAt(formats, i))];
        }
        assert files.items[..|files.items|] == files.items;
      }
    }

    /** `print_failed`: the report of a full run over the filtered warnings. */
    method PrintFailed(filtered: seq<Warning>)
      modifies this`log
      ensures log == old(log) + FailedEvents(filtered, options, library.confidenceText)
    {
      ghost var log0 := log;
      if !Truthy(Lookup(options, QUIET)) {
        log := log + [Info(HEADER, White)];
      }
      assert log == log0 + Header(options);
      var allWarnings := filtered;
      var icon := if |allWarnings| > 0 then Failed else Success;
      var message := NatToString(|allWarnings|) + " brakeman findings";
      if Truthy(Lookup(options, OUTPUT_FILES)) {
        WriteReport();
        message := message + ResultsWrittenNote(options);
      }
      assert log == log0 + Header(options) + OutputWrites(options);
      assert message == FailedMessage(|allWarnings|, options);
      ghost var notification := FailedNotice(|allWarnings|, options);
      ghost var lines := WarningLines(SortByConfidence(allWarnings), library.confidenceText);
      ghost var log1 := log;
      if Truthy(Lookup(options, CHATTY)) && |allWarnings| > 0 {
        log := log + [Notify(message, Some(FULL_RESULTS_TITLE), Some(icon))];
      } else {
        assert log == log1 + notification;
      }
      assert log == log0 + Header(options) + OutputWrites(options) + notification;
      log := log + [Info(message, Yellow)];
      ghost var log2 := log;
      assert log2 == log0 + Header(options) + OutputWrites(options) + notification + [Info(message, Yellow)];
      WarningInfo(SortByConfidence(allWarnings));
      assert log == log2 + lines;
      Prepend5(log0, Header(options), OutputWrites(options), notification, [Info(message, Yellow)], lines);
    }

    /** One bucket of `print_changed`: when the bucket has warnings, its count
        line in the bucket's colour and then its warnings by confidence. */
    method PrintSection(ws: seq<Warning>, noun: string, color: Color) returns (count: seq<string>)
      modifies this`log
      ensures log == old(log) + Section(ws, noun, color, library.confidenceText)
      ensures count == CountLine(ws, noun)
    {
      count := [];
      if |ws| > 0 {
        var resultsNotification := Pluralize(Some(|ws|), noun, None);
        log := log + [Info(resultsNotification, color)];
        ghost var mid := log;
        WarningInfo(SortByConfidence(ws));
        AppendAssoc(old(log), [Info(resultsNotification, color)], WarningLines(SortByConfidence(ws), library.confidenceText));
        count := [resultsNotification];
      } else {
        assert log == old(log) + [];
      }
    }

    /** The bucket half of `print_changed`: the header, then each non-empty
        bucket's count line and warnings, updating the message, the alert flag
        and the icon in turn. */
    method PrintBuckets(report: RescanReport) returns (message: seq<string>, shouldAlert: bool, icon: Option<Icon>)
      modifies this`log
      ensures log == old(log) + Header(options)
        + Section(report.fixedWarnings, "fixed warning", Green, library.confidenceText)
        + Section(report.newWarnings, "new warning", Red, library.confidenceText)
        + Section(report.existingWarnings, "previous warning", Yellow, library.confidenceText)
      ensures message == CountLine(report.fixedWarnings, "fixed warning")
        + CountLine(report.newWarnings, "new warning")
        + CountLine(report.existingWarnings, "previous warning")
      ensures shouldAlert == ChangedAlert(report, Truthy(Lookup(options, CHATTY)))
      ensures icon == ChangedIcon(report)
    {
      ghost var log0 := log;
      if !Truthy(Lookup(options, QUIET)) {
        log := log + [Info(HEADER, White)];
      } else {
        assert log == log0 + [];
      }
      message := [];
      var fixedLine := PrintSection(report.fixedWarnings, "fixed warning", Green);
      message := message + fixedLine;
      assert message == fixedLine;
      var newLine := PrintSection(report.newWarnings, "new warning", Red);
      message := message + newLine;
      var existingLine := PrintSection(report.existingWarnings, "previous warning", Yellow);
      message := message + existingLine;
      shouldAlert, icon := AlertAndIcon(report, Truthy(Lookup(options, CHATTY)));
    }

    /** `print_changed`: the report of a rescan, then the notification, sent
        when notifications are on and a bucket calls for an alert. */
    method PrintChanged(report: RescanReport)
      modifies this`log
      ensures log == old(log) + ChangedEvents(report, options, library.confidenceText)
    {
      ghost var ct := library.confidenceText;
      ghost var log0 := log;
      var message, shouldAlert, icon := PrintBuckets(report);
      ghost var log4 := log;
      ghost var counts := message;
      if Truthy(Lookup(options, OUTPUT_FILES)) {
        WriteReport();
        message := message + [ResultsWrittenNote(options)];
      } else {
        assert log == log4 + [];
        assert message == counts + [];
      }
      assert log == log4 + OutputWrites(options);
      Prepend5(log0, Header(options), Section(report.fixedWarnings, "fixed warning", Green, ct),
        Section(report.newWarnings, "new warning", Red, ct), Section(report.existingWarnings, "previous warning", Yellow, ct),
        OutputWrites(options));
      ghost var printout := ChangedPrintout(report, options, ct);
      assert log == log0 + printout;

      var title := ChangedTitle(icon, report);
      ChangedNoticeSent(report, options, message, shouldAlert, icon);
      ghost var notification := ChangedNotice(report, options);
      if Truthy(Lookup(options, NOTIFICATIONS)) && shouldAlert {
        log := log + [Notify(Chomp(Join(message, ", ")), title, icon)];
      } else {
        assert log == log0 + printout + [];
      }
      AppendAssoc(log0, printout, notification);
    }

    /** `run_all`: fails without scanner options; otherwise reports the
        filtered warnings of a full run and halts when any remain. */
    method RunAll(filtered: seq<Warning>) returns (r: Outcome)
      modifies this`tracker, this`log
      ensures old(scannerOpts).None? ==>
        r == Failure(NO_SCANNER_OPTS) && tracker == old(tracker) && log == old(log)
      ensures old(scannerOpts).Some? ==>
        && r == HaltIf(|filtered| > 0)
        && tracker == MemoTracker(old(tracker), scannerOpts)
        && log == old(log) + FailedEvents(filtered, options, library.confidenceText)
    {
      if scannerOpts.None? {
        return Failure(NO_SCANNER_OPTS);
      }
      // the tracker runs its checks and the scanner filters its warnings: `filtered`
      EnsureTracker();
      PrintFailed(filtered);
      r := HaltIf(|filtered| > 0);
    }

    /** `run_on_changes`: falls back to a full run while the tracker has no
        checks; otherwise rescans, reports the differences and halts when the
        rescan leaves any warning. An empty path list is not special. */
    method RunOnChanges(paths: seq<string>, hasChecks: bool, filtered: seq<Warning>, report: RescanReport)
      returns (r: Outcome)
      modifies this`tracker, this`log
      ensures tracker == MemoTracker(old(tracker), scannerOpts)
      ensures !hasChecks && scannerOpts.None? ==> r == Failure(NO_SCANNER_OPTS) && log == old(log)
      ensures !hasChecks && scannerOpts.Some? ==>
        r == HaltIf(|filtered| > 0) && log == old(log) + FailedEvents(filtered, options, library.confidenceText)
      ensures hasChecks ==>
        r == HaltIf(report.anyWarnings)
        && log == old(log) + RescanEvents(paths, report, options, library.confidenceText)
    {
      EnsureTracker();
      if !hasChecks {
        r := RunAll(filtered);
        return;
      }
      ghost var log0 := log;
      ghost var rescanning: seq<Event> := if Truthy(Lookup(options, QUIET)) then [] else [Info(RescanningLine(paths), White)];
      if !Truthy(Lookup(options, QUIET)) {
        log := log + [Info(RescanningLine(paths), White)];
      } else {
        assert log == log0 + [];
      }
      assert log == log0 + rescanning;
      // the scanner rescans the changed paths: `report`
      PrintChanged(report);
      AppendAssoc(log0, rescanning, ChangedEvents(report, options, library.confidenceText));
      r := HaltIf(report.anyWarnings);
    }

    /** `start`: sets up the scanner options and merges them into the plugin's
        options, then runs everything when `run_on_start` is set, or else
        announces readiness in chatty mode. */
    method Start(filtered: seq<Warning>) returns (r: Outcome)
      modifies this`options, this`scannerOpts, this`tracker, this`log
      ensures scannerOpts == Some(library.setOptions(WithAppPath(old(options))))
      ensures options == old(options) + scannerOpts.value
      ensures Truthy(Lookup(options, RUN_ON_START)) ==>
        && r == HaltIf(|filtered| > 0)
        && tracker == MemoTracker(old(tracker), scannerOpts)
        && log == old(log) + FailedEvents(filtered, options, library.confidenceText)
      ensures !Truthy(Lookup(options, RUN_ON_START)) ==>
        && r == Ok && tracker == old(tracker)
        && log == old(log) + (if Truthy(Lookup(options, CHATTY))
                              then [Notify(READY_MESSAGE, Some(STARTED_TITLE), Some(Pending))]
                              else [])
    {
      scannerOpts := Some(library.setOptions(WithAppPath(options)));
      options := options + scannerOpts.value;
      r := Ok;
      if Truthy(Lookup(options, RUN_ON_START)) {
        r := RunAll(filtered);
      } else if Truthy(Lookup(options, CHATTY)) {
        log := log + [Notify(READY_MESSAGE, Some(STARTED_TITLE), Some(Pending))];
      }
    }
  }
}
