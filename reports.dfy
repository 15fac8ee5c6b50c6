/** What the plugin prints and notifies after a scan (lib/guard/brakeman.rb,
    `print_failed`, `print_changed`, `write_report`, `pluralize`). Terminal
    output and desktop notifications are recorded as a sequence of events;
    the functions here give the exact events each report produces. */
module Reports {
  import opened Wrappers
  import opened Text
  import opened Values
  import opened Findings

  datatype Color = White | Green | Red | Yellow

  datatype Icon = Pending | Success | Failed

  /** One observable effect: a printed line, a notification, or a report file
      written with the scanner's formatter for `format` (`Nil` when no format
      is paired with the file). */
  datatype Event =
    | Info(text: string, color: Color)
    | Notify(message: string, title: Option<string>, icon: Option<Icon>)
    | ReportWritten(file: string, format: Value)

  /** The scanner's rescan report: the warnings fixed, introduced and still
      present, and whether any warning is left after the rescan. */
  datatype RescanReport = RescanReport(
    fixedWarnings: seq<Warning>,
    newWarnings: seq<Warning>,
    existingWarnings: seq<Warning>,
    anyWarnings: bool)

  const HEADER := "\n------ brakeman warnings --------\n"
  const FULL_RESULTS_TITLE := "Full Brakeman results"

  // ---------------------------------------------------------------------------
  // pluralize / pluralize_word

  /** The naive English plural. */
  function PluralizeWord(singular: string): (r: string)
    ensures |r| == |singular| + 1 && r[..|singular|] == singular && r[|singular|] == 's'
  {
    singular + "s"
  }

  /** `pluralize(count, singular, plural)`: the count (nil reads as 0), a space,
      then the singular for a count of one and the plural otherwise. */
  function Pluralize(count: Option<nat>, singular: string, plural: Option<string>): (r: string)
    ensures StartsWith(r, NatToString(if count.Some? then count.value else 0) + " ")
  {
    var n := if count.Some? then count.value else 0;
    NatToString(n) + " " + (if count == Some(1) then singular else if plural.Some? then plural.value else PluralizeWord(singular))
  }

  /** The first word of a pluralized phrase reads back as the count. */
  lemma PluralizeCount(count: Option<nat>, singular: string, plural: Option<string>)
    ensures var first := Fields(Pluralize(count, singular, plural), ' ')[0];
      AllDigits(first) && ParseNat(first) == (if count.Some? then count.value else 0)
  {
    var n := if count.Some? then count.value else 0;
    var noun := if count == Some(1) then singular else if plural.Some? then plural.value else PluralizeWord(singular);
    assert Pluralize(count, singular, plural) == NatToString(n) + [' '] + noun;
    FirstFieldIsCount(n, noun);
  }

  /** Without an explicit plural, the singular is used exactly when the count
      is one, and the singular plus "s" otherwise. */
  lemma PluralizeSingularIff(count: Option<nat>, singular: string)
    ensures var n := if count.Some? then count.value else 0;
      && (Pluralize(count, singular, None) == NatToString(n) + " " + singular <==> count == Some(1))
      && (count != Some(1) ==> Pluralize(count, singular, None) == NatToString(n) + " " + singular + "s")
  {
    var n := if count.Some? then count.value else 0;
    if count != Some(1) {
      assert |Pluralize(count, singular, None)| == |NatToString(n) + " " + singular| + 1;
    }
  }

  /** With an explicit plural, the singular is used for a count of one and
      the given plural for any other count. */
  lemma PluralizeExplicit(count: Option<nat>, singular: string, plural: string)
    ensures var n := if count.Some? then count.value else 0;
      && (count == Some(1) ==> Pluralize(count, singular, Some(plural)) == NatToString(n) + " " + singular)
      && (count != Some(1) ==> Pluralize(count, singular, Some(plural)) == NatToString(n) + " " + plural)
  {
  }

  // ---------------------------------------------------------------------------
  // Shared pieces

  /** The section header, unless `quiet`. */
  function Header(options: Hash): (r: seq<Event>)
    ensures NoNotification(r)
    ensures |r| == if Truthy(Lookup(options, QUIET)) then 0 else 1
    ensures forall i :: 0 <= i < |r| ==> r[i] == Info(HEADER, White)
  {
    if Truthy(Lookup(options, QUIET)) then [] else [Info(HEADER, White)]
  }

  /** `warning_info`: one white line per warning, in the given order. */
  function WarningLines(ws: seq<Warning>, confidenceText: int -> string): (r: seq<Event>)
    ensures |r| == |ws| && NoNotification(r)
  {
    seq(|ws|, i requires 0 <= i < |ws| => Info(DecoratedText(ws[i], confidenceText(ws[i].confidence)), White))
  }

  /** The format paired with the `i`-th output file: `output_formats[i]`. */
  function FormatAt(formats: Value, i: nat): Value {
    if formats.List? && i < |formats.items| then Str(formats.items[i]) else Nil
  }

  /** `write_report`: one report per output file, the i-th file written with the i-th format. */
  function ReportWrites(files: Value, formats: Value): (r: seq<Event>)
    ensures NoNotification(r)
  {
    if files.List? then
      seq(|files.items|, i requires 0 <= i < |files.items| => ReportWritten(files.items[i], FormatAt(formats, i)))
    else []
  }

  /** The reports written when `output_files` is set. */
  function OutputWrites(options: Hash): (r: seq<Event>)
    ensures NoNotification(r)
    ensures !Truthy(Lookup(options, OUTPUT_FILES)) ==> r == []
  {
    if Truthy(Lookup(options, OUTPUT_FILES))
    then ReportWrites(Lookup(options, OUTPUT_FILES), Lookup(options, OUTPUT_FORMATS))
    else []
  }

  /** The note appended to a notification message when reports were written. */
  function ResultsWrittenNote(options: Hash): string {
    "\nResults written to " + ToS(Lookup(options, OUTPUT_FILES))
  }

  predicate NoNotification(events: seq<Event>) {
    forall i :: 0 <= i < |events| ==> !events[i].Notify?
  }

  predicate HasNotification(events: seq<Event>) {
    exists i :: 0 <= i < |events| && events[i].Notify?
  }

  // ---------------------------------------------------------------------------
  // print_failed: the report of a full run

  function FailedIcon(count: nat): (icon: Icon)
    ensures icon == Failed <==> count > 0
    ensures count == 0 ==> icon == Success
  {
    if count > 0 then Failed else Success
  }

  /** The summary of a full run; the count is not pluralized. */
  function FailedMessage(count: nat, options: Hash): (r: string)
    ensures StartsWith(r, NatToString(count) + " brakeman findings")
    ensures !Truthy(Lookup(options, OUTPUT_FILES)) ==> r == NatToString(count) + " brakeman findings"
    ensures Truthy(Lookup(options, OUTPUT_FILES)) ==> EndsWith(r, "\nResults written to " + ToS(Lookup(options, OUTPUT_FILES)))
    ensures Truthy(Lookup(options, OUTPUT_FILES)) ==>
      |r| == |NatToString(count) + " brakeman findings"| + |"\nResults written to " + ToS(Lookup(options, OUTPUT_FILES))|
  {
    var head := NatToString(count) + " brakeman findings";
    assert (head + ReportsNote(options))[..|head|] == head;
    head + ReportsNote(options)
  }

  /** The note on written reports, when output files are set. */
  function ReportsNote(options: Hash): string {
    if Truthy(Lookup(options, OUTPUT_FILES)) then ResultsWrittenNote(options) else ""
  }

  /** Everything `print_failed` prints and notifies for the filtered warnings. */
  function FailedEvents(filtered: seq<Warning>, options: Hash, confidenceText: int -> string): (r: seq<Event>)
    ensures |r| == |Header(options)| + |OutputWrites(options)| + |FailedNotice(|filtered|, options)| + 1 + |filtered|
    ensures r[|r| - |filtered| - 1] == Info(FailedMessage(|filtered|, options), Yellow)
  {
    var count := |filtered|;
    Header(options)
      + OutputWrites(options)
      + FailedNotice(count, options)
      + [Info(FailedMessage(count, options), Yellow)]
      + WarningLines(SortByConfidence(filtered), confidenceText)
  }

  /** A full run prints the header first, then writes the reports, and ends
      with the filtered warnings ordered by confidence: a sorted permutation of them. */
  lemma FailedEventsContent(filtered: seq<Warning>, options: Hash, confidenceText: int -> string)
    ensures var r := FailedEvents(filtered, options, confidenceText);
      var h := |Header(options)|;
      && r[..h] == Header(options)
      && r[h..h + |OutputWrites(options)|] == OutputWrites(options)
      && exists s :: SortedByConfidence(s) && multiset(s) == multiset(filtered)
           && r[|r| - |filtered|..] == WarningLines(s, confidenceText)
  {
    var s := SortByConfidence(filtered);
    var count := |filtered|;
    FiveParts(FailedEvents(filtered, options, confidenceText), Header(options), OutputWrites(options),
      FailedNotice(count, options), [Info(FailedMessage(count, options), Yellow)], WarningLines(s, confidenceText));
  }

  /** The first, second and last of five concatenated stretches, read back. */
  lemma FiveParts(r: seq<Event>, a: seq<Event>, b: seq<Event>, c: seq<Event>, d: seq<Event>, e: seq<Event>)
    requires r == a + b + c + d + e
    ensures r[..|a|] == a && r[|a|..|a| + |b|] == b && r[|r| - |e|..] == e
  {
  }

  /** The notification of a full run: sent only in chatty mode with warnings
      left, and then with the summary, the full-results title and the failed icon. */
  function FailedNotice(count: nat, options: Hash): (r: seq<Event>)
    ensures |r| <= 1
    ensures r != [] <==> Truthy(Lookup(options, CHATTY)) && count > 0
    ensures forall i :: 0 <= i < |r| ==> r[i] == Notify(FailedMessage(count, options), Some(FULL_RESULTS_TITLE), Some(Failed))
  {
    if Truthy(Lookup(options, CHATTY)) && count > 0
    then [Notify(FailedMessage(count, options), Some(FULL_RESULTS_TITLE), Some(FailedIcon(count)))]
    else []
  }

  /** A full run notifies only when `chatty` is set and warnings remain, and
      then always with the failed icon; the summary line is printed either way. */
  lemma FailedNotification(filtered: seq<Warning>, options: Hash, confidenceText: int -> string)
    ensures var events := FailedEvents(filtered, options, confidenceText);
      && (HasNotification(events) <==> Truthy(Lookup(options, CHATTY)) && |filtered| > 0)
      && (forall i :: 0 <= i < |events| && events[i].Notify? ==>
            events[i] == Notify(FailedMessage(|filtered|, options), Some(FULL_RESULTS_TITLE), Some(Failed)))
      && Info(FailedMessage(|filtered|, options), Yellow) in events
  {
    var count := |filtered|;
    var message := FailedMessage(count, options);
    var notice := Notify(message, Some(FULL_RESULTS_TITLE), Some(Failed));
    FailedNoticeIs(count, options, notice);
    SingleNotice(FailedEvents(filtered, options, confidenceText), Header(options), OutputWrites(options),
      FailedNotice(count, options), Info(message, Yellow), WarningLines(SortByConfidence(filtered), confidenceText),
      notice, Truthy(Lookup(options, CHATTY)) && count > 0);
  }

  lemma FailedNoticeIs(count: nat, options: Hash, notice: Event)
    requires notice == Notify(FailedMessage(count, options), Some(FULL_RESULTS_TITLE), Some(Failed))
    ensures FailedNotice(count, options) == if Truthy(Lookup(options, CHATTY)) && count > 0 then [notice] else []
  {
    var mid := FailedNotice(count, options);
    if Truthy(Lookup(options, CHATTY)) && count > 0 {
      assert |mid| == 1 && mid[0] == notice;
    }
  }

  /** At most one notification, after two stretches without any and before an
      info line and a third such stretch: the events notify exactly when it is
      sent, only with it, and hold the info line. */
  lemma SingleNotice(events: seq<Event>, a: seq<Event>, b: seq<Event>, mid: seq<Event>, info: Event, c: seq<Event>,
                     notice: Event, sent: bool)
    requires events == a + b + mid + [info] + c
    requires NoNotification(a) && NoNotification(b) && NoNotification(c) && !info.Notify? && notice.Notify?
    requires mid == if sent then [notice] else []
    ensures HasNotification(events) <==> sent
    ensures forall i :: 0 <= i < |events| && events[i].Notify? ==> events[i] == notice
    ensures info in events
  {
    var pre, post := a + b, [info] + c;
    assert NoNotification(pre) by {
      forall i | 0 <= i < |pre| ensures !pre[i].Notify? {
        if i >= |a| {
          assert pre[i] == b[i - |a|];
        }
      }
    }
    assert NoNotification(post) by {
      forall i | 0 <= i < |post| ensures !post[i].Notify? {
        if i >= 1 {
          assert post[i] == c[i - 1];
        }
      }
    }
    assert events == pre + mid + post;
    OnlyMiddleNotifies(pre, mid, post);
    if sent {
      assert mid[0].Notify?;
    }
    assert events[|pre| + |mid|] == info;
  }

  /** Between two stretches without notifications, the notifications are exactly those of the middle. */
  lemma OnlyMiddleNotifies(pre: seq<Event>, mid: seq<Event>, post: seq<Event>)
    requires NoNotification(pre) && NoNotification(post)
    ensures HasNotification(pre + mid + post) <==> HasNotification(mid)
    ensures forall i :: 0 <= i < |pre + mid + post| && (pre + mid + post)[i].Notify? ==>
      |pre| <= i < |pre| + |mid| && (pre + mid + post)[i] == mid[i - |pre|]
  {
    var all := pre + mid + post;
    if HasNotification(mid) {
      var k :| 0 <= k < |mid| && mid[k].Notify?;
      assert all[|pre| + k] == mid[k];
    }
    forall i | 0 <= i < |all| && all[i].Notify?
      ensures |pre| <= i < |pre| + |mid| && all[i] == mid[i - |pre|]
    {
    }
  }

  /** The first word of the summary of a full run reads back as the number of findings. */
  lemma FailedMessageCount(count: nat, options: Hash)
    ensures var first := Fields(FailedMessage(count, options), ' ')[0];
      AllDigits(first) && ParseNat(first) == count
  {
    var digits := NatToString(count);
    var note := ReportsNote(options);
    assert " brakeman findings" == [' '] + "brakeman findings";
    assert digits + " brakeman findings" + note == digits + [' '] + ("brakeman findings" + note);
    FirstFieldIsCount(count, "brakeman findings" + note);
  }

  /** A number followed by a space: the first space-separated word reads back as the number. */
  lemma FirstFieldIsCount(n: nat, rest: string)
    ensures var first := Fields(NatToString(n) + [' '] + rest, ' ')[0];
      AllDigits(first) && ParseNat(first) == n
  {
    var digits := NatToString(n);
    DigitsHaveNoSpace(digits);
    FieldsAround(digits, rest, ' ');
    FieldsNoSep(digits, ' ');
    ParseNatToString(n);
  }

  lemma DigitsHaveNoSpace(digits: string)
    requires AllDigits(digits)
    ensures ' ' !in digits
  {
    forall i | 0 <= i < |digits| ensures digits[i] != ' ' {
      assert IsDigit(digits[i]);
    }
  }

  // ---------------------------------------------------------------------------
  // print_changed: the report of a rescan

  /** The notification icon of a rescan: failed when warnings were introduced,
      else success when warnings were fixed (even if others remain), else
      pending when warnings remain, else none. */
  function ChangedIcon(report: RescanReport): (icon: Option<Icon>)
    ensures icon == Some(Failed) <==> |report.newWarnings| > 0
    ensures icon == Some(Success) <==> |report.newWarnings| == 0 && |report.fixedWarnings| > 0
    ensures icon == Some(Pending) <==> |report.newWarnings| == 0 && |report.fixedWarnings| == 0 && |report.existingWarnings| > 0
    ensures icon == None <==> |report.newWarnings| == 0 && |report.fixedWarnings| == 0 && |report.existingWarnings| == 0
  {
    if |report.newWarnings| > 0 then Some(Failed)
    else if |report.fixedWarnings| > 0 then Some(Success)
    else if |report.existingWarnings| > 0 then Some(Pending)
    else None
  }

  /** The notification title for an icon: it counts the bucket the icon stands for. */
  function ChangedTitle(icon: Option<Icon>, report: RescanReport): (title: Option<string>)
    ensures title.None? <==> icon.None?
  {
    match icon
    case Some(Success) => Some(Pluralize(Some(|report.fixedWarnings|), "Warning", None) + " fixed.")
    case Some(Pending) => Some(Pluralize(Some(|report.existingWarnings|), "Warning", None) + " left to fix.")
    case Some(Failed) => Some(Pluralize(Some(|report.newWarnings|), "Warning", None) + " introduced.")
    case None => None
  }

  /** Fixed and new warnings always call for an alert; warnings that were
      already there only in chatty mode. */
  predicate ChangedAlert(report: RescanReport, chatty: bool)
    ensures ChangedAlert(report, chatty) <==>
      ChangedIcon(report) == Some(Failed) || ChangedIcon(report) == Some(Success)
      || (chatty && ChangedIcon(report) == Some(Pending))
  {
    |report.fixedWarnings| > 0 || |report.newWarnings| > 0 || (|report.existingWarnings| > 0 && chatty)
  }

  /** One count line per non-empty bucket, in the order fixed, new, existing,
      then the note about written reports. */
  function ChangedMessageParts(report: RescanReport, options: Hash): (r: seq<string>)
    ensures |r| == |CountLine(report.fixedWarnings, "fixed warning")| + |CountLine(report.newWarnings, "new warning")|
      + |CountLine(report.existingWarnings, "previous warning")| + (if Truthy(Lookup(options, OUTPUT_FILES)) then 1 else 0)
    ensures r == [] <==> |report.fixedWarnings| == 0 && |report.newWarnings| == 0 && |report.existingWarnings| == 0
                         && !Truthy(Lookup(options, OUTPUT_FILES))
  {
    CountLine(report.fixedWarnings, "fixed warning")
      + CountLine(report.newWarnings, "new warning")
      + CountLine(report.existingWarnings, "previous warning")
      + (if Truthy(Lookup(options, OUTPUT_FILES)) then [ResultsWrittenNote(options)] else [])
  }

  /** A bucket's count line, if the bucket is not empty. */
  function CountLine(ws: seq<Warning>, noun: string): (r: seq<string>)
    ensures |r| == if |ws| > 0 then 1 else 0
    ensures |ws| > 0 ==> StartsWith(r[0], NatToString(|ws|) + " " + noun)
  {
    if |ws| > 0 then
      var line := Pluralize(Some(|ws|), noun, None);
      assert line[..|NatToString(|ws|) + " " + noun|] == NatToString(|ws|) + " " + noun;
      [line]
    else []
  }

  /** The notification message: the parts joined by ", ", less a trailing line break. */
  function ChangedMessage(report: RescanReport, options: Hash): (r: string)
    ensures var joined := Join(ChangedMessageParts(report, options), ", ");
      joined == r || joined == r + "\n" || joined == r + "\r" || joined == r + "\r\n"
  {
    Chomp(Join(ChangedMessageParts(report, options), ", "))
  }

  /** Which part of the message is which: the fixed, new and previous count
      lines of the non-empty buckets in that order, then the written-reports note. */
  lemma ChangedMessagePartsOrder(report: RescanReport, options: Hash)
    ensures var parts := ChangedMessageParts(report, options);
      var f := if |report.fixedWarnings| > 0 then 1 else 0;
      var n := if |report.newWarnings| > 0 then 1 else 0;
      var e := if |report.existingWarnings| > 0 then 1 else 0;
      && |parts| == f + n + e + (if Truthy(Lookup(options, OUTPUT_FILES)) then 1 else 0)
      && (f == 1 ==> parts[0] == Pluralize(Some(|report.fixedWarnings|), "fixed warning", None))
      && (n == 1 ==> parts[f] == Pluralize(Some(|report.newWarnings|), "new warning", None))
      && (e == 1 ==> parts[f + n] == Pluralize(Some(|report.existingWarnings|), "previous warning", None))
      && (Truthy(Lookup(options, OUTPUT_FILES)) ==>
            parts[f + n + e] == "\nResults written to " + ToS(Lookup(options, OUTPUT_FILES)))
  {
    var fixedLine := CountLine(report.fixedWarnings, "fixed warning");
    var newLine := CountLine(report.newWarnings, "new warning");
    var existingLine := CountLine(report.existingWarnings, "previous warning");
    var parts := ChangedMessageParts(report, options);
    assert parts == fixedLine + newLine + existingLine
      + (if Truthy(Lookup(options, OUTPUT_FILES)) then [ResultsWrittenNote(options)] else []);
    if |report.newWarnings| > 0 {
      assert parts[|fixedLine|] == newLine[0];
    }
    if |report.existingWarnings| > 0 {
      assert parts[|fixedLine| + |newLine|] == existingLine[0];
    }
  }

  /** A bucket's part of the printout: its count line and its warnings by
      confidence, or nothing for an empty bucket. */
  function Section(ws: seq<Warning>, noun: string, color: Color, confidenceText: int -> string): (r: seq<Event>)
    ensures |r| == if |ws| == 0 then 0 else 1 + |ws|
    ensures NoNotification(r)
  {
    if |ws| == 0 then []
    else [Info(Pluralize(Some(|ws|), noun, None), color)] + WarningLines(SortByConfidence(ws), confidenceText)
  }

  /** A non-empty bucket prints its count line in the bucket's colour, then
      its warnings ordered by confidence: a sorted permutation of the bucket. */
  lemma SectionContent(ws: seq<Warning>, noun: string, color: Color, confidenceText: int -> string)
    requires |ws| > 0
    ensures var r := Section(ws, noun, color, confidenceText);
      && r[0] == Info(Pluralize(Some(|ws|), noun, None), color)
      && exists s :: SortedByConfidence(s) && multiset(s) == multiset(ws) && r[1..] == WarningLines(s, confidenceText)
  {
    var s := SortByConfidence(ws);
    assert Section(ws, noun, color, confidenceText)[1..] == WarningLines(s, confidenceText);
  }

  /** Whether `print_changed` notifies. */
  predicate ChangedNotifies(report: RescanReport, options: Hash) {
    Truthy(Lookup(options, NOTIFICATIONS)) && ChangedAlert(report, Truthy(Lookup(options, CHATTY)))
  }

  /** The printout of a rescan before the notification. */
  function ChangedPrintout(report: RescanReport, options: Hash, confidenceText: int -> string): (r: seq<Event>)
    ensures NoNotification(r)
  {
    Header(options)
      + Section(report.fixedWarnings, "fixed warning", Green, confidenceText)
      + Section(report.newWarnings, "new warning", Red, confidenceText)
      + Section(report.existingWarnings, "previous warning", Yellow, confidenceText)
      + OutputWrites(options)
  }

  /** Everything `print_changed` prints and notifies for a rescan report. */
  function ChangedEvents(report: RescanReport, options: Hash, confidenceText: int -> string): (r: seq<Event>)
    ensures var printout := ChangedPrintout(report, options, confidenceText);
      && |r| == |printout| + (if ChangedNotifies(report, options) then 1 else 0)
      && r[..|printout|] == printout
      && r[|printout|..] == ChangedNotice(report, options)
  {
    ChangedPrintout(report, options, confidenceText) + ChangedNotice(report, options)
  }

  /** The notification of a rescan: sent exactly when notifications are on and
      the alert condition holds, with the message and the icon of the report. */
  function ChangedNotice(report: RescanReport, options: Hash): (r: seq<Event>)
    ensures |r| <= 1
    ensures r != [] <==> ChangedNotifies(report, options)
    ensures forall i :: 0 <= i < |r| ==>
      r[i].Notify? && r[i].message == ChangedMessage(report, options) && r[i].icon == ChangedIcon(report) && r[i].icon.Some?
  {
    if ChangedNotifies(report, options)
    then [Notify(ChangedMessage(report, options), ChangedTitle(ChangedIcon(report), report), ChangedIcon(report))]
    else []
  }

  /** A rescan notifies exactly when notifications are on and the alert
      condition holds; the notification is the last event and always carries
      an icon and a title, which count the bucket the icon stands for. */
  lemma ChangedNotification(report: RescanReport, options: Hash, confidenceText: int -> string)
    ensures var events := ChangedEvents(report, options, confidenceText);
      && (HasNotification(events) <==>
            Truthy(Lookup(options, NOTIFICATIONS))
            && (|report.fixedWarnings| > 0 || |report.newWarnings| > 0
                || (|report.existingWarnings| > 0 && Truthy(Lookup(options, CHATTY)))))
      && (forall i :: 0 <= i < |events| && events[i].Notify? ==>
            && i == |events| - 1
            && events[i].message == ChangedMessage(report, options)
            && events[i].icon == ChangedIcon(report)
            && events[i].icon.Some? && events[i].title.Some?
            && (events[i].icon == Some(Failed) ==>
                  events[i].title == Some(Pluralize(Some(|report.newWarnings|), "Warning", None) + " introduced."))
            && (events[i].icon == Some(Success) ==>
                  events[i].title == Some(Pluralize(Some(|report.fixedWarnings|), "Warning", None) + " fixed."))
            && (events[i].icon == Some(Pending) ==>
                  events[i].title == Some(Pluralize(Some(|report.existingWarnings|), "Warning", None) + " left to fix.")))
  {
    var printout := ChangedPrintout(report, options, confidenceText);
    var events := ChangedEvents(report, options, confidenceText);
    if ChangedNotifies(report, options) {
      assert events[|printout|].Notify?;
    } else {
      assert events == printout;
    }
  }

  /** The final chomp removes nothing in every case the plugin reaches: without
      written reports, and with a list of output files, whose note ends in "]". */
  lemma ChangedMessageUnchomped(report: RescanReport, options: Hash)
    requires !Truthy(Lookup(options, OUTPUT_FILES)) || Lookup(options, OUTPUT_FILES).List?
    ensures ChangedMessage(report, options) == Join(ChangedMessageParts(report, options), ", ")
  {
    var parts := ChangedMessageParts(report, options);
    if parts != [] {
      LastPartPlain(report, options);
      var last := parts[|parts| - 1];
      JoinEndsWithLast(parts, ", ");
      var joined := Join(parts, ", ");
      assert joined[|joined| - 1] == last[|last| - 1];
    }
  }

  /** The last part of a non-empty message ends in neither line-break character:
      a count line ends in a letter, and the note on a list of files in "]". */
  lemma LastPartPlain(report: RescanReport, options: Hash)
    requires !Truthy(Lookup(options, OUTPUT_FILES)) || Lookup(options, OUTPUT_FILES).List?
    requires ChangedMessageParts(report, options) != []
    ensures var parts := ChangedMessageParts(report, options);
      |parts| > 0 && var last := parts[|parts| - 1];
      |last| > 0 && last[|last| - 1] != '\n' && last[|last| - 1] != '\r'
  {
    if Truthy(Lookup(options, OUTPUT_FILES)) {
      var parts := ChangedMessageParts(report, options);
      assert parts[|parts| - 1] == "\nResults written to " + Inspect(Lookup(options, OUTPUT_FILES).items);
      NotePlain(Lookup(options, OUTPUT_FILES).items);
    } else {
      LastCountPlain(report, options);
    }
  }

  /** Without the note, the last part is the count line of the last non-empty bucket. */
  lemma LastCountPlain(report: RescanReport, options: Hash)
    requires !Truthy(Lookup(options, OUTPUT_FILES))
    requires ChangedMessageParts(report, options) != []
    ensures var parts := ChangedMessageParts(report, options);
      |parts| > 0 && var last := parts[|parts| - 1];
      |last| > 0 && last[|last| - 1] != '\n' && last[|last| - 1] != '\r'
  {
    var parts := ChangedMessageParts(report, options);
    var last := parts[|parts| - 1];
    if |report.existingWarnings| > 0 {
      assert last == Pluralize(Some(|report.existingWarnings|), "previous warning", None);
      PluralizeLastChar(|report.existingWarnings|, "previous warning");
    } else if |report.newWarnings| > 0 {
      assert last == Pluralize(Some(|report.newWarnings|), "new warning", None);
      PluralizeLastChar(|report.newWarnings|, "new warning");
    } else {
      assert last == Pluralize(Some(|report.fixedWarnings|), "fixed warning", None);
      PluralizeLastChar(|report.fixedWarnings|, "fixed warning");
    }
  }

  /** The written-reports note ends in the inspected array's closing bracket. */
  lemma NotePlain(items: seq<string>)
    ensures var note := "\nResults written to " + Inspect(items);
      note[|note| - 1] == ']'
  {
    var shown := Inspect(items);
    assert ("\nResults written to " + shown)[|"\nResults written to " + shown| - 1] == shown[|shown| - 1];
  }

  /** One fixed and two previous warnings, without written reports: the message
      reads "1 fixed warning, 2 previous warnings". */
  lemma ChangedMessageExample(fixed: Warning, a: Warning, b: Warning, options: Hash)
    requires !Truthy(Lookup(options, OUTPUT_FILES))
    ensures ChangedMessage(RescanReport([fixed], [], [a, b], true), options) == "1 fixed warning" + ", " + "2 previous warnings"
  {
    var report := RescanReport([fixed], [], [a, b], true);
    ChangedMessageUnchomped(report, options);
    var one, two := "1 fixed warning", "2 previous warnings";
    OneFixedWarning();
    TwoPreviousWarnings();
    assert ChangedMessageParts(report, options) == [one] + [] + [two] + [];
    assert [one] + [] + [two] + [] == [one, two];
    assert Join([one, two], ", ") == one + ", " + two;
  }

  lemma OneFixedWarning()
    ensures Pluralize(Some(1), "fixed warning", None) == "1 fixed warning"
  {
    PluralizeOne("fixed warning");
    assert "1 " + "fixed warning" == "1 fixed warning";
  }

  lemma TwoPreviousWarnings()
    ensures Pluralize(Some(2), "previous warning", None) == "2 previous warnings"
  {
    PluralizeTwo("previous warning");
    assert "2 " + "previous warning" == "2 previous warning";
    assert "2 previous warning" + "s" == "2 previous warnings";
  }

  lemma PluralizeOne(noun: string)
    ensures Pluralize(Some(1), noun, None) == "1 " + noun
  {
    assert NatToString(1) == "1";
  }

  lemma PluralizeTwo(noun: string)
    ensures Pluralize(Some(2), noun, None) == "2 " + noun + "s"
  {
    assert NatToString(2) == "2";
  }

  /** A pluralized phrase ends as its noun does, or in the plural's 's'. */
  lemma PluralizeLastChar(n: nat, noun: string)
    requires |noun| > 0
    ensures var p := Pluralize(Some(n), noun, None);
      |p| > 0 && (p[|p| - 1] == noun[|noun| - 1] || p[|p| - 1] == 's')
  {
  }

  lemma {:induction false} JoinEndsWithLast(parts: seq<string>, sep: string)
    requires |parts| >= 1
    ensures EndsWith(Join(parts, sep), parts[|parts| - 1])
    decreases |parts|
  {
    if |parts| > 1 {
      JoinEndsWithLast(parts[1..], sep);
    }
  }

  /** Warnings fixed while others remain: the icon is success, not pending,
      and the title counts the fixed warnings. */
  lemma FixedBeatsExisting(fixed: Warning, existing: Warning)
    ensures var report := RescanReport([fixed], [], [existing], true);
      && ChangedIcon(report) == Some(Success)
      && ChangedTitle(ChangedIcon(report), report) == Some("1 Warning fixed.")
  {
    assert Digit(1) == '1';
    assert Pluralize(Some(1), "Warning", None) == "1 Warning";
    assert "1 Warning" + " fixed." == "1 Warning fixed.";
  }
}
