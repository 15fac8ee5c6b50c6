/** The runner helpers (lib/guard/brakeman/runner.rb): the guarded rescan of
    a list of paths with its announcement, the assembly of a command line
    from options, and the choice of the null device. */
module BrakemanRunner {
  import opened Wrappers
  import opened Text
  import opened Values

  // ---------------------------------------------------------------------------
  // run

  /** What `run` returns: `false` for an empty path list, `nil` when the
      rescan reports no change, or the rescan's result. */
  datatype RunResult<R> = Skipped | Unchanged | Changed(rescan: R)

  /** One call of `run`: the info line it prints, whether it asked the scanner
      to rescan and to run its checks, and what it returns. */
  datatype RunTrace<R> = RunTrace(info: Option<string>, rescanned: bool, checksRun: bool, result: RunResult<R>)

  const WHOLE_PROJECT_MESSAGE := "Run brakeman on the whole project"
  const CHECKS_MESSAGE := "Run brakeman checks "

  /** The announcement of a run: the `message` option when it is set, else a
      fixed text for the project root alone, else the paths after a fixed prefix. */
  function RunMessage(paths: seq<string>, options: Hash): (r: string)
    ensures Truthy(Lookup(options, MESSAGE)) ==> r == ToS(Lookup(options, MESSAGE))
    ensures !Truthy(Lookup(options, MESSAGE)) ==> (r == WHOLE_PROJECT_MESSAGE <==> paths == ["."])
    ensures !Truthy(Lookup(options, MESSAGE)) && paths != ["."] ==> StartsWith(r, CHECKS_MESSAGE)
  {
    var checks := CHECKS_MESSAGE + Join(paths, " ");
    assert checks[..|CHECKS_MESSAGE|] == CHECKS_MESSAGE;
    assert checks[13] == 'c' != WHOLE_PROJECT_MESSAGE[13];
    if Truthy(Lookup(options, MESSAGE)) then ToS(Lookup(options, MESSAGE))
    else if paths == ["."] then WHOLE_PROJECT_MESSAGE
    else checks
  }

  /** `run`: nothing for an empty path list; otherwise the announcement, the
      rescan (whose outcome `rescan` is: `None` for a falsy result) and, when
      the rescan reports a change, the checks. */
  function Run<R>(paths: seq<string>, options: Hash, rescan: Option<R>): (t: RunTrace<R>)
    ensures t.result == Skipped <==> |paths| == 0
    ensures |paths| == 0 ==> t.info.None? && !t.rescanned && !t.checksRun
    ensures |paths| > 0 ==> t.info == Some(RunMessage(paths, options)) && t.rescanned
    ensures t.checksRun <==> t.result.Changed?
    ensures t.result.Changed? ==> rescan == Some(t.result.rescan)
    ensures |paths| > 0 && rescan.None? ==> t.result == Unchanged
    ensures |paths| > 0 && rescan.Some? ==> t.result == Changed(rescan.value) && t.checksRun
  {
    if |paths| == 0 then RunTrace(None, false, false, Skipped)
    else
      match rescan
      case None => RunTrace(Some(RunMessage(paths, options)), true, false, Unchanged)
      case Some(changed) => RunTrace(Some(RunMessage(paths, options)), true, true, Changed(changed))
  }

  /** Without a `message` option, and for any path list other than the project
      root alone, the announcement's words are "Run brakeman checks" followed
      by the paths, when no path contains a space. */
  lemma RunMessageWords(paths: seq<string>, options: Hash)
    requires !Truthy(Lookup(options, MESSAGE))
    requires |paths| >= 1 && paths != ["."]
    requires forall i :: 0 <= i < |paths| ==> ' ' !in paths[i]
    ensures Fields(RunMessage(paths, options), ' ') == ["Run", "brakeman", "checks"] + paths
  {
    var head := ["Run", "brakeman", "checks"];
    assert Join(head, " ") == "Run brakeman checks";
    JoinAppend(head, paths, " ");
    assert RunMessage(paths, options) == Join(head + paths, " ");
    forall i | 0 <= i < |head + paths| ensures ' ' !in (head + paths)[i] {
      if i >= |head| {
        assert (head + paths)[i] == paths[i - |head|];
      }
    }
    FieldsOfJoin(head + paths, ' ');
  }

  // ---------------------------------------------------------------------------
  // brakeman_command

  /** How `Array#join(' ')` renders one element: a nested array is joined with
      the same separator, anything else by `to_s`. */
  function JoinedText(v: Value): string {
    if v.List? then Join(v.items, " ") else ToS(v)
  }

  function RvmPart(options: Hash): seq<string> {
    var rvm := Lookup(options, RVM);
    if rvm.List? then ["rvm " + Join(rvm.items, ",") + " exec"] else []
  }

  function BundlerPart(options: Hash, bundler: bool): seq<string> {
    if bundler && Lookup(options, BUNDLER) != Bool(false) then ["bundle exec"] else []
  }

  function CliPart(options: Hash): seq<string> {
    if Truthy(Lookup(options, CLI)) then [JoinedText(Lookup(options, CLI))] else []
  }

  function OutputPart(options: Hash): seq<string> {
    if Truthy(Lookup(options, OUTPUT)) then ["-o " + ToS(Lookup(options, OUTPUT))] else []
  }

  /** The words of the command before the paths, in their fixed order: the
      rvm wrapper, the bundler wrapper, the executable, the extra command-line
      text and the output option. `bundler` is whether a Gemfile was found. */
  function CommandParts(options: Hash, bundler: bool): (r: seq<string>)
    ensures 1 <= |r| <= 5 && "brakeman" in r
  {
    RvmPart(options) + BundlerPart(options, bundler) + ["brakeman"] + CliPart(options) + OutputPart(options)
  }

  /** The executable comes right after the wrappers that are present, and each
      later part is present exactly when its option is set. */
  lemma CommandPartsOrder(options: Hash, bundler: bool)
    ensures var parts := CommandParts(options, bundler);
      var k := (if Lookup(options, RVM).List? then 1 else 0)
        + (if bundler && Lookup(options, BUNDLER) != Bool(false) then 1 else 0);
      && |parts| == k + 1 + (if Truthy(Lookup(options, CLI)) then 1 else 0)
                          + (if Truthy(Lookup(options, OUTPUT)) then 1 else 0)
      && parts[k] == "brakeman"
      && (k >= 1 && Lookup(options, RVM).List? ==> parts[0] == "rvm " + Join(Lookup(options, RVM).items, ",") + " exec")
      && (k >= 1 && !Lookup(options, RVM).List? ==> parts[0] == "bundle exec")
      && (k == 2 ==> parts[1] == "bundle exec")
      && (Truthy(Lookup(options, CLI)) ==> parts[k + 1] == JoinedText(Lookup(options, CLI)))
      && (Truthy(Lookup(options, OUTPUT)) ==> parts[|parts| - 1] == "-o " + ToS(Lookup(options, OUTPUT)))
  {
  }

  /** The `notification` option never changes the command. */
  lemma CommandIgnoresNotification(options: Hash, bundler: bool, v: Value)
    ensures CommandParts(options[NOTIFICATION := v], bundler) == CommandParts(options, bundler)
  {
    assert Lookup(options[NOTIFICATION := v], RVM) == Lookup(options, RVM);
    assert Lookup(options[NOTIFICATION := v], BUNDLER) == Lookup(options, BUNDLER);
    assert Lookup(options[NOTIFICATION := v], CLI) == Lookup(options, CLI);
    assert Lookup(options[NOTIFICATION := v], OUTPUT) == Lookup(options, OUTPUT);
  }

  /** The command ends with the paths, in their given order, as its last
      space-separated words, when no path contains a space. */
  lemma CommandEndsWithPaths(options: Hash, bundler: bool, paths: seq<string>)
    requires |paths| >= 1
    requires forall i :: 0 <= i < |paths| ==> ' ' !in paths[i]
    ensures var words := Fields(Join(CommandParts(options, bundler) + paths, " "), ' ');
      |words| >= |paths| && words[|words| - |paths|..] == paths
  {
    var parts := CommandParts(options, bundler);
    assert |parts| >= 1;
    JoinAppend(parts, paths, " ");
    FieldsAround(Join(parts, " "), Join(paths, " "), ' ');
    FieldsOfJoin(paths, ' ');
  }

  // ---------------------------------------------------------------------------
  // The runner's memo

  /** The runner module's own state: the memoised Gemfile probe `@bundler`. */
  class Runner {
    /** `@bundler`; nil and false are both falsy, so both are `false` here. */
    var bundler: bool

    constructor ()
      ensures !bundler
    {
      bundler := false;
    }

    /** `bundler?`: `@bundler ||= File.exist?(Gemfile)`. `gemfileExists` is the
        probe's answer. A found Gemfile is remembered; a missing one is probed
        again next time. */
    method Bundler(gemfileExists: bool) returns (b: bool)
      modifies this`bundler
      ensures b == (old(bundler) || gemfileExists) && bundler == b
      ensures old(bundler) ==> b
    {
      if !bundler {
        bundler := gemfileExists;
      }
      b := bundler;
    }

    /** `brakeman_command`: collects the command's words one by one, then joins
        them and the paths with single spaces. */
    method BrakemanCommand(paths: seq<string>, options: Hash, gemfileExists: bool) returns (command: string)
      modifies this`bundler
      ensures bundler == (old(bundler) || gemfileExists)
      ensures command == Join(CommandParts(options, bundler) + paths, " ")
    {
      var cmd: seq<string> := [];
      var rvm := Lookup(options, RVM);
      if rvm.List? {
        cmd := cmd + ["rvm " + Join(rvm.items, ",") + " exec"];
      }
      var found := Bundler(gemfileExists);
      if found && Lookup(options, BUNDLER) != Bool(false) {
        cmd := cmd + ["bundle exec"];
      }
      assert cmd == RvmPart(options) + BundlerPart(options, bundler);
      cmd := cmd + ["brakeman"];
      var cli := Lookup(options, CLI);
      if Truthy(cli) {
        cmd := cmd + [JoinedText(cli)];
      }
      var output := Lookup(options, OUTPUT);
      if Truthy(output) {
        cmd := cmd + ["-o " + ToS(output)];
      }
      assert cmd == CommandParts(options, bundler);
      command := Join(cmd + paths, " ");
    }
  }

  // ---------------------------------------------------------------------------
  // null_device

  /** `null_device`: "NUL" on a Windows platform string, "/dev/null" elsewhere.
      A match at position 0 counts, as any integer is truthy in Ruby. */
  function NullDevice(platform: string): (device: string)
    ensures device == "NUL" <==> Contains(platform, "mswin")
    ensures device != "NUL" ==> device == "/dev/null"
  {
    if Index(platform, "mswin").Some? then "NUL" else "/dev/null"
  }
}
