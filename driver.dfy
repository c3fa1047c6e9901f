/**
 * The driver (main): the version query, the command-line options folded into
 * the option globals with their range checks, one initialisation, the files
 * rendered in order until the first failure, and the final shutdown.
 */
module Driver {

  import opened Wrappers
  import opened Engine
  import opened Version
  import opened Library
  import opened Render

  const EXIT_SUCCESS: int := 0
  const EXIT_FAILURE: int := 1

  /** The verbosity of a release build, _EAS_SEVERITY_WARNING (eas_report.h is not part of this model). */
  const DEFAULT_VERBOSITY: int := 3

  /** The option globals before the command line is read. */
  const Defaults: Settings := Settings(None, 90, 0, 32767, 0, 0, 32767, DEFAULT_VERBOSITY)

  /** One option as getopt_long hands it over, its argument already converted by atoi. */
  datatype Opt =
    | Help                    // -h, --help
    | ShowVersion             // -v, --version
    | Dls(path: string)       // -d, --dls
    | Reverb(n: int)          // -r, --reverb
    | Wet(n: int)             // -w, --wet
    | Dry(n: int)             // -n, --dry
    | Chorus(n: int)          // -c, --chorus
    | Level(n: int)           // -l, --level
    | Gain(n: int)            // -g, --gain
    | Verbosity(n: int)       // -V, --Verbosity
    | Unknown                 // '?' and anything else getopt_long returns

  /** One case of the option switch: the updated globals, or None when main returns EXIT_FAILURE. */
  function ApplyOption(s: Settings, o: Opt): Option<Settings>
  {
    match o
    case Help => None
    case ShowVersion => None
    case Dls(p) => Some(s.(dlsPath := Some(p)))
    case Reverb(n) => if n < 0 || n > 4 then None else Some(s.(reverbType := n))
    case Wet(n) => if n < 0 || n > 32767 then None else Some(s.(reverbWet := n))
    case Dry(n) => if n < 0 || n > 32767 then None else Some(s.(reverbDry := n))
    case Chorus(n) => if n < 0 || n > 4 then None else Some(s.(chorusType := n))
    case Level(n) => if n < 0 || n > 32767 then None else Some(s.(chorusLevel := n))
    case Gain(n) => if n < 0 || n > 100 then None else Some(s.(playbackGain := n))
    case Verbosity(n) => if n < 0 || n > 5 then None else Some(s.(verbosity := n))
    case Unknown => None
  }

  /** The outcome of the option loop: the globals, or the position of the option that ended main. */
  datatype Parse = Parsed(settings: Settings) | Rejected(at: nat)

  /** A parse of a suffix that starts at position i, read as a parse of the whole list. */
  function Offset(p: Parse, i: nat): Parse
  {
    match p
    case Parsed(u) => Parsed(u)
    case Rejected(k) => Rejected(k + i)
  }

  /** The option loop over opts, starting from the globals s. */
  function ApplyOptions(s: Settings, opts: seq<Opt>): Parse
    decreases |opts|
  {
    if opts == [] then Parsed(s)
    else match ApplyOption(s, opts[0])
      case None => Rejected(0)
      case Some(t) =>
        match ApplyOptions(t, opts[1..])
        case Parsed(u) => Parsed(u)
        case Rejected(i) => Rejected(i + 1)
  }

  /** The option loop, one option at a time. */
  lemma ApplyOptionsCons(s: Settings, opts: seq<Opt>)
    requires opts != []
    ensures ApplyOptions(s, opts) ==
      match ApplyOption(s, opts[0])
      case None => Rejected(0)
      case Some(t) => Offset(ApplyOptions(t, opts[1..]), 1)
  {
  }

  /** The ranges of the usage text; help, version and unknown options are never valid. */
  predicate ValidOption(o: Opt)
  {
    || o.Dls?
    || (o.Reverb? && 0 <= o.n <= 4) || (o.Chorus? && 0 <= o.n <= 4)
    || (o.Wet? && 0 <= o.n <= 32767) || (o.Dry? && 0 <= o.n <= 32767) || (o.Level? && 0 <= o.n <= 32767)
    || (o.Gain? && 0 <= o.n <= 100)
    || (o.Verbosity? && 0 <= o.n <= 5)
  }

  /** Every option global within the range the usage text gives it. */
  predicate SettingsInRange(s: Settings)
  {
    && 0 <= s.reverbType <= 4 && 0 <= s.chorusType <= 4
    && 0 <= s.reverbWet <= 32767 && 0 <= s.reverbDry <= 32767 && 0 <= s.chorusLevel <= 32767
    && 0 <= s.playbackGain <= 100
    && 0 <= s.verbosity <= 5
  }

  lemma DefaultsInRange()
    ensures SettingsInRange(Defaults)
  {
  }

  lemma ApplyOptionValid(s: Settings, o: Opt)
    ensures ApplyOption(s, o).Some? <==> ValidOption(o)
    ensures SettingsInRange(s) && ApplyOption(s, o).Some? ==> SettingsInRange(ApplyOption(s, o).value)
  {
  }

  /**
   * The option loop accepts the command line exactly when every option is
   * valid, and then leaves every global in range; otherwise it stops at the
   * first invalid option.
   */
  lemma {:induction false} OptionsFold(s: Settings, opts: seq<Opt>)
    ensures ApplyOptions(s, opts).Parsed? <==> forall i :: 0 <= i < |opts| ==> ValidOption(opts[i])
    ensures ApplyOptions(s, opts).Parsed? && SettingsInRange(s) ==> SettingsInRange(ApplyOptions(s, opts).settings)
    ensures ApplyOptions(s, opts).Rejected? ==>
      var i := ApplyOptions(s, opts).at;
      i < |opts| && !ValidOption(opts[i]) && forall j :: 0 <= j < i ==> ValidOption(opts[j])
    decreases |opts|
  {
    if opts != [] {
      ApplyOptionValid(s, opts[0]);
      if ApplyOption(s, opts[0]).Some? {
        var t := ApplyOption(s, opts[0]).value;
        OptionsFold(t, opts[1..]);
        assert forall i :: 1 <= i < |opts| ==> opts[i] == opts[1..][i - 1];
      }
    }
  }

  // ---------------------------------------------------------------------
  // The version query and the file loop.

  /** initLibraryVersion: one EAS_Config call; the text is empty when it returns NULL. */
  datatype VersionQuery = VersionQuery(text: string, config: Option<LibConfig>, world: World)

  function VersionRun(w: World): VersionQuery
  {
    var r := Next(w);
    var w1 := Issue(w, LibConfigQuery);
    if !r.present then VersionQuery("", None, w1)
    else VersionQuery(Snprintf(Dotted(r.config.libVersion), VERSION_BUFFER_SIZE), Some(r.config), w1)
  }

  /**
   * The version text is the dotted form of the version word when EAS_Config
   * answers, untruncated, and empty otherwise.
   */
  lemma VersionText(w: World)
    ensures var q := VersionRun(w); var r := ReplyAt(w.script, 0);
      && q.world == Advance(w, [LibConfigQuery])
      && q.text == (if r.present then Dotted(r.config.libVersion) else "")
      && (r.present ==> ParseDotted(q.text) == Some(Unpack(r.config.libVersion)))
  {
    var r := ReplyAt(w.script, 0);
    if r.present {
      DottedFits(r.config.libVersion);
      DottedRoundTrip(r.config.libVersion);
    }
  }

  /** The file loop of main: each file in turn, stopping after the first one that fails. */
  function RenderAll(w: World, files: seq<string>, cfg: Option<LibConfig>): RenderResult
    decreases |files|
  {
    if files == [] then RenderResult(true, w, cfg)
    else
      var r := RenderRun(w, files[0], cfg);
      if !r.ok then r else RenderAll(r.world, files[1..], r.config)
  }

  /** The outcome of main: the exit status and the world after it. */
  datatype MainResult = MainResult(status: int, world: World)

  /**
   * main, run against w with the options and the file arguments of the
   * command line, from the option globals start (Defaults when the program
   * starts).
   */
  function MainRun(w: World, start: Settings, opts: seq<Opt>, files: seq<string>): MainResult
  {
    var q := VersionRun(w);
    match ApplyOptions(start, opts)
    case Rejected(_) => MainResult(EXIT_FAILURE, q.world)
    case Parsed(s) =>
      var init := InitRun(q.world, s);
      if !init.ok then MainResult(EXIT_FAILURE, init.world)
      else
        var all := RenderAll(init.world, files, q.config);
        MainResult(if all.ok then EXIT_SUCCESS else EXIT_FAILURE, ShutdownRun(all.world, init.handle))
  }

  // ---------------------------------------------------------------------
  // Properties of main.

  /** The calls of one file open exactly that file. */
  lemma OpensOfFile(w: World, path: string, cfg: Option<LibConfig>)
    ensures var r := RenderRun(w, path, cfg); var added := Added(w, r.world);
      && Extends(w, r.world)
      && Opens(added) == [path]
      && NoShutdown(added)
  {
    RenderReleasesResources(w, path, cfg);
    OpensOfCalls(Added(w, RenderRun(w, path, cfg).world), path);
  }

  /** fopen of path followed by calls that open nothing and do not shut down. */
  lemma OpensOfCalls(added: seq<Call>, path: string)
    requires 1 <= |added| && added[0] == FOpen(path)
    requires forall i :: 1 <= i < |added| ==> LaterCall(added[i], path)
    ensures Opens(added) == [path] && NoShutdown(added)
  {
    assert added == [added[0]] + added[1..];
    OpensConcat([added[0]], added[1..]);
    OpensNone(added[1..]);
  }

  /**
   * The file loop opens the files in argument order: the files it opens
   * are a prefix of the arguments, all of them when it succeeds, at least
   * one when it fails (RenderAllStops says which).  It never shuts the
   * library down.
   */
  lemma {:induction false} RenderAllFollows(w: World, files: seq<string>, cfg: Option<LibConfig>)
    ensures var r := RenderAll(w, files, cfg); var added := Added(w, r.world);
      && Extends(w, r.world)
      && Opens(added) <= files
      && (r.ok ==> Opens(added) == files)
      && (!r.ok ==> 1 <= |Opens(added)|)
      && NoShutdown(added)
    decreases |files|
  {
    if files == [] {
      assert w.trace[..|w.trace|] == w.trace;
    } else {
      var r1 := RenderRun(w, files[0], cfg);
      OpensOfFile(w, files[0], cfg);
      assert files == [files[0]] + files[1..];
      if r1.ok {
        var r := RenderAll(r1.world, files[1..], r1.config);
        RenderAllFollows(r1.world, files[1..], r1.config);
        FilesChain(w, r1.world, r.world, files[0], files[1..], r.ok);
      }
    }
  }

  /** One file's calls followed by the calls of the files after it. */
  lemma FilesChain(w: World, w1: World, w2: World, path: string, rest: seq<string>, ok: bool)
    requires Extends(w, w1) && Opens(Added(w, w1)) == [path] && NoShutdown(Added(w, w1))
    requires Extends(w1, w2) && Opens(Added(w1, w2)) <= rest && NoShutdown(Added(w1, w2))
    requires ok ==> Opens(Added(w1, w2)) == rest
    ensures var added := Added(w, w2);
      && Extends(w, w2)
      && Opens(added) <= [path] + rest
      && (ok ==> Opens(added) == [path] + rest)
      && 1 <= |Opens(added)|
      && NoShutdown(added)
  {
    AddedChain(w, w1, w2);
    OpensConcat(Added(w, w1), Added(w1, w2));
    NoShutdownConcat(Added(w, w1), Added(w1, w2));
  }

  /** Rendering file j on the world, and with the config, that the files before it leave. */
  function FileStep(w: World, files: seq<string>, cfg: Option<LibConfig>, j: nat): RenderResult
    requires j < |files|
  {
    var pre := RenderAll(w, files[..j], cfg);
    RenderRun(pre.world, files[j], pre.config)
  }

  /** One more file at the end is rendered only when the files before it all succeeded. */
  lemma {:induction false} RenderAllSnoc(w: World, files: seq<string>, path: string, cfg: Option<LibConfig>)
    ensures var p := RenderAll(w, files, cfg);
      RenderAll(w, files + [path], cfg) == if p.ok then RenderRun(p.world, path, p.config) else p
    decreases |files|
  {
    if files == [] {
      assert [] + [path] == [path];
      var r := RenderRun(w, path, cfg);
      assert r.ok ==> r == RenderResult(true, r.world, r.config);
    } else {
      assert (files + [path])[0] == files[0];
      assert (files + [path])[1..] == files[1..] + [path];
      var r1 := RenderRun(w, files[0], cfg);
      if r1.ok {
        RenderAllSnoc(r1.world, files[1..], path, r1.config);
      }
    }
  }

  /**
   * The file loop succeeds iff every file renders on the world the files
   * before it leave; when it fails, its outcome is that of the first file
   * that failed, all files before which succeeded.
   */
  lemma {:induction false} RenderAllStepwise(w: World, files: seq<string>, cfg: Option<LibConfig>)
    ensures var r := RenderAll(w, files, cfg);
      && (r.ok <==> forall j :: 0 <= j < |files| ==> FileStep(w, files, cfg, j).ok)
      && (!r.ok ==> exists j :: 0 <= j < |files| && RenderAll(w, files[..j], cfg).ok && !FileStep(w, files, cfg, j).ok && r == FileStep(w, files, cfg, j))
    decreases |files|
  {
    if files != [] {
      var n := |files|;
      var init, last := files[..n - 1], files[n - 1];
      assert files == init + [last];
      assert files[..n - 1] == init;
      RenderAllSnoc(w, init, last, cfg);
      RenderAllStepwise(w, init, cfg);
      forall j | 0 <= j < n - 1
        ensures FileStep(w, files, cfg, j) == FileStep(w, init, cfg, j)
        ensures files[..j] == init[..j]
      {
        assert files[..j] == init[..j];
      }
      var p := RenderAll(w, init, cfg);
      if p.ok {
        assert RenderAll(w, files, cfg) == FileStep(w, files, cfg, n - 1);
      }
    }
  }

  /** Once the files before j succeeded, rendering file j leaves exactly the files up to j opened. */
  lemma OpensThroughStep(w: World, files: seq<string>, cfg: Option<LibConfig>, j: nat)
    requires j < |files| && RenderAll(w, files[..j], cfg).ok
    ensures Opens(Added(w, FileStep(w, files, cfg, j).world)) == files[..j + 1]
  {
    var pre := RenderAll(w, files[..j], cfg);
    RenderAllFollows(w, files[..j], cfg);
    OpensOfFile(pre.world, files[j], pre.config);
    OpensChain(w, pre.world, FileStep(w, files, cfg, j).world, files, j);
  }

  /** Calls that open the files before j, then calls that open file j, open the files up to j. */
  lemma OpensChain(w: World, p: World, q: World, files: seq<string>, j: nat)
    requires j < |files|
    requires Extends(w, p) && Opens(Added(w, p)) == files[..j]
    requires Extends(p, q) && Opens(Added(p, q)) == [files[j]]
    ensures Opens(Added(w, q)) == files[..j + 1]
  {
    assert files[..j + 1] == files[..j] + [files[j]];
    AddedChain(w, p, q);
    OpensConcat(Added(w, p), Added(p, q));
  }

  /**
   * The file loop stops at the first failing file: its outcome is that
   * file's, and it has opened exactly the files up to that one.
   */
  lemma RenderAllStops(w: World, files: seq<string>, cfg: Option<LibConfig>)
    requires !RenderAll(w, files, cfg).ok
    ensures exists j :: (0 <= j < |files| && RenderAll(w, files[..j], cfg).ok && !FileStep(w, files, cfg, j).ok
      && RenderAll(w, files, cfg) == FileStep(w, files, cfg, j)
      && Opens(Added(w, RenderAll(w, files, cfg).world)) == files[..j + 1])
  {
    RenderAllStepwise(w, files, cfg);
    var j :| 0 <= j < |files| && RenderAll(w, files[..j], cfg).ok && !FileStep(w, files, cfg, j).ok && RenderAll(w, files, cfg) == FileStep(w, files, cfg, j);
    OpensThroughStep(w, files, cfg, j);
  }

  /**
   * An invalid option (and -h, -v or an unknown option) makes main fail
   * after the version query alone: no other library call, nothing written.
   */
  lemma MainRejectsOptions(w: World, start: Settings, opts: seq<Opt>, files: seq<string>)
    requires exists i :: 0 <= i < |opts| && !ValidOption(opts[i])
    ensures var m := MainRun(w, start, opts, files);
      m.status == EXIT_FAILURE && m.world == Advance(w, [LibConfigQuery])
  {
    OptionsFold(start, opts);
    VersionText(w);
  }

  lemma MainInitFails(w: World, s: Settings)
    requires !InitRun(Advance(w, [LibConfigQuery]), s).ok
    ensures var world := InitRun(Advance(w, [LibConfigQuery]), s).world; var added := Added(w, world);
      && Extends(w, world) && 1 <= |added| && added[0] == LibConfigQuery && ShutdownAtMostLast(added)
  {
    var q := Advance(w, [LibConfigQuery]);
    var init := InitRun(q, s);
    AddedAdvance(w, [LibConfigQuery]);
    InitAdded(q, s);
    InitShutdownOnce(q, s);
    AddedChain(w, q, init.world);
    ShutdownAppend([LibConfigQuery], Added(q, init.world));
  }

  lemma MainInitSucceeds(w: World, s: Settings, files: seq<string>, cfg: Option<LibConfig>)
    requires InitRun(Advance(w, [LibConfigQuery]), s).ok
    ensures var init := InitRun(Advance(w, [LibConfigQuery]), s);
      var world := ShutdownRun(RenderAll(init.world, files, cfg).world, init.handle);
      var added := Added(w, world);
      && Extends(w, world) && 1 <= |added| && added[0] == LibConfigQuery
      && ShutdownAtMostLast(added) && added[|added| - 1] == Shutdown
  {
    var q := Advance(w, [LibConfigQuery]);
    AddedAdvance(w, [LibConfigQuery]);
    InitSucceeded(q, s);
    var init := InitRun(q, s);
    var all := RenderAll(init.world, files, cfg);
    RenderAllFollows(init.world, files, cfg);
    assert ShutdownRun(all.world, init.handle) == Advance(all.world, [Shutdown]);
    AddedAdvance(all.world, [Shutdown]);
    MainChain(w, q, init.world, all.world, Advance(all.world, [Shutdown]));
  }

  /** The version query, initialisation and the files, none of them shutting down, then EAS_Shutdown. */
  lemma MainChain(w: World, q: World, wi: World, wa: World, fin: World)
    requires Extends(w, q) && Added(w, q) == [LibConfigQuery]
    requires Extends(q, wi) && NoShutdown(Added(q, wi))
    requires Extends(wi, wa) && NoShutdown(Added(wi, wa))
    requires Extends(wa, fin) && Added(wa, fin) == [Shutdown]
    ensures var added := Added(w, fin);
      && Extends(w, fin) && 1 <= |added| && added[0] == LibConfigQuery
      && ShutdownAtMostLast(added) && added[|added| - 1] == Shutdown
  {
    var b, c := Added(q, wi), Added(wi, wa);
    AddedChain(q, wi, wa);
    AddedChain(q, wa, fin);
    AddedChain(w, q, fin);
    NoShutdownConcat(b, c);
    ShutdownAppend(b + c, [Shutdown]);
    ShutdownAppend([LibConfigQuery], b + c + [Shutdown]);
  }

  /**
   * main exits with EXIT_SUCCESS exactly when the options parse,
   * initialisation succeeds and every file renders, each on the world the
   * files before it leave; otherwise with EXIT_FAILURE.
   */
  lemma MainStatus(w: World, start: Settings, opts: seq<Opt>, files: seq<string>)
    ensures var m := MainRun(w, start, opts, files); var q := VersionRun(w); var p := ApplyOptions(start, opts);
      && (m.status == EXIT_SUCCESS || m.status == EXIT_FAILURE)
      && (m.status == EXIT_SUCCESS <==>
          p.Parsed? && InitRun(q.world, p.settings).ok
          && forall j :: 0 <= j < |files| ==> FileStep(InitRun(q.world, p.settings).world, files, q.config, j).ok)
  {
    var q := VersionRun(w);
    match ApplyOptions(start, opts)
    case Rejected(_) =>
    case Parsed(s) =>
      var init := InitRun(q.world, s);
      if init.ok {
        RenderAllStepwise(init.world, files, q.config);
      }
  }

  /**
   * main starts with the version query and shuts the library down at most
   * once, as its last call; it does so exactly when initialisation succeeded,
   * whatever the files then do.
   */
  lemma MainShutdownOnce(w: World, start: Settings, opts: seq<Opt>, files: seq<string>)
    ensures var m := MainRun(w, start, opts, files); var added := Added(w, m.world);
      && Extends(w, m.world)
      && 1 <= |added| && added[0] == LibConfigQuery
      && (forall i :: 0 <= i < |added| ==> (added[i] == Shutdown ==> i == |added| - 1))
      && (ApplyOptions(start, opts).Parsed? && InitRun(Advance(w, [LibConfigQuery]), ApplyOptions(start, opts).settings).ok
          ==> added[|added| - 1] == Shutdown)
  {
    VersionText(w);
    match ApplyOptions(start, opts)
    case Rejected(_) =>
      AddedAdvance(w, [LibConfigQuery]);
    case Parsed(s) =>
      if InitRun(Advance(w, [LibConfigQuery]), s).ok {
        MainInitSucceeds(w, s, files, VersionRun(w).config);
      } else {
        MainInitFails(w, s);
      }
  }
}
