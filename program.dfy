/**
 * The program itself: the globals of sonivoxrender.c as the fields of one
 * object, and its functions as methods that update them and talk to the
 * library through an Environment.  Each method is proved to do what the
 * matching function of the Driver, Library and Render modules describes.
 */
module Program {

  import opened Wrappers
  import opened Engine
  import opened Version
  import opened Library
  import opened Render
  import opened Driver

  class SonivoxRender {
    /** The library and stdio. */
    const env: Environment

    // The option globals.
    var dlsPath: Option<string>
    var playbackGain: int
    var reverbType: int
    var reverbWet: int
    var reverbDry: int
    var chorusType: int
    var chorusLevel: int
    var verbosity: int

    /** mEASDataHandle != NULL. */
    var dataHandle: bool
    /** What mEASConfig points to, None for NULL. */
    var config: Option<LibConfig>
    /** sLibrary_version, up to its NUL. */
    var libraryVersion: string

    /** The option globals as one value. */
    ghost function Globals(): Settings
      reads this
    {
      Settings(dlsPath, playbackGain, reverbType, reverbWet, reverbDry, chorusType, chorusLevel, verbosity)
    }

    /** The globals as the program starts. */
    constructor (env: Environment)
      ensures this.env == env
      ensures Globals() == Defaults && !dataHandle && config == None && libraryVersion == ""
    {
      this.env := env;
      dlsPath := None;
      playbackGain := 90;
      reverbType := 0;
      reverbWet := 32767;
      reverbDry := 0;
      chorusType := 0;
      chorusLevel := 32767;
      verbosity := DEFAULT_VERBOSITY;
      dataHandle := false;
      config := None;
      libraryVersion := "";
    }

    /** initLibraryVersion: queries the configuration and prints its version word. */
    method InitLibraryVersion()
      modifies this, env
      ensures var q := VersionRun(old(env.Current()));
        && libraryVersion == q.text && config == q.config && env.Current() == q.world
      ensures Globals() == old(Globals()) && dataHandle == old(dataHandle)
    {
      libraryVersion := "";
      var r := env.Invoke(LibConfigQuery);
      if !r.present {
        config := None;
      } else {
        config := Some(r.config);
        var v := r.config.libVersion;
        var v1 := ((v >> 24) & 0xff) as bv8;
        var v2 := ((v >> 16) & 0xff) as bv8;
        var v3 := ((v >> 8) & 0xff) as bv8;
        var v4 := (v & 0xff) as bv8;
        libraryVersion := Snprintf(Print(Quad(v1, v2, v3, v4)), VERSION_BUFFER_SIZE);
      }
    }

    /** shutdownLibrary: EAS_Shutdown when there is a data handle; the handle is left as it is. */
    method ShutdownLibrary()
      modifies env
      ensures env.Current() == ShutdownRun(old(env.Current()), dataHandle)
    {
      if dataHandle {
        var result := env.Invoke(Shutdown);
      }
    }

    /** initializeLibrary. */
    method InitializeLibrary() returns (ok: int)
      modifies this, env
      ensures var r := InitRun(old(env.Current()), old(Globals()));
        && ok == (if r.ok then EXIT_SUCCESS else EXIT_FAILURE)
        && dataHandle == r.handle
        && env.Current() == r.world
      ensures Globals() == old(Globals()) && config == old(config) && libraryVersion == old(libraryVersion)
    {
      ghost var s := Globals();
      ok := EXIT_SUCCESS;

      var result := env.Invoke(Init);
      dataHandle := result.present;
      if result.code != EAS_SUCCESS {
        ok := EXIT_FAILURE;
        return;
      }
      if !dataHandle {
        ok := EXIT_FAILURE;
        return;
      }

      label cleanup: {
        var accepted := LoadDlsFile();
        if !accepted {
          ok := EXIT_FAILURE;
          break cleanup;
        }

        ghost var w2 := env.Current();
        RunCheckedConcat(w2, [SetVolume(s.playbackGain)], ReverbCalls(s) + ChorusCalls(s));
        RunCheckedConcat(Issue(w2, SetVolume(s.playbackGain)), ReverbCalls(s), ChorusCalls(s));
        assert EffectCalls(s) == [SetVolume(s.playbackGain)] + (ReverbCalls(s) + ChorusCalls(s));
        RunCheckedCons(w2, SetVolume(s.playbackGain), []);
        result := env.Invoke(SetVolume(playbackGain));
        if result.code != EAS_SUCCESS {
          ok := EXIT_FAILURE;
          break cleanup;
        }
        accepted := ConfigureReverb();
        if !accepted {
          ok := EXIT_FAILURE;
          break cleanup;
        }
        accepted := ConfigureChorus();
        if !accepted {
          ok := EXIT_FAILURE;
          break cleanup;
        }
        return;
      }
      ShutdownLibrary();
    }

    /** The DLS block of initializeLibrary: with a DLS path, fopen, EAS_LoadDLSCollection and fclose. */
    method LoadDlsFile() returns (accepted: bool)
      modifies env
      ensures Step(accepted, env.Current()) == LoadDls(old(env.Current()), dlsPath)
    {
      accepted := true;
      if dlsPath.Some? {
        var file := env.Invoke(FOpen(dlsPath.value));
        if !file.present {
          accepted := false;
          return;
        }
        var result := env.Invoke(LoadDLSCollection);
        var closed := env.Invoke(FClose(dlsPath.value));
        if result.code != EAS_SUCCESS {
          accepted := false;
        }
      }
    }

    /** The reverb block of initializeLibrary: preset, wet and dry when the preset is in range, then the bypass. */
    method ConfigureReverb() returns (accepted: bool)
      modifies env
      ensures Step(accepted, env.Current()) == RunChecked(old(env.Current()), ReverbCalls(Globals()))
    {
      ghost var pending := ReverbCalls(Globals());
      var reverbBypass := EAS_TRUE;
      var reverbPreset := reverbType - 1;
      if EAS_PARAM_REVERB_LARGE_HALL <= reverbPreset <= EAS_PARAM_REVERB_ROOM {
        reverbBypass := EAS_FALSE;
        RunCheckedCons(env.Current(), pending[0], pending[1..]);
        var result := env.Invoke(SetParameter(ReverbModule, ReverbPreset, reverbPreset));
        if result.code != EAS_SUCCESS {
          return false;
        }
        pending := pending[1..];
        RunCheckedCons(env.Current(), pending[0], pending[1..]);
        result := env.Invoke(SetParameter(ReverbModule, ReverbWet, reverbWet));
        if result.code != EAS_SUCCESS {
          return false;
        }
        pending := pending[1..];
        RunCheckedCons(env.Current(), pending[0], pending[1..]);
        result := env.Invoke(SetParameter(ReverbModule, ReverbDry, reverbDry));
        if result.code != EAS_SUCCESS {
          return false;
        }
        pending := pending[1..];
      }
      RunCheckedCons(env.Current(), pending[0], []);
      var result := env.Invoke(SetParameter(ReverbModule, ReverbBypass, reverbBypass));
      accepted := result.code == EAS_SUCCESS;
    }

    /** The chorus block of initializeLibrary: preset and level when the preset is in range, then the bypass. */
    method ConfigureChorus() returns (accepted: bool)
      modifies env
      ensures Step(accepted, env.Current()) == RunChecked(old(env.Current()), ChorusCalls(Globals()))
    {
      ghost var pending := ChorusCalls(Globals());
      var chorusBypass := EAS_TRUE;
      var chorusPreset := chorusType - 1;
      if EAS_PARAM_CHORUS_PRESET1 <= chorusPreset <= EAS_PARAM_CHORUS_PRESET4 {
        chorusBypass := EAS_FALSE;
        RunCheckedCons(env.Current(), pending[0], pending[1..]);
        var result := env.Invoke(SetParameter(ChorusModule, ChorusPreset, chorusPreset));
        if result.code != EAS_SUCCESS {
          return false;
        }
        pending := pending[1..];
        RunCheckedCons(env.Current(), pending[0], pending[1..]);
        result := env.Invoke(SetParameter(ChorusModule, ChorusLevel, chorusLevel));
        if result.code != EAS_SUCCESS {
          return false;
        }
        pending := pending[1..];
      }
      RunCheckedCons(env.Current(), pending[0], []);
      var result := env.Invoke(SetParameter(ChorusModule, ChorusBypass, chorusBypass));
      accepted := result.code == EAS_SUCCESS;
    }

    /** renderFile(path): renders one MIDI file to the output, buffer by buffer. */
    method RenderFile(path: string) returns (ok: int)
      modifies this, env
      ensures var r := RenderRun(old(env.Current()), path, old(config));
        && ok == (if r.ok then EXIT_SUCCESS else EXIT_FAILURE)
        && env.Current() == r.world
        && config == r.config
      ensures Globals() == old(Globals()) && dataHandle == old(dataHandle) && libraryVersion == old(libraryVersion)
    {
      ok := EXIT_SUCCESS;
      var file := env.Invoke(FOpen(path));
      if !file.present {
        ok := EXIT_FAILURE;
        return;
      }
      var fine, streamHandle := RenderStream();
      if !fine {
        ok := EXIT_FAILURE;
      }

      if streamHandle {
        var result := env.Invoke(CloseFile);
        if result.code != EAS_SUCCESS {
          ok := EXIT_FAILURE;
        }
      }
      var closed := env.Invoke(FClose(path));
    }

    /** The render loop of renderFile: polls the state and writes one full buffer per iteration until playback stops. */
    method Play(mix: nat, ch: nat, audio: array<int>) returns (played: bool)
      requires audio.Length == mix * ch
      modifies env
      ensures Step(played, env.Current()) == RenderLoop(old(env.Current()), mix, ch)
    {
      ghost var loop := RenderLoop(env.Current(), mix, ch);
      while true
        invariant RenderLoop(env.Current(), mix, ch) == loop
        decreases |env.script|
      {
        var state := env.Invoke(QueryState);
        if state.code != EAS_SUCCESS {
          return false;
        }
        if Stops(state.value) {
          return true;
        }
        var count := env.Invoke(Render(mix));
        if count.code != EAS_SUCCESS {
          return false;
        }
        if count.value != mix {
          return false;
        }
        env.Write(audio.Length);
      }
    }

    /**
     * The option loop of main: each option in turn, until one is rejected.
     */
    method ParseOptions(opts: seq<Opt>) returns (accepted: bool)
      modifies this
      ensures accepted == ApplyOptions(old(Globals()), opts).Parsed?
      ensures accepted ==> Globals() == ApplyOptions(old(Globals()), opts).settings
      ensures dataHandle == old(dataHandle) && config == old(config) && libraryVersion == old(libraryVersion)
    {
      ghost var parse := ApplyOptions(Globals(), opts);
      var i := 0;
      while i < |opts|
        invariant 0 <= i <= |opts|
        invariant Offset(ApplyOptions(Globals(), opts[i..]), i) == parse
        invariant dataHandle == old(dataHandle) && config == old(config) && libraryVersion == old(libraryVersion)
      {
        ApplyOptionsCons(Globals(), opts[i..]);
        assert opts[i..][0] == opts[i] && opts[i..][1..] == opts[i + 1..];
        accepted := TakeOption(opts[i]);
        if !accepted {
          return;
        }
        i := i + 1;
      }
      assert opts[i..] == [];
      return true;
    }

    /**
     * One case of the option switch of main.  Each case stores its argument
     * in its global before checking the range, as the program does.
     */
    method TakeOption(o: Opt) returns (accepted: bool)
      modifies this
      ensures accepted == ApplyOption(old(Globals()), o).Some?
      ensures accepted ==> Globals() == ApplyOption(old(Globals()), o).value
      ensures dataHandle == old(dataHandle) && config == old(config) && libraryVersion == old(libraryVersion)
    {
      accepted := true;
      match o {
        case Help =>
          accepted := false;
        case ShowVersion =>
          accepted := false;
        case Dls(p) =>
          dlsPath := Some(p);
        case Reverb(n) =>
          reverbType := n;
          if reverbType < 0 || reverbType > 4 {
            accepted := false;
          }
        case Wet(n) =>
          reverbWet := n;
          if reverbWet < 0 || reverbWet > 32767 {
            accepted := false;
          }
        case Dry(n) =>
          reverbDry := n;
          if reverbDry < 0 || reverbDry > 32767 {
            accepted := false;
          }
        case Chorus(n) =>
          chorusType := n;
          if chorusType < 0 || chorusType > 4 {
            accepted := false;
          }
        case Level(n) =>
          chorusLevel := n;
          if chorusLevel < 0 || chorusLevel > 32767 {
            accepted := false;
          }
        case Gain(n) =>
          playbackGain := n;
          if playbackGain < 0 || playbackGain > 100 {
            accepted := false;
          }
        case Verbosity(n) =>
          verbosity := n;
          if verbosity < 0 || verbosity > 5 {
            accepted := false;
          }
        case Unknown =>
          accepted := false;
      }
    }

    /**
     * main: the version string, the options, the library, then each file in
     * turn until one fails, and the shutdown.  The result is the exit status.
     */
    method Run(opts: seq<Opt>, files: seq<string>) returns (status: int)
      modifies this, env
      ensures var m := MainRun(old(env.Current()), old(Globals()), opts, files);
        status == m.status && env.Current() == m.world
    {
      ghost var w0 := env.Current();
      ghost var start := Globals();
      InitLibraryVersion();
      ghost var q := VersionRun(w0);
      var accepted := ParseOptions(opts);
      if !accepted {
        return EXIT_FAILURE;
      }
      ghost var s := Globals();
      ghost var init := InitRun(q.world, s);
      var ok := InitializeLibrary();
      if ok != EXIT_SUCCESS {
        return ok;
      }
      ghost var all := RenderAll(env.Current(), files, config);
      var index := 0;
      while index < |files|
        invariant 0 <= index <= |files|
        invariant ok == EXIT_SUCCESS && dataHandle == init.handle
        invariant RenderAll(env.Current(), files[index..], config) == all
      {
        assert files[index..][0] == files[index] && files[index..][1..] == files[index + 1..];
        ok := RenderFile(files[index]);
        if ok != EXIT_SUCCESS {
          break;
        }
        index := index + 1;
      }
      assert all.world == env.Current() && all.ok == (ok == EXIT_SUCCESS);
      ShutdownLibrary();
      return ok;
    }

    /**
     * The part of renderFile between fopen and the cleanup: opens the stream,
     * prepares it, checks its play length, reads the configuration and runs
     * the render loop.  `streamHandle` says whether the cleanup has a stream
     * to close.
     */
    method RenderStream() returns (fine: bool, streamHandle: bool)
      modifies this, env
      ensures Body(fine, env.Current(), streamHandle, config) == RenderBody(old(env.Current()), old(config))
      ensures Globals() == old(Globals()) && dataHandle == old(dataHandle) && libraryVersion == old(libraryVersion)
    {
      var result := env.Invoke(OpenFile);
      streamHandle := result.present;
      if result.code != EAS_SUCCESS {
        return false, streamHandle;
      }
      if !streamHandle {
        return false, streamHandle;
      }
      ghost var w2 := env.Current();
      RunCheckedCons(w2, Prepare, [ParseMetaData]);
      RunCheckedCons(Issue(w2, Prepare), ParseMetaData, []);
      result := env.Invoke(Prepare);
      if result.code != EAS_SUCCESS {
        return false, streamHandle;
      }
      var playLength := env.Invoke(ParseMetaData);
      if playLength.code != EAS_SUCCESS {
        return false, streamHandle;
      }
      if playLength.value == 0 {
        return false, streamHandle;
      }
      var c := env.Invoke(LibConfigQuery);
      config := if c.present then Some(c.config) else None;
      if !c.present {
        return false, streamHandle;
      }
      var mix := c.config.mixBufferSize;
      var ch := c.config.numChannels;
      var audio := new int[mix * ch];
      fine := Play(mix, ch, audio);
    }
  }
}
