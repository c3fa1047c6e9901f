# sonivoxrender, modelled in Dafny

`sonivoxrender` is a command-line driver for the Sonivox EAS synthesizer. It
renders standard MIDI files to raw PCM audio on standard output. The driver
works in this order:

1. It reads the library version word once (`initLibraryVersion`) and formats
   it as a dotted quad.
2. It folds the command-line options into its globals, stopping at the first
   invalid one.
3. It initialises the library (`initializeLibrary`): EAS_Init, an optional DLS
   collection, the master gain, the reverb block and the chorus block. It
   stops at the first failing call and shuts the library down once a data
   handle exists.
4. It renders each named file in turn (`renderFile`): fopen, EAS_OpenFile,
   EAS_Prepare, EAS_ParseMetaData and EAS_Config, then a loop that polls
   EAS_State, renders one mix buffer and writes it out until playback stops.
   The cleanup closes the stream and the file on every path.
5. It shuts the library down and returns the exit status.

The model treats the library and stdio as an environment that answers each
call with the next reply of a finite script:

- `Engine.Environment` holds the script, a ghost trace of the calls issued,
  and the sizes of the chunks written to standard output.
- Every call consumes one reply, fopen and fclose included. An exhausted
  script answers with a failure reply. This is why the render loop
  terminates.
- `Engine.Accepts` is the test the driver applies to each reply before going
  on.

The C globals are the fields of the class `Program.SonivoxRender`, and the C
functions are its methods. Each method is proved equal to an operational
specification function:

| method | specification function |
|---|---|
| InitLibraryVersion | `Driver.VersionRun` |
| ShutdownLibrary | `Library.ShutdownRun` |
| InitializeLibrary | `Library.InitRun` |
| RenderFile | `Render.RenderRun` |
| Run | `Driver.MainRun` |

The lemmas state what those functions do, in terms of the replies alone: which
calls are issued, in which order, what is written, and which resources are
released. `FileIo` models the `Read` and `Size` callbacks the library uses to
read a file.

One behaviour of the code stands out. When EAS_Init fails but still hands back a non-NULL data handle, initializeLibrary returns before its cleanup, so that handle is never shut down. `Library.InitShutdownOnce` states this case: the only call issued is EAS_Init.

Modules: `Wrappers` (Option), `Engine` (calls, replies, the environment, fail-fast blocks), `Version`, `FileIo`, `Library`, `Render`, `Driver` (options and `main` as functions), `Program` (the imperative class).

## Model

| member | source | states |
|---|---|---|
| Version.Unpack | sonivoxrender.c:80-84 | the four bytes taken from the version word by shifts and masks pack back to the same word |
| Version.UnpackPack | sonivoxrender.c:80-84 | packing four bytes and splitting them again gives the same bytes, so the byte split is a bijection |
| Version.Decimal | sonivoxrender.c:85 | `%u` of a byte is a non-empty string of decimal digits, one digit below ten, with no leading zero: it starts with '0' only for zero itself |
| Version.DecimalValue | sonivoxrender.c:85 | reading the digits of `%u` back gives the number printed |
| Version.DecimalLength | sonivoxrender.c:85 | a byte prints in at most three digits |
| Version.Snprintf | sonivoxrender.c:85 | snprintf keeps a prefix of the text shorter than the buffer: the whole text when it fits, and exactly size-1 characters when it does not |
| Version.DottedFits | sonivoxrender.c:85 | every dotted quad is 7 to 15 characters, so the 16-byte version buffer never truncates it |
| Version.DottedRoundTrip | sonivoxrender.c:80-85 | parsing the version string back at its dots gives exactly the four bytes of the version word |
| Version.DottedInjective | sonivoxrender.c:80-85 | two version words with the same version string are equal |
| Driver.VersionText | sonivoxrender.c:73-87 | initLibraryVersion makes exactly one EAS_Config call; the string is the dotted quad of the word when the config exists and empty otherwise, and it parses back to the word's bytes |
| Program.SonivoxRender.InitLibraryVersion | sonivoxrender.c:73-87 | the method sets the version string and the config pointer and issues the call as VersionRun says, and leaves the option globals alone |
| FileIo.ToInt32 | sonivoxrender.c:53-70 | a value converted to `int` agrees with it modulo 2^32 and is unchanged in range |
| FileIo.Available | sonivoxrender.c:60 | fread returns at most the count, never reads past the end, and returns less only at the end of the file |
| FileIo.HostFile.Seek | sonivoxrender.c:57-66 | fseek moves to any non-negative target offset, past the end included, and returns 0, or fails with -1 and leaves the position unchanged |
| FileIo.HostFile.ReadInto | sonivoxrender.c:60 | fread copies the next `Available` bytes into the buffer, leaves the rest of the buffer unchanged and advances the position by the count read |
| FileIo.Read | sonivoxrender.c:53-61 | Read returns 0 when the seek fails; otherwise it returns the bytes at the offset, as many as are available up to the size, and fills the buffer with them |
| FileIo.Size | sonivoxrender.c:63-70 | Size returns the file length (as an `int`) and leaves the position at the end, or returns the negative fseek result |
| Library.InitFollowsPlan | sonivoxrender.c:99-221 | initialisation succeeds iff every call of the plan (EAS_Init, the DLS calls, the gain, reverb, chorus) is accepted; the handle exists iff EAS_Init returned one; the calls made are the plan up to the first failure, plus EAS_Shutdown when that failure came after the handle existed |
| Library.InitAdded | sonivoxrender.c:99-221 | initialisation only appends calls to the trace, and those calls are exactly InitCalls |
| Library.InitShutdownOnce | sonivoxrender.c:110-221 | a rejected EAS_Init is the only call and fails; otherwise EAS_Shutdown is issued at most once, as the last call, and exactly when initialisation failed |
| Library.DlsClosedOnce | sonivoxrender.c:123-146 | with a DLS path, the collection file is closed exactly once, as the fourth call, right after the load, iff fopen succeeded, whatever the load returned |
| Library.DlsFailureSkipsVolume | sonivoxrender.c:123-153 | when the DLS file cannot be opened or loaded, initialisation fails and the master gain is never set |
| Library.PlanModules | sonivoxrender.c:155-213 | the plan's reverb calls are PRESET, WET, DRY, BYPASS(false) for reverb types 1..4 and BYPASS(true) otherwise; its chorus calls are PRESET, LEVEL, BYPASS(false) for chorus types 1..4 and BYPASS(true) otherwise |
| Library.InitEffects | sonivoxrender.c:148-213 | the reverb and chorus calls made are always a prefix of their blocks; on success the calls are the whole plan, both blocks are complete, and the master gain is set exactly once, right after the prelude, to the playback gain |
| Library.ChorusAfterReverbBypass | sonivoxrender.c:182-213 | every chorus call comes after the reverb bypass call, whose value is false iff the reverb preset is in range, and which succeeded |
| Program.SonivoxRender.ShutdownLibrary | sonivoxrender.c:89-97 | EAS_Shutdown is issued iff the data handle exists; the handle is not cleared |
| Program.SonivoxRender.InitializeLibrary | sonivoxrender.c:99-221 | the method returns EXIT_SUCCESS iff InitRun succeeds, sets the data handle and issues the calls as InitRun says, and leaves the other globals alone |
| Program.SonivoxRender.LoadDlsFile | sonivoxrender.c:123-146 | the DLS block opens the file, loads the collection and closes the file as LoadDls says, and is accepted iff both fopen and the load succeeded |
| Program.SonivoxRender.ConfigureReverb | sonivoxrender.c:155-187 | the reverb block is issued fail-fast, as RunChecked on ReverbCalls |
| Program.SonivoxRender.ConfigureChorus | sonivoxrender.c:189-213 | the chorus block is issued fail-fast, as RunChecked on ChorusCalls |
| Render.CyclesAlternate | sonivoxrender.c:295-325 | k full iterations are 2k calls that alternate EAS_State and EAS_Render of one mix buffer |
| Render.TotalChunks | sonivoxrender.c:321-322 | k written buffers of n samples hold k*n samples |
| Render.RenderLoopFollows | sonivoxrender.c:295-325 | the loop runs Completed full iterations, then a last one; it succeeds iff the last EAS_State succeeded with STOPPED or ERROR; it issues exactly those calls and writes one chunk of mixBufferSize*numChannels samples per full iteration |
| Render.RenderEarlyFailure | sonivoxrender.c:234-293 | when fopen or a call before the loop fails, renderFile fails, writes nothing, issues the prologue up to the failure (then the CloseFile and fclose the cleanup owes), and clears the config pointer only when EAS_Config failed |
| Render.RenderAfterPrologue | sonivoxrender.c:234-340 | when the prologue succeeds, renderFile succeeds iff the loop does and EAS_CloseFile succeeds; afterwards it closes the stream and the file, in that order, and keeps the new config |
| Render.RenderReleasesResources | sonivoxrender.c:327-339 | renderFile starts with fopen; fclose comes exactly once, last, iff fopen succeeded; EAS_CloseFile comes exactly once, second to last, iff a stream handle exists |
| Render.RenderSampleCount | sonivoxrender.c:295-325 | once the prologue is accepted, renderFile adds k*mixBufferSize*numChannels samples to the output, k being the completed loop iterations |
| Render.RenderOutput | sonivoxrender.c:234-340 | once the prologue is accepted, what renderFile writes is exactly one mix buffer of mixBufferSize*numChannels samples per completed loop iteration; it succeeds iff the poll after them reports STOPPED or ERROR and EAS_CloseFile succeeds |
| Program.SonivoxRender.RenderStream | sonivoxrender.c:245-325 | the steps from EAS_OpenFile through the render loop stop at the first failure, record whether a stream handle exists and which config EAS_Config returned, and issue and write exactly what RenderBody says |
| Program.SonivoxRender.Play | sonivoxrender.c:295-325 | the loop method returns and changes the environment exactly as RenderLoop says |
| Program.SonivoxRender.RenderFile | sonivoxrender.c:223-340 | the method returns EXIT_SUCCESS iff RenderRun succeeds, issues and writes exactly what RenderRun says, and leaves the config pointer where RenderRun leaves it |
| Driver.DefaultsInRange | sonivoxrender.c:35-48 | the initial globals lie in the ranges that main enforces |
| Driver.ApplyOptionValid | sonivoxrender.c:371-455 | one option is accepted iff it is a DLS path or a number within its range (reverb and chorus 0..4, wet, dry and level 0..32767, gain 0..100, verbosity 0..5); help, version and unknown options are never accepted; an accepted option keeps the globals in range |
| Program.SonivoxRender.TakeOption | sonivoxrender.c:371-455 | one option is accepted iff ApplyOption accepts it, and then the globals are what ApplyOption gives; the handle, config and version are untouched |
| Driver.OptionsFold | sonivoxrender.c:364-456 | the option loop gets through iff every option is accepted; it keeps in-range globals in range; when it stops, it stops at the first rejected option |
| Program.SonivoxRender.ParseOptions | sonivoxrender.c:364-456 | the method gets through iff ApplyOptions does, and then holds the globals ApplyOptions computes |
| Driver.RenderAllFollows | sonivoxrender.c:463-468 | the file loop opens the files in argument order: a prefix of them, all of them when it succeeds, at least one when it fails; it never shuts the library down |
| Driver.RenderAllSnoc | sonivoxrender.c:463-468 | a file at the end of the list is rendered, on the world the files before it leave, only when all of them succeeded |
| Driver.RenderAllStepwise | sonivoxrender.c:463-468 | the file loop succeeds iff every file renders on the world the files before it leave; when it fails, its outcome is exactly that of a failing file all of whose predecessors succeeded |
| Driver.RenderAllStops | sonivoxrender.c:463-468 | when the file loop fails, it stops at the first failing file: the outcome is that file's, and the files opened are exactly those up to and including it |
| Driver.MainStatus | sonivoxrender.c:342-473 | main exits with EXIT_SUCCESS iff the options parse, initialisation succeeds and every file renders in turn, and with EXIT_FAILURE otherwise |
| Driver.MainRejectsOptions | sonivoxrender.c:347-456 | with any invalid option, main exits with EXIT_FAILURE after only the EAS_Config call of initLibraryVersion |
| Driver.MainShutdownOnce | sonivoxrender.c:342-473 | main starts with EAS_Config, issues EAS_Shutdown at most once and only as its last call, and always issues it when the options parse and initialisation succeeds |
| Program.SonivoxRender.Run | sonivoxrender.c:342-473 | the method returns the exit status and changes the environment exactly as MainRun says |
| Program.SonivoxRender.constructor | sonivoxrender.c:35-50 | the globals start with their initial values: no DLS path, gain 90, reverb 0, wet 32767, dry 0, chorus 0, level 32767, verbosity 3, no handle, no config, an empty version string |

## Left out

- Command-line parsing is not modelled. Options reach the model already tokenised, as `Driver.Opt` values with their arguments converted by `atoi`. The model does not cover getopt_long's handling of short and long forms, missing arguments or `optind`, or `atoi` itself.
- The messages written to standard error (usage text, version line, error messages) are not modelled. Only the calls and the exit status are.
- EAS_SetDebugFile, EAS_SetDebugLevel and the Windows `setmode` call in initializeLibrary are left out. They produce diagnostics only and do not change the result.
- Program.SonivoxRender.RenderFile: the `alloca` NULL check is left out. A Dafny allocation cannot fail.
- Program.SonivoxRender.RenderFile: the rendered samples are not modelled. The output records how many samples each fwrite writes, and `sizeof(EAS_PCM)` is not modelled.
- The header constants are assumed, not derived: EAS_SUCCESS 0, the reverb presets 0..3, the chorus presets 0..3, EAS_STATE_STOPPED 4, EAS_STATE_ERROR 7, EAS_FALSE 0 and EAS_TRUE 1. The eas.h headers are not part of this model.
- Program.SonivoxRender.constructor: the verbosity default is that of an NDEBUG build (`_EAS_SEVERITY_WARNING`, 3). A debug build starts at 4.
- The library's own behaviour (synthesis, DLS parsing, metadata) is the scripted environment. Any sequence of replies is allowed, within the types of the reply fields.
- Engine.LibConfig: `mixBufferSize` and `numChannels` are `nat`, so the model does not cover a library configuration that reports a negative EAS_I32 for either field.
- The `while (1)` render loop terminates in the model because the script is finite and an exhausted script answers with a failure. Against a library that reports a playing state forever, the program itself would never stop; that run is not modelled.
- Both FileIo callbacks are kept although `NEW_HOST_WRAPPER` removes them. The model of `EAS_FILE` is the `FileIo.HostFile` record; struct layout and `memset` are not modelled.
- Program.SonivoxRender.ShutdownLibrary leaves the data handle set, as the code does. A second call would shut down again.
- FileIo.Read: requires a size between 0 and the buffer length. A negative size would reach fread as a huge `size_t`, and the library never passes one.
- Concurrency and signals are out of scope. The program has neither.

