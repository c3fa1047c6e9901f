/**
 * The world outside the driver: the Sonivox EAS library, the C stdio calls the
 * driver makes on files, and standard output.  Nothing of the synthesizer's
 * internals is modelled: every call the driver issues is answered by the next
 * reply of a script, and is recorded in a call trace.  What the driver writes
 * to standard output is recorded as a list of chunks, counted in samples.
 */
module Engine {

  import opened Wrappers


  // Result codes of the EAS API (eas_types.h is not part of this model; these
  // are the values that header gives them).
  const EAS_SUCCESS: int := 0
  const EAS_FAILURE: int := -1

  // Boolean parameter values passed to EAS_SetParameter.
  const EAS_FALSE: int := 0
  const EAS_TRUE: int := 1

  // The two playback states that end the render loop (eas.h is not part of
  // this model; these are the positions of the states in its enumeration).
  const EAS_STATE_STOPPED: int := 4
  const EAS_STATE_ERROR: int := 7

  // The preset ranges of the reverb and chorus modules (eas_reverb.h and
  // eas_chorus.h are not part of this model).  The usage text of the program,
  // "1=large hall, 2=hall, 3=chamber, 4=room" and "1..4=presets", puts both
  // ranges at 0..3.
  const EAS_PARAM_REVERB_LARGE_HALL: int := 0
  const EAS_PARAM_REVERB_ROOM: int := 3
  const EAS_PARAM_CHORUS_PRESET1: int := 0
  const EAS_PARAM_CHORUS_PRESET4: int := 3

  datatype EffectModule = ReverbModule | ChorusModule

  datatype Param =
    | ReverbPreset | ReverbWet | ReverbDry | ReverbBypass
    | ChorusPreset | ChorusLevel | ChorusBypass

  /** What EAS_Config reports: the library version word and the mix geometry. */
  datatype LibConfig = LibConfig(libVersion: bv32, mixBufferSize: nat, numChannels: nat)

  /** One call the driver makes into the library or into stdio. */
  datatype Call =
    | LibConfigQuery                       // EAS_Config
    | Init                                 // EAS_Init
    | Shutdown                             // EAS_Shutdown
    | LoadDLSCollection                    // EAS_LoadDLSCollection
    | SetVolume(gain: int)                 // EAS_SetVolume
    | SetParameter(effect: EffectModule, param: Param, value: int)
    | OpenFile                             // EAS_OpenFile
    | Prepare                              // EAS_Prepare
    | ParseMetaData                        // EAS_ParseMetaData
    | QueryState                           // EAS_State
    | Render(frames: int)                  // EAS_Render
    | CloseFile                            // EAS_CloseFile
    | FOpen(path: string)                  // fopen(path, "rb")
    | FClose(path: string)                 // fclose

  /**
   * The answer to one call.  `code` is the EAS_RESULT; `present` says that the
   * pointer the call produces is not NULL (the data handle of EAS_Init, the
   * stream handle of EAS_OpenFile, the FILE of fopen, the struct of
   * EAS_Config); `value` is the integer the call writes back (the play length
   * of EAS_ParseMetaData, the state of EAS_State, the frame count of
   * EAS_Render); `config` is what EAS_Config points to.
   */
  datatype Reply = Reply(code: int, present: bool, value: int, config: LibConfig)

  /** The answer every call gets once the script has run out: a plain failure. */
  const Exhausted: Reply := Reply(EAS_FAILURE, false, 0, LibConfig(0, 0, 0))

  /** The script still to be consumed, the calls issued so far, the chunks written. */
  datatype World = World(script: seq<Reply>, trace: seq<Call>, out: seq<nat>)

  /** The reply the i-th call from now receives. */
  function ReplyAt(s: seq<Reply>, i: nat): Reply
  {
    if i < |s| then s[i] else Exhausted
  }

  /** The script left after k replies have been consumed. */
  function Drop(s: seq<Reply>, k: nat): seq<Reply>
  {
    if k <= |s| then s[k..] else []
  }

  lemma DropReplyAt(s: seq<Reply>, k: nat, i: nat)
    ensures ReplyAt(Drop(s, k), i) == ReplyAt(s, k + i)
  {
  }

  lemma DropDrop(s: seq<Reply>, a: nat, b: nat)
    ensures Drop(Drop(s, a), b) == Drop(s, a + b)
  {
  }

  /** The reply the next call receives. */
  function Next(w: World): Reply
  {
    ReplyAt(w.script, 0)
  }

  /** The world after calls `cs` have been issued, one reply consumed for each. */
  function Advance(w: World, cs: seq<Call>): World
  {
    World(Drop(w.script, |cs|), w.trace + cs, w.out)
  }

  /** The world after one call. */
  function Issue(w: World, c: Call): (w': World)
    ensures w' == Advance(w, [c])
  {
    World(Drop(w.script, 1), w.trace + [c], w.out)
  }

  /** fwrite of n samples to stdout followed by fflush. */
  function Emit(w: World, n: nat): (w': World)
    ensures w'.script == w.script && w'.trace == w.trace && w'.out == w.out + [n]
  {
    w.(out := w.out + [n])
  }

  lemma AdvanceTwice(w: World, a: seq<Call>, b: seq<Call>)
    ensures Advance(Advance(w, a), b) == Advance(w, a + b)
  {
    DropDrop(w.script, |a|, |b|);
    assert (w.trace + a) + b == w.trace + (a + b);
  }

  lemma AdvanceNone(w: World)
    ensures Advance(w, []) == w
  {
    assert w.trace + [] == w.trace;
  }

  /** One more call after the calls cs: it receives the reply at position |cs|. */
  lemma IssueAfter(w: World, cs: seq<Call>, c: Call)
    ensures Next(Advance(w, cs)) == ReplyAt(w.script, |cs|)
    ensures Issue(Advance(w, cs), c) == Advance(w, cs + [c])
  {
    DropReplyAt(w.script, |cs|, 0);
    AdvanceTwice(w, cs, [c]);
  }

  /**
   * Whether the driver goes on after call c received reply r.  Each case is
   * the test the driver makes right after that call; fclose and EAS_Shutdown
   * are never tested.
   */
  predicate Accepts(c: Call, r: Reply)
  {
    match c
    case Init => r.code == EAS_SUCCESS && r.present
    case FOpen(_) => r.present
    case OpenFile => r.code == EAS_SUCCESS && r.present
    case ParseMetaData => r.code == EAS_SUCCESS && r.value != 0
    case LibConfigQuery => r.present
    case FClose(_) => true
    case Shutdown => true
    case _ => r.code == EAS_SUCCESS
  }

  /** The position of the first call of `plan` whose scripted reply is not accepted, or |plan|. */
  function FirstFailure(s: seq<Reply>, plan: seq<Call>): (f: nat)
    ensures f <= |plan|
    decreases |plan|
  {
    if plan == [] then 0
    else if !Accepts(plan[0], ReplyAt(s, 0)) then 0
    else 1 + FirstFailure(Drop(s, 1), plan[1..])
  }

  /** Every call before the first failure is accepted, and the call at it is not. */
  lemma {:induction false} FirstFailureAt(s: seq<Reply>, plan: seq<Call>)
    ensures var f := FirstFailure(s, plan);
      && (forall i :: 0 <= i < f ==> Accepts(plan[i], ReplyAt(s, i)))
      && (f < |plan| ==> !Accepts(plan[f], ReplyAt(s, f)))
    decreases |plan|
  {
    if plan != [] && Accepts(plan[0], ReplyAt(s, 0)) {
      FirstFailureAt(Drop(s, 1), plan[1..]);
      forall i | 1 <= i <= FirstFailure(Drop(s, 1), plan[1..]) && i < |plan|
        ensures ReplyAt(Drop(s, 1), i - 1) == ReplyAt(s, i) && plan[1..][i - 1] == plan[i]
      {
        DropReplyAt(s, 1, i - 1);
      }
    }
  }

  /** The first failure is the position g when every call before g is accepted and the call at g, if any, is not. */
  lemma FirstFailureIs(s: seq<Reply>, plan: seq<Call>, g: nat)
    requires g <= |plan|
    requires forall i :: 0 <= i < g ==> Accepts(plan[i], ReplyAt(s, i))
    requires g < |plan| ==> !Accepts(plan[g], ReplyAt(s, g))
    ensures FirstFailure(s, plan) == g
  {
    FirstFailureAt(s, plan);
  }

  lemma {:induction false} FirstFailureConcat(s: seq<Reply>, a: seq<Call>, b: seq<Call>)
    requires FirstFailure(s, a) == |a|
    ensures FirstFailure(s, a + b) == |a| + FirstFailure(Drop(s, |a|), b)
    decreases |a|
  {
    if a != [] {
      assert (a + b)[0] == a[0];
      assert (a + b)[1..] == a[1..] + b;
      FirstFailureConcat(Drop(s, 1), a[1..], b);
      DropDrop(s, 1, |a| - 1);
    } else {
      assert a + b == b;
    }
  }

  lemma {:induction false} FirstFailureWithin(s: seq<Reply>, a: seq<Call>, b: seq<Call>)
    requires FirstFailure(s, a) < |a|
    ensures FirstFailure(s, a + b) == FirstFailure(s, a)
    decreases |a|
  {
    assert (a + b)[0] == a[0];
    if Accepts(a[0], ReplyAt(s, 0)) {
      assert (a + b)[1..] == a[1..] + b;
      FirstFailureWithin(Drop(s, 1), a[1..], b);
    }
  }

  /** The outcome of a straight-line block: its verdict and the world after it. */
  datatype Step = Step(ok: bool, world: World)

  /** Issues `calls` in order, stopping right after the first call whose reply is not accepted. */
  function RunChecked(w: World, calls: seq<Call>): Step
    decreases |calls|
  {
    if calls == [] then Step(true, w)
    else
      var r := Next(w);
      var w1 := Issue(w, calls[0]);
      if !Accepts(calls[0], r) then Step(false, w1) else RunChecked(w1, calls[1..])
  }

  /** A fail-fast block, one call at a time. */
  lemma RunCheckedCons(w: World, c: Call, rest: seq<Call>)
    ensures RunChecked(w, [c] + rest) ==
      if !Accepts(c, Next(w)) then Step(false, Issue(w, c)) else RunChecked(Issue(w, c), rest)
  {
    assert ([c] + rest)[0] == c && ([c] + rest)[1..] == rest;
  }

  /** Two fail-fast blocks in a row are one block: the second runs only when the first got through. */
  lemma {:induction false} RunCheckedConcat(w: World, a: seq<Call>, b: seq<Call>)
    ensures RunChecked(w, a + b) ==
      var first := RunChecked(w, a);
      if first.ok then RunChecked(first.world, b) else first
    decreases |a|
  {
    if a == [] {
      assert a + b == b;
    } else {
      RunCheckedCons(w, a[0], a[1..] + b);
      RunCheckedCons(w, a[0], a[1..]);
      assert a + b == [a[0]] + (a[1..] + b);
      assert a == [a[0]] + a[1..];
      RunCheckedConcat(Issue(w, a[0]), a[1..], b);
    }
  }

  /** The number of calls of `plan` a fail-fast run issues when its first failure is at f. */
  function UpTo(plan: seq<Call>, f: nat): (n: nat)
    requires f <= |plan|
    ensures n <= |plan|
  {
    if f == |plan| then f else f + 1
  }

  /**
   * A fail-fast block issues exactly the calls up to and including the first
   * rejected one, and succeeds exactly when every call was accepted.
   */
  lemma {:induction false} RunCheckedFollows(w: World, calls: seq<Call>)
    ensures var f := FirstFailure(w.script, calls);
      RunChecked(w, calls) == Step(f == |calls|, Advance(w, calls[..UpTo(calls, f)]))
    decreases |calls|
  {
    if calls != [] {
      var w1 := Issue(w, calls[0]);
      if Accepts(calls[0], Next(w)) {
        RunCheckedFollows(w1, calls[1..]);
        var f1 := FirstFailure(w1.script, calls[1..]);
        AdvanceTwice(w, [calls[0]], calls[1..][..UpTo(calls[1..], f1)]);
        assert [calls[0]] + calls[1..][..UpTo(calls[1..], f1)] == calls[..UpTo(calls, 1 + f1)];
      } else {
        assert calls[..1] == [calls[0]];
      }
    }
  }

  /** A fail-fast block run after a prefix of accepted calls, seen as part of the whole plan. */
  lemma RunCheckedAfter(w: World, pre: seq<Call>, rest: seq<Call>)
    requires FirstFailure(w.script, pre) == |pre|
    ensures var plan := pre + rest; var f := FirstFailure(w.script, plan);
      var run := RunChecked(Advance(w, pre), rest);
      && |pre| <= f
      && run.ok == (f == |plan|)
      && run.world == Advance(w, plan[..UpTo(plan, f)])
  {
    var plan := pre + rest;
    var w2 := Advance(w, pre);
    FirstFailureConcat(w.script, pre, rest);
    var fr := FirstFailure(w2.script, rest);
    RunCheckedFollows(w2, rest);
    var n := UpTo(rest, fr);
    AdvanceTwice(w, pre, rest[..n]);
    assert pre + rest[..n] == plan[..|pre| + n];
  }

  /** The calls issued between two worlds, the later one extending the earlier one's trace. */
  function Added(before: World, after: World): seq<Call>
  {
    if |before.trace| <= |after.trace| then after.trace[|before.trace|..] else []
  }

  /** The later world's trace continues the earlier one's. */
  predicate Extends(before: World, after: World)
  {
    |before.trace| <= |after.trace| && after.trace[..|before.trace|] == before.trace
  }

  lemma AddedAdvance(w: World, cs: seq<Call>)
    ensures Extends(w, Advance(w, cs))
    ensures Added(w, Advance(w, cs)) == cs
  {
    assert (w.trace + cs)[|w.trace|..] == cs;
    assert (w.trace + cs)[..|w.trace|] == w.trace;
  }

  lemma AddedChain(a: World, b: World, c: World)
    requires Extends(a, b) && Extends(b, c)
    ensures Extends(a, c)
    ensures Added(a, c) == Added(a, b) + Added(b, c)
  {
    assert c.trace == b.trace + Added(b, c);
    assert b.trace == a.trace + Added(a, b);
    assert c.trace == a.trace + (Added(a, b) + Added(b, c));
    assert c.trace[..|a.trace|] == a.trace;
  }

  /** EAS_Shutdown occurs nowhere in cs but possibly as its last call. */
  predicate ShutdownAtMostLast(cs: seq<Call>)
  {
    forall i :: 0 <= i < |cs| ==> (cs[i] == Shutdown ==> i == |cs| - 1)
  }

  /** EAS_Shutdown occurs nowhere in cs. */
  predicate NoShutdown(cs: seq<Call>)
  {
    forall i :: 0 <= i < |cs| ==> cs[i] != Shutdown
  }

  lemma NoShutdownConcat(a: seq<Call>, b: seq<Call>)
    requires NoShutdown(a) && NoShutdown(b)
    ensures NoShutdown(a + b)
  {
    assert forall i :: |a| <= i < |a + b| ==> (a + b)[i] == b[i - |a|];
  }

  lemma ShutdownAppend(a: seq<Call>, b: seq<Call>)
    requires NoShutdown(a)
    requires ShutdownAtMostLast(b)
    ensures ShutdownAtMostLast(a + b)
    ensures |b| > 0 ==> (a + b)[|a + b| - 1] == b[|b| - 1]
  {
    assert forall i :: |a| <= i < |a + b| ==> (a + b)[i] == b[i - |a|];
  }

  /** The paths fopen was called with, in order. */
  function Opens(cs: seq<Call>): seq<string>
    decreases |cs|
  {
    if cs == [] then [] else (if cs[0].FOpen? then [cs[0].path] else []) + Opens(cs[1..])
  }

  lemma {:induction false} OpensConcat(a: seq<Call>, b: seq<Call>)
    ensures Opens(a + b) == Opens(a) + Opens(b)
    decreases |a|
  {
    if a == [] {
      assert a + b == b;
    } else {
      assert (a + b)[0] == a[0];
      assert (a + b)[1..] == a[1..] + b;
      OpensConcat(a[1..], b);
    }
  }

  lemma {:induction false} OpensNone(cs: seq<Call>)
    requires forall i :: 0 <= i < |cs| ==> !cs[i].FOpen?
    ensures Opens(cs) == []
    decreases |cs|
  {
    if cs != [] {
      OpensNone(cs[1..]);
    }
  }

  /**
   * The library and stdio as the driver sees them.  The trace is a ghost
   * record of the calls issued; the script and the output are the state the
   * calls consume and produce.
   */
  class Environment {
    var script: seq<Reply>
    ghost var trace: seq<Call>
    var output: seq<nat>

    ghost function Current(): World
      reads this
    {
      World(script, trace, output)
    }

    constructor (replies: seq<Reply>)
      ensures Current() == World(replies, [], [])
    {
      script := replies;
      trace := [];
      output := [];
    }

    /** Issues call c and hands back the scripted reply to it. */
    method Invoke(c: Call) returns (r: Reply)
      modifies this
      ensures r == Next(old(Current()))
      ensures Current() == Issue(old(Current()), c)
    {
      r := if |script| > 0 then script[0] else Exhausted;
      script := if |script| > 0 then script[1..] else [];
      trace := trace + [c];
    }

    /** fwrite of n samples to stdout, then fflush. */
    method Write(n: nat)
      modifies this
      ensures Current() == Emit(old(Current()), n)
    {
      output := output + [n];
    }
  }
}
