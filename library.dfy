/**
 * Library initialisation and shutdown (initializeLibrary, shutdownLibrary):
 * EAS_Init, the optional DLS collection, the master gain, then the reverb
 * block and the chorus block, stopping at the first failure and shutting the
 * library down once a data handle exists.
 */
module Library {

  import opened Wrappers
  import opened Engine

  /** The option globals of the program once the command line has been folded in. */
  datatype Settings = Settings(
    dlsPath: Option<string>,
    playbackGain: int,
    reverbType: int,
    reverbWet: int,
    reverbDry: int,
    chorusType: int,
    chorusLevel: int,
    verbosity: int)

  predicate ReverbPresetInRange(p: int)
  {
    EAS_PARAM_REVERB_LARGE_HALL <= p <= EAS_PARAM_REVERB_ROOM
  }

  predicate ChorusPresetInRange(p: int)
  {
    EAS_PARAM_CHORUS_PRESET1 <= p <= EAS_PARAM_CHORUS_PRESET4
  }

  /** The reverb block: PRESET, WET, DRY when the preset is in range, then BYPASS. */
  function ReverbCalls(s: Settings): seq<Call>
  {
    var preset := s.reverbType - 1;
    if ReverbPresetInRange(preset) then
      [ SetParameter(ReverbModule, ReverbPreset, preset),
        SetParameter(ReverbModule, ReverbWet, s.reverbWet),
        SetParameter(ReverbModule, ReverbDry, s.reverbDry),
        SetParameter(ReverbModule, ReverbBypass, EAS_FALSE) ]
    else
      [ SetParameter(ReverbModule, ReverbBypass, EAS_TRUE) ]
  }

  /** The chorus block: PRESET, LEVEL when the preset is in range, then BYPASS. */
  function ChorusCalls(s: Settings): seq<Call>
  {
    var preset := s.chorusType - 1;
    if ChorusPresetInRange(preset) then
      [ SetParameter(ChorusModule, ChorusPreset, preset),
        SetParameter(ChorusModule, ChorusLevel, s.chorusLevel),
        SetParameter(ChorusModule, ChorusBypass, EAS_FALSE) ]
    else
      [ SetParameter(ChorusModule, ChorusBypass, EAS_TRUE) ]
  }

  /** The calls after the DLS step: the master gain, then both effect blocks. */
  function EffectCalls(s: Settings): seq<Call>
  {
    [SetVolume(s.playbackGain)] + ReverbCalls(s) + ChorusCalls(s)
  }

  /** fopen of the collection, the load, and the fclose that follows it whatever the load returned. */
  function DlsCalls(s: Settings): seq<Call>
  {
    match s.dlsPath
    case None => []
    case Some(p) => [FOpen(p), LoadDLSCollection, FClose(p)]
  }

  function Prelude(s: Settings): seq<Call>
  {
    [Init] + DlsCalls(s)
  }

  /** Every call initialisation makes when nothing fails, in order. */
  function InitPlan(s: Settings): seq<Call>
  {
    Prelude(s) + EffectCalls(s)
  }

  datatype InitResult = InitResult(ok: bool, handle: bool, world: World)

  /** shutdownLibrary: EAS_Shutdown when the data handle is not NULL. */
  function ShutdownRun(w: World, handle: bool): World
  {
    if handle then Issue(w, Shutdown) else w
  }

  /** The DLS step: nothing without a path; otherwise fopen, the load, fclose, then the verdict of the load. */
  function LoadDls(w: World, dls: Option<string>): Step
  {
    match dls
    case None => Step(true, w)
    case Some(p) =>
      var f := Next(w);
      var w1 := Issue(w, FOpen(p));
      if !f.present then Step(false, w1)
      else
        var r := Next(w1);
        Step(r.code == EAS_SUCCESS, Issue(Issue(w1, LoadDLSCollection), FClose(p)))
  }

  /** initializeLibrary, run against world w with the option globals s. */
  function InitRun(w: World, s: Settings): InitResult
  {
    var r := Next(w);
    var w1 := Issue(w, Init);
    if r.code != EAS_SUCCESS || !r.present then InitResult(false, r.present, w1)
    else
      var dls := LoadDls(w1, s.dlsPath);
      var effects := if dls.ok then RunChecked(dls.world, EffectCalls(s)) else dls;
      if effects.ok then InitResult(true, true, effects.world)
      else InitResult(false, true, ShutdownRun(effects.world, true))
  }

  /**
   * How many calls of the plan are issued when its first failure is at f:
   * a failure is acted on right after its call returns, except that a failed
   * load (position 2) is acted on after the fclose at position 3.
   */
  function InitIssued(s: Settings, f: nat): (n: nat)
    requires f <= |InitPlan(s)|
    ensures n <= |InitPlan(s)|
  {
    if f == |InitPlan(s)| then f
    else if s.dlsPath.Some? && f == 2 then 4
    else f + 1
  }

  /**
   * The calls initialisation makes, read off the plan and the replies: the
   * plan up to its first failure, then EAS_Shutdown if the failure came after
   * the data handle existed.
   */
  function InitCalls(script: seq<Reply>, s: Settings): seq<Call>
  {
    var plan := InitPlan(s);
    var f := FirstFailure(script, plan);
    plan[..InitIssued(s, f)] + (if 0 < f < |plan| then [Shutdown] else [])
  }

  /** What InitFollowsPlan states about one run. */
  predicate InitMatchesPlan(w: World, s: Settings)
  {
    var plan := InitPlan(s);
    var f := FirstFailure(w.script, plan);
    var r := InitRun(w, s);
    && r.ok == (f == |plan|)
    && r.handle == ReplyAt(w.script, 0).present
    && r.world == Advance(w, InitCalls(w.script, s))
  }

  lemma InitRejected(w: World, s: Settings)
    requires !Accepts(Init, ReplyAt(w.script, 0))
    ensures InitMatchesPlan(w, s)
  {
    var plan := InitPlan(s);
    assert plan[0] == Init;
    assert FirstFailure(w.script, plan) == 0;
    assert plan[..1] + [] == [Init];
  }

  lemma EffectsFollow(w: World, s: Settings)
    requires Accepts(Init, ReplyAt(w.script, 0))
    requires FirstFailure(w.script, Prelude(s)) == |Prelude(s)|
    requires LoadDls(Issue(w, Init), s.dlsPath) == Step(true, Advance(w, Prelude(s)))
    ensures InitMatchesPlan(w, s)
  {
    var pre, eff, plan := Prelude(s), EffectCalls(s), InitPlan(s);
    RunCheckedAfter(w, pre, eff);
    var f := FirstFailure(w.script, plan);
    var run := RunChecked(Advance(w, pre), eff);
    var r := InitRun(w, s);
    assert r == if run.ok then InitResult(true, true, run.world)
                else InitResult(false, true, Issue(run.world, Shutdown));
    assert InitIssued(s, f) == UpTo(plan, f);
    if run.ok {
      assert plan[..UpTo(plan, f)] + [] == plan[..UpTo(plan, f)];
    } else {
      AdvanceTwice(w, plan[..UpTo(plan, f)], [Shutdown]);
    }
  }

  lemma WithoutDls(w: World, s: Settings)
    requires Accepts(Init, ReplyAt(w.script, 0))
    requires s.dlsPath.None?
    ensures InitMatchesPlan(w, s)
  {
    assert Prelude(s) == [Init];
    assert FirstFailure(w.script, [Init]) == 1;
    EffectsFollow(w, s);
  }

  /** The DLS step on its own, after an accepted EAS_Init: which call fails, and what has been issued then. */
  lemma DlsStep(w: World, p: string)
    requires Accepts(Init, ReplyAt(w.script, 0))
    ensures var pre := [Init, FOpen(p), LoadDLSCollection, FClose(p)];
      var f := FirstFailure(w.script, pre); var dls := LoadDls(Issue(w, Init), Some(p));
      && f == (if !ReplyAt(w.script, 1).present then 1 else if ReplyAt(w.script, 2).code != EAS_SUCCESS then 2 else 4)
      && dls.ok == (f == 4)
      && dls.world == Advance(w, pre[..if f == 1 then 2 else 4])
  {
    var pre := [Init, FOpen(p), LoadDLSCollection, FClose(p)];
    DlsFirstFailure(w.script, p);
    DlsWorld(w, p);
    assert pre[..2] == [Init, FOpen(p)] && pre[..4] == pre;
  }

  lemma DlsFirstFailure(s: seq<Reply>, p: string)
    requires Accepts(Init, ReplyAt(s, 0))
    ensures FirstFailure(s, [Init, FOpen(p), LoadDLSCollection, FClose(p)]) ==
      if !ReplyAt(s, 1).present then 1 else if ReplyAt(s, 2).code != EAS_SUCCESS then 2 else 4
  {
    var pre := [Init, FOpen(p), LoadDLSCollection, FClose(p)];
    FirstFailureAt(s, pre);
    assert pre[1] == FOpen(p) && pre[2] == LoadDLSCollection && pre[3] == FClose(p);
  }

  lemma DlsWorld(w: World, p: string)
    ensures LoadDls(Issue(w, Init), Some(p)) ==
      if !ReplyAt(w.script, 1).present then Step(false, Advance(w, [Init, FOpen(p)]))
      else Step(ReplyAt(w.script, 2).code == EAS_SUCCESS, Advance(w, [Init, FOpen(p), LoadDLSCollection, FClose(p)]))
  {
    DropReplyAt(w.script, 1, 0);
    DropReplyAt(w.script, 2, 0);
    AdvanceTwice(w, [Init], [FOpen(p)]);
    AdvanceTwice(w, [Init, FOpen(p)], [LoadDLSCollection]);
    AdvanceTwice(w, [Init, FOpen(p), LoadDLSCollection], [FClose(p)]);
    assert [Init] + [FOpen(p)] == [Init, FOpen(p)];
    assert [Init, FOpen(p)] + [LoadDLSCollection] == [Init, FOpen(p), LoadDLSCollection];
    assert [Init, FOpen(p), LoadDLSCollection] + [FClose(p)] == [Init, FOpen(p), LoadDLSCollection, FClose(p)];
  }

  /** A DLS step that fails (the file at f == 1 or the load at f == 2) is followed by EAS_Shutdown. */
  lemma DlsFails(w: World, s: Settings, p: string)
    requires Accepts(Init, ReplyAt(w.script, 0))
    requires s.dlsPath == Some(p) && (!ReplyAt(w.script, 1).present || ReplyAt(w.script, 2).code != EAS_SUCCESS)
    ensures InitMatchesPlan(w, s)
  {
    var pre, plan := Prelude(s), InitPlan(s);
    assert pre == [Init, FOpen(p), LoadDLSCollection, FClose(p)];
    DlsStep(w, p);
    var f := FirstFailure(w.script, pre);
    var m := if f == 1 then 2 else 4;
    FirstFailureWithin(w.script, pre, EffectCalls(s));
    assert InitRun(w, s) == InitResult(false, true, Issue(Advance(w, pre[..m]), Shutdown));
    assert plan[..m] == pre[..m];
    AdvanceTwice(w, pre[..m], [Shutdown]);
  }

  lemma DlsLoads(w: World, s: Settings, p: string)
    requires Accepts(Init, ReplyAt(w.script, 0))
    requires s.dlsPath == Some(p) && ReplyAt(w.script, 1).present
    requires ReplyAt(w.script, 2).code == EAS_SUCCESS
    ensures InitMatchesPlan(w, s)
  {
    assert Prelude(s) == [Init, FOpen(p), LoadDLSCollection, FClose(p)];
    DlsStep(w, p);
    EffectsFollow(w, s);
  }

  /**
   * Initialisation follows its plan: it issues the plan up to its first
   * rejected call (the fclose after a failed load included), then exactly one
   * EAS_Shutdown if EAS_Init had produced a handle, and nothing else.  It
   * succeeds exactly when every call of the plan was accepted, and the data
   * handle is the one EAS_Init reported.
   */
  lemma InitFollowsPlan(w: World, s: Settings)
    ensures var r := InitRun(w, s);
      && r.ok == (FirstFailure(w.script, InitPlan(s)) == |InitPlan(s)|)
      && r.handle == ReplyAt(w.script, 0).present
      && r.world == Advance(w, InitCalls(w.script, s))
  {
    if !Accepts(Init, ReplyAt(w.script, 0)) {
      InitRejected(w, s);
    } else {
      match s.dlsPath
      case None =>
        WithoutDls(w, s);
      case Some(p) =>
        if !ReplyAt(w.script, 1).present || ReplyAt(w.script, 2).code != EAS_SUCCESS {
          DlsFails(w, s, p);
        } else {
          DlsLoads(w, s, p);
        }
    }
  }

  // ---------------------------------------------------------------------
  // Consequences of InitFollowsPlan for the trace of one initialisation.

  /** The calls that address effect module m, in order. */
  function ModuleCalls(cs: seq<Call>, m: EffectModule): (r: seq<Call>)
    ensures forall i :: 0 <= i < |r| ==> r[i].SetParameter? && r[i].effect == m
    decreases |cs|
  {
    if cs == [] then []
    else (if cs[0].SetParameter? && cs[0].effect == m then [cs[0]] else []) + ModuleCalls(cs[1..], m)
  }

  lemma {:induction false} ModuleCallsConcat(a: seq<Call>, b: seq<Call>, m: EffectModule)
    ensures ModuleCalls(a + b, m) == ModuleCalls(a, m) + ModuleCalls(b, m)
    decreases |a|
  {
    if a == [] {
      assert a + b == b;
    } else {
      assert (a + b)[0] == a[0];
      assert (a + b)[1..] == a[1..] + b;
      ModuleCallsConcat(a[1..], b, m);
    }
  }

  lemma {:induction false} ModuleCallsNone(cs: seq<Call>, m: EffectModule)
    requires forall i :: 0 <= i < |cs| ==> !(cs[i].SetParameter? && cs[i].effect == m)
    ensures ModuleCalls(cs, m) == []
    decreases |cs|
  {
    if cs != [] {
      ModuleCallsNone(cs[1..], m);
    }
  }

  lemma {:induction false} ModuleCallsAll(cs: seq<Call>, m: EffectModule)
    requires forall i :: 0 <= i < |cs| ==> cs[i].SetParameter? && cs[i].effect == m
    ensures ModuleCalls(cs, m) == cs
    decreases |cs|
  {
    if cs != [] {
      ModuleCallsAll(cs[1..], m);
      assert [cs[0]] + cs[1..] == cs;
    }
  }

  /** The reverb block as the usage text describes it. */
  function ReverbBlock(s: Settings): seq<Call>
  {
    if 1 <= s.reverbType <= 4 then
      [ SetParameter(ReverbModule, ReverbPreset, s.reverbType - 1),
        SetParameter(ReverbModule, ReverbWet, s.reverbWet),
        SetParameter(ReverbModule, ReverbDry, s.reverbDry),
        SetParameter(ReverbModule, ReverbBypass, EAS_FALSE) ]
    else [SetParameter(ReverbModule, ReverbBypass, EAS_TRUE)]
  }

  /** The chorus block as the usage text describes it. */
  function ChorusBlock(s: Settings): seq<Call>
  {
    if 1 <= s.chorusType <= 4 then
      [ SetParameter(ChorusModule, ChorusPreset, s.chorusType - 1),
        SetParameter(ChorusModule, ChorusLevel, s.chorusLevel),
        SetParameter(ChorusModule, ChorusBypass, EAS_FALSE) ]
    else [SetParameter(ChorusModule, ChorusBypass, EAS_TRUE)]
  }

  /** The position of the reverb BYPASS call in the plan. */
  function ReverbBypassAt(s: Settings): nat
  {
    |Prelude(s)| + |ReverbCalls(s)|
  }

  /** The plan is the prelude, the master gain, the reverb block and the chorus block. */
  lemma PlanParts(s: Settings)
    ensures InitPlan(s) == Prelude(s) + [SetVolume(s.playbackGain)] + ReverbCalls(s) + ChorusCalls(s)
    ensures |Prelude(s)| == (if s.dlsPath.Some? then 4 else 1)
    ensures |ReverbCalls(s)| == (if 1 <= s.reverbType <= 4 then 4 else 1)
    ensures |ChorusCalls(s)| == (if 1 <= s.chorusType <= 4 then 3 else 1)
  {
  }

  /** Each position of the plan, read off its parts. */
  lemma PlanIndex(s: Settings)
    ensures var plan, k, rev := InitPlan(s), |Prelude(s)|, ReverbCalls(s);
      forall i :: 0 <= i < |plan| ==>
        plan[i] == if i < k then Prelude(s)[i] else if i == k then SetVolume(s.playbackGain)
          else if i <= k + |rev| then rev[i - k - 1] else ChorusCalls(s)[i - k - 1 - |rev|]
  {
    PlanParts(s);
  }

  /** The fixed positions of the plan: EAS_Init first, the DLS calls, the master gain and the reverb bypass. */
  lemma PlanShape(s: Settings)
    ensures var plan, k, j := InitPlan(s), |Prelude(s)|, ReverbBypassAt(s);
      && k == (if s.dlsPath.Some? then 4 else 1) && k < j < |plan|
      && plan[0] == Init
      && (s.dlsPath.Some? ==> plan[..4] == [Init, FOpen(s.dlsPath.value), LoadDLSCollection, FClose(s.dlsPath.value)])
      && plan[k] == SetVolume(s.playbackGain)
      && plan[j] == SetParameter(ReverbModule, ReverbBypass, if 1 <= s.reverbType <= 4 then EAS_FALSE else EAS_TRUE)
  {
    PlanParts(s);
    var plan, k := InitPlan(s), |Prelude(s)|;
    assert plan[..k] == Prelude(s);
    assert plan[ReverbBypassAt(s)] == ReverbCalls(s)[|ReverbCalls(s)| - 1];
  }

  /** The kinds of call before and after the master gain. */
  lemma PlanKinds(s: Settings)
    ensures var plan, k := InitPlan(s), |Prelude(s)|;
      && (forall i :: 0 <= i < |plan| ==> plan[i] != Shutdown)
      && (forall i :: 0 <= i < k ==> !plan[i].SetVolume? && !plan[i].SetParameter?)
      && (forall i :: k < i < |plan| ==> plan[i].SetParameter?)
  {
    PlanParts(s);
    PlanIndex(s);
  }

  /** The reverb block comes before the reverb bypass, the chorus block after it. */
  lemma PlanEffectOrder(s: Settings)
    ensures var plan, k, j := InitPlan(s), |Prelude(s)|, ReverbBypassAt(s);
      && (forall i :: k < i <= j ==> plan[i].effect == ReverbModule)
      && (forall i :: j < i < |plan| ==> plan[i].effect == ChorusModule)
  {
    PlanParts(s);
    PlanIndex(s);
  }

  lemma ReverbCallsModules(s: Settings)
    ensures ModuleCalls(ReverbCalls(s), ReverbModule) == ReverbBlock(s)
    ensures ModuleCalls(ReverbCalls(s), ChorusModule) == []
  {
    ModuleCallsAll(ReverbCalls(s), ReverbModule);
    ModuleCallsNone(ReverbCalls(s), ChorusModule);
  }

  lemma ChorusCallsModules(s: Settings)
    ensures ModuleCalls(ChorusCalls(s), ChorusModule) == ChorusBlock(s)
    ensures ModuleCalls(ChorusCalls(s), ReverbModule) == []
  {
    ModuleCallsAll(ChorusCalls(s), ChorusModule);
    ModuleCallsNone(ChorusCalls(s), ReverbModule);
  }

  /** The calls of the plan before the effect blocks address no effect module. */
  lemma HeadModules(s: Settings, m: EffectModule)
    ensures ModuleCalls(Prelude(s) + [SetVolume(s.playbackGain)], m) == []
  {
    var head := Prelude(s) + [SetVolume(s.playbackGain)];
    assert forall i :: 0 <= i < |head| ==> !head[i].SetParameter?;
    ModuleCallsNone(head, m);
  }

  /** The calls of the plan that address each effect module. */
  lemma PlanModules(s: Settings)
    ensures ModuleCalls(InitPlan(s), ReverbModule) == ReverbBlock(s)
    ensures ModuleCalls(InitPlan(s), ChorusModule) == ChorusBlock(s)
  {
    PlanParts(s);
    var head, rev, cho := Prelude(s) + [SetVolume(s.playbackGain)], ReverbCalls(s), ChorusCalls(s);
    assert InitPlan(s) == head + rev + cho;
    ReverbCallsModules(s);
    ChorusCallsModules(s);
    HeadModules(s, ReverbModule);
    HeadModules(s, ChorusModule);
    BlocksModules(head, rev, cho, ReverbModule);
    BlocksModules(head, rev, cho, ChorusModule);
    assert ReverbBlock(s) + [] == ReverbBlock(s);
    assert [] + ChorusBlock(s) == ChorusBlock(s);
  }

  lemma BlocksModules(head: seq<Call>, rev: seq<Call>, cho: seq<Call>, m: EffectModule)
    requires ModuleCalls(head, m) == []
    ensures ModuleCalls(head + rev + cho, m) == ModuleCalls(rev, m) + ModuleCalls(cho, m)
  {
    ModuleCallsConcat(head + rev, cho, m);
    ModuleCallsConcat(head, rev, m);
    assert [] + ModuleCalls(rev, m) == ModuleCalls(rev, m);
  }

  /** The calls a run of initialisation adds to the trace are InitCalls. */
  lemma InitAdded(w: World, s: Settings)
    ensures Extends(w, InitRun(w, s).world)
    ensures Added(w, InitRun(w, s).world) == InitCalls(w.script, s)
    ensures InitRun(w, s).ok == (FirstFailure(w.script, InitPlan(s)) == |InitPlan(s)|)
  {
    InitFollowsPlan(w, s);
    AddedAdvance(w, InitCalls(w.script, s));
  }

  /**
   * A rejected EAS_Init (a failure code or a NULL handle) is the only call
   * made.  Otherwise EAS_Shutdown is issued exactly when initialisation fails,
   * once, as the last call.
   */
  lemma InitShutdownOnce(w: World, s: Settings)
    ensures var r := InitRun(w, s); var added := Added(w, r.world);
      && (!Accepts(Init, ReplyAt(w.script, 0)) ==> added == [Init] && !r.ok)
      && (forall i :: 0 <= i < |added| ==>
            (added[i] == Shutdown <==> i == |added| - 1 && Accepts(Init, ReplyAt(w.script, 0)) && !r.ok))
  {
    InitAdded(w, s);
    InitShutdownInCalls(w.script, s);
  }

  /** A successful initialisation holds the handle and has not shut the library down. */
  lemma InitSucceeded(w: World, s: Settings)
    requires InitRun(w, s).ok
    ensures InitRun(w, s).handle
    ensures Extends(w, InitRun(w, s).world) && NoShutdown(Added(w, InitRun(w, s).world))
  {
    InitAdded(w, s);
    InitShutdownOnce(w, s);
  }

  lemma InitShutdownInCalls(script: seq<Reply>, s: Settings)
    ensures var added, plan := InitCalls(script, s), InitPlan(s); var f := FirstFailure(script, plan);
      && (!Accepts(Init, ReplyAt(script, 0)) ==> added == [Init] && f < |plan|)
      && (forall i :: 0 <= i < |added| ==>
            (added[i] == Shutdown <==> i == |added| - 1 && Accepts(Init, ReplyAt(script, 0)) && f < |plan|))
  {
    PlanShape(s);
    PlanKinds(s);
    var plan := InitPlan(s);
    var f := FirstFailure(script, plan);
    var n := InitIssued(s, f);
    var added := InitCalls(script, s);
    assert Accepts(Init, ReplyAt(script, 0)) <==> f > 0;
    if f == 0 {
      assert added == plan[..1] + [];
    }
    assert forall i :: 0 <= i < n ==> added[i] == plan[i];
  }

  /** Where the first failure of the whole plan falls when there is a DLS path and EAS_Init was accepted. */
  lemma DlsPlanFailure(script: seq<Reply>, s: Settings, p: string)
    requires s.dlsPath == Some(p) && Accepts(Init, ReplyAt(script, 0))
    ensures var f := FirstFailure(script, InitPlan(s));
      if !ReplyAt(script, 1).present then f == 1
      else if ReplyAt(script, 2).code != EAS_SUCCESS then f == 2
      else 4 <= f
  {
    var pre := Prelude(s);
    assert pre == [Init, FOpen(p), LoadDLSCollection, FClose(p)];
    DlsFirstFailure(script, p);
    if FirstFailure(script, pre) < 4 {
      FirstFailureWithin(script, pre, EffectCalls(s));
    } else {
      FirstFailureConcat(script, pre, EffectCalls(s));
    }
  }

  lemma DlsClosedInCalls(script: seq<Reply>, s: Settings, p: string)
    requires s.dlsPath == Some(p) && Accepts(Init, ReplyAt(script, 0))
    ensures var added := InitCalls(script, s);
      && (forall i :: 0 <= i < |added| ==> (added[i] == FClose(p) <==> i == 3 && ReplyAt(script, 1).present))
      && (ReplyAt(script, 1).present ==> 4 <= |added| && added[..4] == [Init, FOpen(p), LoadDLSCollection, FClose(p)])
  {
    PlanShape(s);
    PlanKinds(s);
    DlsPlanFailure(script, s, p);
    var plan := InitPlan(s);
    var n := InitIssued(s, FirstFailure(script, plan));
    ClosesOnce(plan, InitCalls(script, s), n, p, ReplyAt(script, 1).present);
  }

  /** The shape of DlsClosedInCalls, for any plan that starts with the DLS calls. */
  lemma ClosesOnce(plan: seq<Call>, added: seq<Call>, n: nat, p: string, fileOpen: bool)
    requires 5 <= |plan| && plan[..4] == [Init, FOpen(p), LoadDLSCollection, FClose(p)]
    requires forall i :: 4 <= i < |plan| ==> plan[i].SetVolume? || plan[i].SetParameter?
    requires n <= |plan| && (added == plan[..n] || added == plan[..n] + [Shutdown])
    requires fileOpen ==> 4 <= n
    requires !fileOpen ==> added == [Init, FOpen(p), Shutdown]
    ensures forall i :: 0 <= i < |added| ==> (added[i] == FClose(p) <==> i == 3 && fileOpen)
    ensures fileOpen ==> 4 <= |added| && added[..4] == [Init, FOpen(p), LoadDLSCollection, FClose(p)]
  {
    if fileOpen {
      assert added[..4] == plan[..4];
      forall i | 0 <= i < |added|
        ensures added[i] == FClose(p) <==> i == 3
      {
        if i < 4 {
          assert added[i] == plan[..4][i];
        } else if i < n {
          assert added[i] == plan[i];
        }
      }
    }
  }

  /**
   * With a DLS path and a data handle, the collection is closed exactly when
   * fopen succeeded, once, as the fourth call: right after the load and
   * before its result is acted on.
   */
  lemma DlsClosedOnce(w: World, s: Settings, p: string)
    requires s.dlsPath == Some(p) && Accepts(Init, ReplyAt(w.script, 0))
    ensures var added := Added(w, InitRun(w, s).world);
      && (forall i :: 0 <= i < |added| ==> (added[i] == FClose(p) <==> i == 3 && ReplyAt(w.script, 1).present))
      && (ReplyAt(w.script, 1).present ==> 4 <= |added| && added[..4] == [Init, FOpen(p), LoadDLSCollection, FClose(p)])
  {
    InitAdded(w, s);
    DlsClosedInCalls(w.script, s, p);
  }

  /** A DLS collection that cannot be opened or loaded fails initialisation before EAS_SetVolume. */
  lemma DlsFailureSkipsVolume(w: World, s: Settings, p: string)
    requires s.dlsPath == Some(p)
    requires !ReplyAt(w.script, 1).present || ReplyAt(w.script, 2).code != EAS_SUCCESS
    ensures var r := InitRun(w, s); var added := Added(w, r.world);
      && !r.ok
      && forall i :: 0 <= i < |added| ==> !added[i].SetVolume?
  {
    InitAdded(w, s);
    PlanShape(s);
    PlanKinds(s);
    var plan := InitPlan(s);
    var f := FirstFailure(w.script, plan);
    if Accepts(Init, ReplyAt(w.script, 0)) {
      DlsPlanFailure(w.script, s, p);
    }
    assert f <= 2;
    NoneIssued(plan, InitCalls(w.script, s), InitIssued(s, f), (c: Call) => c.SetVolume?);
  }

  /** A prefix of a plan, with or without a Shutdown after it, holds no call the prefix does not hold. */
  lemma NoneIssued(plan: seq<Call>, added: seq<Call>, n: nat, kind: Call -> bool)
    requires n <= |plan| && (added == plan[..n] || added == plan[..n] + [Shutdown])
    requires !kind(Shutdown) && forall i :: 0 <= i < n ==> !kind(plan[i])
    ensures forall i :: 0 <= i < |added| ==> !kind(added[i])
  {
    assert forall i :: 0 <= i < n ==> added[i] == plan[i];
  }

  lemma EffectsInCalls(script: seq<Reply>, s: Settings)
    ensures var plan, added := InitPlan(s), InitCalls(script, s);
      && ModuleCalls(added, ReverbModule) <= ReverbBlock(s)
      && ModuleCalls(added, ChorusModule) <= ChorusBlock(s)
      && (FirstFailure(script, plan) == |plan| ==> added == plan)
  {
    PlanModules(s);
    var plan := InitPlan(s);
    var f := FirstFailure(script, plan);
    var n := InitIssued(s, f);
    var tail: seq<Call> := if 0 < f < |plan| then [Shutdown] else [];
    var added := InitCalls(script, s);
    assert added == plan[..n] + tail;
    assert plan == plan[..n] + plan[n..];
    ModulePrefix(plan[..n], tail, plan[n..], ReverbModule);
    ModulePrefix(plan[..n], tail, plan[n..], ChorusModule);
    if f == |plan| {
      assert tail == [] && n == |plan|;
      assert added == plan;
    }
  }

  /** The module calls of a prefix followed by a Shutdown tail are a prefix of the module calls of the whole. */
  lemma ModulePrefix(head: seq<Call>, tail: seq<Call>, rest: seq<Call>, m: EffectModule)
    requires tail == [] || tail == [Shutdown]
    ensures ModuleCalls(head + tail, m) <= ModuleCalls(head + rest, m)
  {
    ModuleCallsConcat(head, tail, m);
    ModuleCallsNone(tail, m);
    ModuleCallsConcat(head, rest, m);
  }

  /**
   * The effect calls issued: for each module a prefix of its block, and when
   * initialisation succeeds the whole plan, with both blocks in full and the
   * master gain set once, right after the prelude.
   */
  lemma InitEffects(w: World, s: Settings)
    ensures var r := InitRun(w, s); var added := Added(w, r.world);
      && ModuleCalls(added, ReverbModule) <= ReverbBlock(s)
      && ModuleCalls(added, ChorusModule) <= ChorusBlock(s)
      && (r.ok ==>
            && added == InitPlan(s)
            && ModuleCalls(added, ReverbModule) == ReverbBlock(s)
            && ModuleCalls(added, ChorusModule) == ChorusBlock(s)
            && forall i :: 0 <= i < |added| ==>
                 (added[i].SetVolume? <==> i == |Prelude(s)|) && (added[i].SetVolume? ==> added[i].gain == s.playbackGain))
  {
    InitAdded(w, s);
    PlanShape(s);
    PlanKinds(s);
    PlanModules(s);
    EffectsInCalls(w.script, s);
  }

  lemma ChorusAfterBypassInCalls(script: seq<Reply>, s: Settings)
    ensures var added := InitCalls(script, s); var j := ReverbBypassAt(s);
      forall i :: 0 <= i < |added| && added[i].SetParameter? && added[i].effect == ChorusModule ==>
        && j < i
        && added[j] == SetParameter(ReverbModule, ReverbBypass, if 1 <= s.reverbType <= 4 then EAS_FALSE else EAS_TRUE)
        && ReplyAt(script, j).code == EAS_SUCCESS
  {
    PlanShape(s);
    PlanKinds(s);
    PlanEffectOrder(s);
    var plan := InitPlan(s);
    var f := FirstFailure(script, plan);
    var n := InitIssued(s, f);
    var j := ReverbBypassAt(s);
    assert s.dlsPath.Some? ==> plan[3] == FClose(s.dlsPath.value);
    assert forall i :: f < i < n ==> !(plan[i].SetParameter? && plan[i].effect == ChorusModule);
    ChorusAfter(plan, script, InitCalls(script, s), n, j);
  }

  /** The shape of ChorusAfterBypassInCalls, for any plan whose chorus calls all come after position j. */
  lemma ChorusAfter(plan: seq<Call>, script: seq<Reply>, added: seq<Call>, n: nat, j: nat)
    requires j < |plan| && plan[j].SetParameter?
    requires forall i :: 0 <= i < |plan| && plan[i].SetParameter? && plan[i].effect == ChorusModule ==> j < i
    requires n <= |plan| && (added == plan[..n] || added == plan[..n] + [Shutdown])
    requires forall i :: FirstFailure(script, plan) < i < n ==> !(plan[i].SetParameter? && plan[i].effect == ChorusModule)
    ensures forall i :: 0 <= i < |added| && added[i].SetParameter? && added[i].effect == ChorusModule ==>
      j < i && added[j] == plan[j] && ReplyAt(script, j).code == EAS_SUCCESS
  {
    FirstFailureAt(script, plan);
    forall i | 0 <= i < |added| && added[i].SetParameter? && added[i].effect == ChorusModule
      ensures j < i && added[j] == plan[j] && ReplyAt(script, j).code == EAS_SUCCESS
    {
      assert i < n && added[i] == plan[i];
      assert Accepts(plan[j], ReplyAt(script, j));
    }
  }

  /** No chorus call is issued unless the reverb BYPASS call before it succeeded. */
  lemma ChorusAfterReverbBypass(w: World, s: Settings)
    ensures var added := Added(w, InitRun(w, s).world); var j := ReverbBypassAt(s);
      forall i :: 0 <= i < |added| && added[i].SetParameter? && added[i].effect == ChorusModule ==>
        && j < i
        && added[j] == SetParameter(ReverbModule, ReverbBypass, if 1 <= s.reverbType <= 4 then EAS_FALSE else EAS_TRUE)
        && ReplyAt(w.script, j).code == EAS_SUCCESS
  {
    InitAdded(w, s);
    ChorusAfterBypassInCalls(w.script, s);
  }
}
