/**
 * Rendering one MIDI file (renderFile): fopen, EAS_OpenFile, EAS_Prepare,
 * EAS_ParseMetaData, EAS_Config, then the loop that polls EAS_State, renders
 * one mix buffer and writes it to standard output, and the cleanup that
 * closes the stream and the file on every path.
 */
module Render {

  import opened Wrappers
  import opened Engine

  /** The calls before the render loop, in order, when none of them fails. */
  function Prologue(path: string): seq<Call>
  {
    [FOpen(path), OpenFile, Prepare, ParseMetaData, LibConfigQuery]
  }

  /** A state that ends playback. */
  predicate Stops(state: int)
  {
    state == EAS_STATE_STOPPED || state == EAS_STATE_ERROR
  }

  /** The samples one mix buffer holds: mixBufferSize frames of numChannels samples each. */
  function BufferSamples(mix: nat, ch: nat): nat
  {
    mix * ch
  }

  /** The loop; its verdict and the world when it ends. */
  function RenderLoop(w: World, mix: nat, ch: nat): Step
    decreases |w.script|
  {
    var st := Next(w);
    var w1 := Issue(w, QueryState);
    if st.code != EAS_SUCCESS then Step(false, w1)
    else if Stops(st.value) then Step(true, w1)
    else
      var rr := Next(w1);
      var w2 := Issue(w1, Render(mix));
      if rr.code != EAS_SUCCESS || rr.value != mix then Step(false, w2)
      else RenderLoop(Emit(w2, BufferSamples(mix, ch)), mix, ch)
  }

  /** What happens between fopen and the cleanup. */
  datatype Body = Body(ok: bool, world: World, stream: bool, config: Option<LibConfig>)

  function RenderBody(w: World, cfg: Option<LibConfig>): Body
  {
    var o := Next(w);
    var w1 := Issue(w, OpenFile);
    if o.code != EAS_SUCCESS then Body(false, w1, o.present, cfg)
    else if !o.present then Body(false, w1, false, cfg)
    else
      var pre := RunChecked(w1, [Prepare, ParseMetaData]);
      if !pre.ok then Body(false, pre.world, true, cfg)
      else
        var c := Next(pre.world);
        var w3 := Issue(pre.world, LibConfigQuery);
        if !c.present then Body(false, w3, true, None)
        else
          var loop := RenderLoop(w3, c.config.mixBufferSize, c.config.numChannels);
          Body(loop.ok, loop.world, true, Some(c.config))
  }

  /**
   * The outcome of renderFile: its verdict, the world after it, and what the
   * global configuration pointer holds afterwards (EAS_Config overwrites it).
   */
  datatype RenderResult = RenderResult(ok: bool, world: World, config: Option<LibConfig>)

  /** renderFile(path), run against w with the configuration pointer cfg. */
  function RenderRun(w: World, path: string, cfg: Option<LibConfig>): RenderResult
  {
    var fo := Next(w);
    var w1 := Issue(w, FOpen(path));
    if !fo.present then RenderResult(false, w1, cfg)
    else
      var body := RenderBody(w1, cfg);
      var closing := Next(body.world);
      var w2 := if body.stream then Issue(body.world, CloseFile) else body.world;
      var closed := !body.stream || closing.code == EAS_SUCCESS;
      RenderResult(body.ok && closed, Issue(w2, FClose(path)), body.config)
  }

  // ---------------------------------------------------------------------
  // The loop, iteration by iteration.

  /** Whether an iteration with these two replies writes its buffer and goes round again. */
  predicate Continues(state: Reply, rendered: Reply, mix: nat)
  {
    state.code == EAS_SUCCESS && !Stops(state.value) && rendered.code == EAS_SUCCESS && rendered.value == mix
  }

  /** The number of iterations the loop completes on script s. */
  function Completed(s: seq<Reply>, mix: nat): nat
    decreases |s|
  {
    if 2 <= |s| && Continues(ReplyAt(s, 0), ReplyAt(s, 1), mix) then 1 + Completed(Drop(s, 2), mix) else 0
  }

  /** The calls of k completed iterations. */
  function Cycles(k: nat, mix: nat): (cs: seq<Call>)
    ensures |cs| == 2 * k
  {
    if k == 0 then [] else [QueryState, Render(mix)] + Cycles(k - 1, mix)
  }

  /** The calls of the completed iterations alternate EAS_State and EAS_Render, starting with EAS_State. */
  lemma {:induction false} CyclesAlternate(k: nat, mix: nat)
    ensures forall j :: 0 <= j < 2 * k ==> Cycles(k, mix)[j] == if j % 2 == 0 then QueryState else Render(mix)
  {
    if k > 0 {
      CyclesAlternate(k - 1, mix);
      var cs := Cycles(k, mix);
      forall j | 2 <= j < 2 * k
        ensures cs[j] == Cycles(k - 1, mix)[j - 2] && (j % 2 == 0 <==> (j - 2) % 2 == 0)
      {
      }
    }
  }

  /** k chunks of n samples. */
  function Chunks(k: nat, n: nat): (out: seq<nat>)
    ensures |out| == k
  {
    seq(k, _ => n)
  }

  /** The samples in a list of chunks. */
  function Total(out: seq<nat>): nat
  {
    if out == [] then 0 else Total(out[..|out| - 1]) + out[|out| - 1]
  }

  lemma {:induction false} TotalChunks(k: nat, n: nat)
    ensures Total(Chunks(k, n)) == k * n
  {
    if k > 0 {
      assert Chunks(k, n)[..k - 1] == Chunks(k - 1, n);
      TotalChunks(k - 1, n);
    }
  }

  /** Samples written before and after add up. */
  lemma {:induction false} TotalConcat(a: seq<nat>, b: seq<nat>)
    ensures Total(a + b) == Total(a) + Total(b)
    decreases |b|
  {
    if b == [] {
      assert a + b == a;
    } else {
      assert (a + b)[..|a + b| - 1] == a + b[..|b| - 1];
      TotalConcat(a, b[..|b| - 1]);
    }
  }

  /** The calls of the iteration that ends the loop: only EAS_State, unless it asked for a render. */
  function LastIteration(state: Reply, mix: nat): seq<Call>
  {
    if state.code == EAS_SUCCESS && !Stops(state.value) then [QueryState, Render(mix)] else [QueryState]
  }

  /** An iteration that writes its buffer hands on to the loop on the rest of the script. */
  lemma RenderLoopStep(w: World, mix: nat, ch: nat)
    requires 2 <= |w.script| && Continues(ReplyAt(w.script, 0), ReplyAt(w.script, 1), mix)
    ensures RenderLoop(w, mix, ch) == RenderLoop(Emit(Advance(w, [QueryState, Render(mix)]), BufferSamples(mix, ch)), mix, ch)
    ensures Completed(w.script, mix) == 1 + Completed(Drop(w.script, 2), mix)
  {
    DropReplyAt(w.script, 1, 0);
    AdvanceTwice(w, [QueryState], [Render(mix)]);
    assert [QueryState] + [Render(mix)] == [QueryState, Render(mix)];
    assert Issue(Issue(w, QueryState), Render(mix)) == Advance(w, [QueryState, Render(mix)]);
  }

  /** An iteration that does not write its buffer ends the loop. */
  lemma RenderLoopEnd(w: World, mix: nat, ch: nat)
    requires !(2 <= |w.script| && Continues(ReplyAt(w.script, 0), ReplyAt(w.script, 1), mix))
    ensures var st := ReplyAt(w.script, 0); var r := RenderLoop(w, mix, ch);
      && Completed(w.script, mix) == 0
      && r.ok == (st.code == EAS_SUCCESS && Stops(st.value))
      && r.world == Advance(w, LastIteration(st, mix))
  {
    DropReplyAt(w.script, 1, 0);
    var st := ReplyAt(w.script, 0);
    if st.code == EAS_SUCCESS && !Stops(st.value) {
      AdvanceTwice(w, [QueryState], [Render(mix)]);
    }
  }

  /**
   * The outcome r of a loop on w that completes k iterations: it succeeds
   * exactly when the poll after them reports STOPPED or ERROR; it makes the
   * calls of the k iterations and of the last one, consuming one reply each,
   * and writes k chunks of mix * ch samples.
   */
  predicate LoopOutcome(w: World, mix: nat, ch: nat, k: nat, r: Step)
  {
    var st := ReplyAt(w.script, 2 * k);
    var calls := Cycles(k, mix) + LastIteration(st, mix);
    && r.ok == (st.code == EAS_SUCCESS && Stops(st.value))
    && r.world.script == Drop(w.script, |calls|)
    && r.world.trace == w.trace + calls
    && r.world.out == w.out + Chunks(k, BufferSamples(mix, ch))
  }

  /** One completed iteration in front of a loop outcome gives a loop outcome. */
  lemma IterationThen(w: World, w3: World, mix: nat, ch: nat, k1: nat, r: Step)
    requires w3.script == Drop(w.script, 2) && w3.trace == w.trace + [QueryState, Render(mix)] && w3.out == w.out + [BufferSamples(mix, ch)]
    requires LoopOutcome(w3, mix, ch, k1, r)
    ensures LoopOutcome(w, mix, ch, 1 + k1, r)
  {
    var s := w.script;
    DropReplyAt(s, 2, 2 * k1);
    var last := LastIteration(ReplyAt(s, 2 + 2 * k1), mix);
    assert ReplyAt(s, 2 * (1 + k1)) == ReplyAt(s, 2 + 2 * k1);
    DropDrop(s, 2, 2 * k1 + |last|);
    CyclesCons(k1, mix, last);
    ChunksCons(k1, BufferSamples(mix, ch));
    PrependPair(w.trace, [QueryState, Render(mix)], Cycles(k1, mix) + last);
    PrependPair(w.out, [BufferSamples(mix, ch)], Chunks(k1, BufferSamples(mix, ch)));
  }

  lemma PrependPair<T>(a: seq<T>, b: seq<T>, c: seq<T>)
    ensures a + b + c == a + (b + c)
  {
  }

  lemma CyclesCons(k: nat, mix: nat, last: seq<Call>)
    ensures [QueryState, Render(mix)] + (Cycles(k, mix) + last) == Cycles(1 + k, mix) + last
  {
  }

  lemma ChunksCons(k: nat, n: nat)
    ensures [n] + Chunks(k, n) == Chunks(1 + k, n)
  {
  }

  /**
   * The loop completes k iterations, each making EAS_State and EAS_Render and
   * writing mix * ch samples, then makes one more poll (and render), writing
   * nothing more.  It succeeds exactly when that poll reports STOPPED or
   * ERROR.
   */
  lemma {:induction false} RenderLoopFollows(w: World, mix: nat, ch: nat)
    ensures LoopOutcome(w, mix, ch, Completed(w.script, mix), RenderLoop(w, mix, ch))
    decreases |w.script|
  {
    var s := w.script;
    if 2 <= |s| && Continues(ReplyAt(s, 0), ReplyAt(s, 1), mix) {
      RenderLoopStep(w, mix, ch);
      var w3 := Emit(Advance(w, [QueryState, Render(mix)]), BufferSamples(mix, ch));
      assert |w3.script| < |s|;
      RenderLoopFollows(w3, mix, ch);
      IterationThen(w, w3, mix, ch, Completed(w3.script, mix), RenderLoop(w3, mix, ch));
    } else {
      RenderLoopEnd(w, mix, ch);
      LoopEndOutcome(w, mix, ch, RenderLoop(w, mix, ch));
    }
  }

  lemma LoopEndOutcome(w: World, mix: nat, ch: nat, r: Step)
    requires var st := ReplyAt(w.script, 0);
      r.ok == (st.code == EAS_SUCCESS && Stops(st.value)) && r.world == Advance(w, LastIteration(st, mix))
    ensures LoopOutcome(w, mix, ch, 0, r)
  {
    assert Cycles(0, mix) + LastIteration(ReplyAt(w.script, 0), mix) == LastIteration(ReplyAt(w.script, 0), mix);
    assert w.out + Chunks(0, BufferSamples(mix, ch)) == w.out;
  }

  // ---------------------------------------------------------------------
  // renderFile as a whole.

  /** The calls a run makes when its prologue fails at position f. */
  function EarlyCalls(script: seq<Reply>, path: string, f: nat): seq<Call>
    requires f < |Prologue(path)|
  {
    Prologue(path)[..f + 1]
      + (if 1 <= f && ReplyAt(script, 1).present then [CloseFile] else [])
      + (if 1 <= f then [FClose(path)] else [])
  }

  /** The first failure of the prologue, reply by reply. */
  lemma PrologueFirstFailure(s: seq<Reply>, path: string)
    ensures FirstFailure(s, Prologue(path)) ==
      if !Accepts(FOpen(path), ReplyAt(s, 0)) then 0
      else if !Accepts(OpenFile, ReplyAt(s, 1)) then 1
      else if !Accepts(Prepare, ReplyAt(s, 2)) then 2
      else if !Accepts(ParseMetaData, ReplyAt(s, 3)) then 3
      else if !Accepts(LibConfigQuery, ReplyAt(s, 4)) then 4
      else 5
  {
    var P := Prologue(path);
    if !Accepts(FOpen(path), ReplyAt(s, 0)) {
      FirstFailureIs(s, P, 0);
    } else if !Accepts(OpenFile, ReplyAt(s, 1)) {
      FirstFailureIs(s, P, 1);
    } else if !Accepts(Prepare, ReplyAt(s, 2)) {
      FirstFailureIs(s, P, 2);
    } else if !Accepts(ParseMetaData, ReplyAt(s, 3)) {
      FirstFailureIs(s, P, 3);
    } else if !Accepts(LibConfigQuery, ReplyAt(s, 4)) {
      FirstFailureIs(s, P, 4);
    } else {
      FirstFailureIs(s, P, 5);
    }
  }

  /** The world after the first n calls of the prologue, one call at a time. */
  lemma PrologueStep(w: World, path: string, n: nat)
    requires n < |Prologue(path)|
    ensures Next(Advance(w, Prologue(path)[..n])) == ReplyAt(w.script, n)
    ensures Issue(Advance(w, Prologue(path)[..n]), Prologue(path)[n]) == Advance(w, Prologue(path)[..n + 1])
  {
    var P := Prologue(path);
    IssueAfter(w, P[..n], P[n]);
    assert P[..n] + [P[n]] == P[..n + 1];
  }

  /** After the first n calls of the prologue, EAS_CloseFile and fclose. */
  lemma PrologueThenClose(w: World, path: string, n: nat)
    requires n <= |Prologue(path)|
    ensures var wn := Advance(w, Prologue(path)[..n]);
      Issue(Issue(wn, CloseFile), FClose(path)) == Advance(w, Prologue(path)[..n] + [CloseFile] + [FClose(path)])
  {
    var P := Prologue(path);
    IssueAfter(w, P[..n], CloseFile);
    IssueAfter(w, P[..n] + [CloseFile], FClose(path));
  }

  /** EAS_Prepare and EAS_ParseMetaData as a fail-fast block. */
  lemma PrepareBlock(w: World, path: string)
    ensures var w2 := Advance(w, Prologue(path)[..2]); var s := w.script;
      RunChecked(w2, [Prepare, ParseMetaData]) ==
        if !Accepts(Prepare, ReplyAt(s, 2)) then Step(false, Advance(w, Prologue(path)[..3]))
        else Step(Accepts(ParseMetaData, ReplyAt(s, 3)), Advance(w, Prologue(path)[..4]))
  {
    var P := Prologue(path);
    var w2 := Advance(w, P[..2]);
    PrologueStep(w, path, 2);
    PrologueStep(w, path, 3);
    RunCheckedCons(w2, Prepare, [ParseMetaData]);
    RunCheckedCons(Issue(w2, Prepare), ParseMetaData, []);
    assert [Prepare] + [ParseMetaData] == [Prepare, ParseMetaData];
    assert [ParseMetaData] + [] == [ParseMetaData];
  }

  /** What happens between fopen and the cleanup once EAS_OpenFile gave a stream. */
  lemma OpenedBody(w: World, path: string, cfg: Option<LibConfig>)
    requires Accepts(OpenFile, ReplyAt(w.script, 1))
    ensures var s := w.script; var P := Prologue(path); var c := ReplyAt(s, 4);
      RenderBody(Advance(w, P[..1]), cfg) ==
        if !Accepts(Prepare, ReplyAt(s, 2)) then Body(false, Advance(w, P[..3]), true, cfg)
        else if !Accepts(ParseMetaData, ReplyAt(s, 3)) then Body(false, Advance(w, P[..4]), true, cfg)
        else if !c.present then Body(false, Advance(w, P), true, None)
        else
          var loop := RenderLoop(Advance(w, P), c.config.mixBufferSize, c.config.numChannels);
          Body(loop.ok, loop.world, true, Some(c.config))
  {
    var P := Prologue(path);
    PrologueStep(w, path, 1);
    PrologueStep(w, path, 4);
    PrepareBlock(w, path);
    assert P[..5] == P;
  }

  /** renderFile after a successful fopen: the body, then EAS_CloseFile if there is a stream, then fclose. */
  lemma OpenedRun(w: World, path: string, cfg: Option<LibConfig>)
    requires ReplyAt(w.script, 0).present
    ensures var body := RenderBody(Advance(w, Prologue(path)[..1]), cfg); var r := RenderRun(w, path, cfg);
      && r.ok == (body.ok && (!body.stream || Next(body.world).code == EAS_SUCCESS))
      && r.world == (if body.stream then Issue(Issue(body.world, CloseFile), FClose(path)) else Issue(body.world, FClose(path)))
      && r.config == body.config
  {
    PrologueStep(w, path, 0);
    AdvanceNone(w);
  }

  /** What RenderEarlyFailure states of one run whose prologue fails at f. */
  predicate EarlyOutcome(w: World, path: string, cfg: Option<LibConfig>, f: nat)
    requires f < |Prologue(path)|
  {
    var r := RenderRun(w, path, cfg);
    && !r.ok
    && r.world == Advance(w, EarlyCalls(w.script, path, f))
    && r.config == (if f == 4 then None else cfg)
  }

  lemma OpenFails(w: World, path: string, cfg: Option<LibConfig>)
    requires !ReplyAt(w.script, 0).present
    ensures EarlyOutcome(w, path, cfg, 0)
  {
    assert Prologue(path)[..1] + [] + [] == [FOpen(path)];
  }

  lemma StreamFails(w: World, path: string, cfg: Option<LibConfig>)
    requires ReplyAt(w.script, 0).present && !Accepts(OpenFile, ReplyAt(w.script, 1))
    ensures EarlyOutcome(w, path, cfg, 1)
  {
    var P := Prologue(path);
    OpenedRun(w, path, cfg);
    PrologueStep(w, path, 1);
    var stream := ReplyAt(w.script, 1).present;
    assert RenderBody(Advance(w, P[..1]), cfg) == Body(false, Advance(w, P[..2]), stream, cfg);
    if stream {
      PrologueThenClose(w, path, 2);
    } else {
      IssueAfter(w, P[..2], FClose(path));
    }
  }

  lemma LateFails(w: World, path: string, cfg: Option<LibConfig>, f: nat)
    requires ReplyAt(w.script, 0).present && Accepts(OpenFile, ReplyAt(w.script, 1))
    requires 2 <= f < |Prologue(path)|
    requires f == 2 ==> !Accepts(Prepare, ReplyAt(w.script, 2))
    requires f == 3 ==> Accepts(Prepare, ReplyAt(w.script, 2)) && !Accepts(ParseMetaData, ReplyAt(w.script, 3))
    requires f == 4 ==> Accepts(Prepare, ReplyAt(w.script, 2)) && Accepts(ParseMetaData, ReplyAt(w.script, 3)) && !ReplyAt(w.script, 4).present
    ensures EarlyOutcome(w, path, cfg, f)
  {
    var P := Prologue(path);
    OpenedRun(w, path, cfg);
    OpenedBody(w, path, cfg);
    assert f == 4 ==> P[..f + 1] == P;
    PrologueThenClose(w, path, f + 1);
  }

  /**
   * A failure before the loop (fopen, EAS_OpenFile or its NULL stream,
   * EAS_Prepare, EAS_ParseMetaData or a zero play length, EAS_Config) fails
   * the file and writes nothing.  The calls made are the prologue up to the
   * failure, then EAS_CloseFile if a stream handle was obtained and fclose if
   * the file was opened.  Only a failed EAS_Config changes the configuration
   * pointer, to NULL.
   */
  lemma RenderEarlyFailure(w: World, path: string, cfg: Option<LibConfig>)
    requires FirstFailure(w.script, Prologue(path)) < |Prologue(path)|
    ensures var f := FirstFailure(w.script, Prologue(path)); var r := RenderRun(w, path, cfg);
      && !r.ok
      && r.world == Advance(w, EarlyCalls(w.script, path, f))
      && r.world.out == w.out
      && r.config == (if f == 4 then None else cfg)
  {
    var s := w.script;
    PrologueFirstFailure(s, path);
    if !ReplyAt(s, 0).present {
      OpenFails(w, path, cfg);
    } else if !Accepts(OpenFile, ReplyAt(s, 1)) {
      StreamFails(w, path, cfg);
    } else {
      LateFails(w, path, cfg, FirstFailure(s, Prologue(path)));
    }
  }

  /**
   * When the whole prologue is accepted, the loop runs with the geometry
   * EAS_Config reported, and then the stream and the file are closed; the
   * file succeeds exactly when the loop did and EAS_CloseFile succeeded.
   */
  lemma RenderAfterPrologue(w: World, path: string, cfg: Option<LibConfig>)
    requires FirstFailure(w.script, Prologue(path)) == |Prologue(path)|
    ensures var c := ReplyAt(w.script, 4).config;
      var loop := RenderLoop(Advance(w, Prologue(path)), c.mixBufferSize, c.numChannels);
      var r := RenderRun(w, path, cfg);
      && r.ok == (loop.ok && Next(loop.world).code == EAS_SUCCESS)
      && r.world == Advance(loop.world, [CloseFile, FClose(path)])
      && r.config == Some(c)
  {
    PrologueAccepted(w.script, path);
    OpenedRun(w, path, cfg);
    CompleteBody(w, path, cfg);
    var c := ReplyAt(w.script, 4).config;
    var loop := RenderLoop(Advance(w, Prologue(path)), c.mixBufferSize, c.numChannels);
    AdvanceTwice(loop.world, [CloseFile], [FClose(path)]);
  }

  /** A prologue with no failure: every one of its replies is accepted. */
  lemma PrologueAccepted(s: seq<Reply>, path: string)
    requires FirstFailure(s, Prologue(path)) == |Prologue(path)|
    ensures ReplyAt(s, 0).present && Accepts(OpenFile, ReplyAt(s, 1)) && Accepts(Prepare, ReplyAt(s, 2))
    ensures Accepts(ParseMetaData, ReplyAt(s, 3)) && ReplyAt(s, 4).present
  {
    PrologueFirstFailure(s, path);
  }

  /** The body once the whole prologue is accepted: the loop, with the stream open and the new configuration. */
  lemma CompleteBody(w: World, path: string, cfg: Option<LibConfig>)
    requires Accepts(OpenFile, ReplyAt(w.script, 1)) && Accepts(Prepare, ReplyAt(w.script, 2))
    requires Accepts(ParseMetaData, ReplyAt(w.script, 3)) && ReplyAt(w.script, 4).present
    ensures var c := ReplyAt(w.script, 4).config;
      var loop := RenderLoop(Advance(w, Prologue(path)), c.mixBufferSize, c.numChannels);
      RenderBody(Advance(w, Prologue(path)[..1]), cfg) == Body(loop.ok, loop.world, true, Some(c))
  {
    OpenedBody(w, path, cfg);
  }

  /** The calls renderFile makes after its fopen. */
  predicate LaterCall(c: Call, path: string)
  {
    || c == OpenFile || c == Prepare || c == ParseMetaData || c == LibConfigQuery
    || c == QueryState || c.Render? || c == CloseFile || c == FClose(path)
  }

  /** What RenderReleasesResources states of the calls one run adds. */
  predicate Releases(script: seq<Reply>, path: string, added: seq<Call>)
  {
    var fileOpen := ReplyAt(script, 0).present;
    var stream := fileOpen && ReplyAt(script, 1).present;
    && 1 <= |added| && added[0] == FOpen(path)
    && (forall i :: 1 <= i < |added| ==> LaterCall(added[i], path))
    && (forall i :: 0 <= i < |added| ==> (added[i] == FClose(path) <==> fileOpen && i == |added| - 1))
    && (forall i :: 0 <= i < |added| ==> (added[i] == CloseFile <==> stream && i == |added| - 2))
  }

  /** fopen failed exactly when the prologue failed at its first call; past EAS_OpenFile there is a stream. */
  lemma PrologueOpened(s: seq<Reply>, path: string)
    ensures ReplyAt(s, 0).present <==> 1 <= FirstFailure(s, Prologue(path))
    ensures 2 <= FirstFailure(s, Prologue(path)) ==> ReplyAt(s, 1).present
  {
    PrologueFirstFailure(s, path);
  }

  lemma EarlyReleases(script: seq<Reply>, path: string, f: nat)
    requires f < |Prologue(path)|
    requires ReplyAt(script, 0).present <==> 1 <= f
    requires 2 <= f ==> ReplyAt(script, 1).present
    ensures Releases(script, path, EarlyCalls(script, path, f))
  {
    var P := Prologue(path);
    var calls := EarlyCalls(script, path, f);
    assert forall i :: 0 <= i <= f ==> calls[i] == P[i];
  }

  lemma CompleteReleases(script: seq<Reply>, path: string, body: seq<Call>, mix: nat)
    requires FirstFailure(script, Prologue(path)) == |Prologue(path)|
    requires forall i :: 0 <= i < |body| ==> body[i] == QueryState || body[i] == Render(mix)
    ensures Releases(script, path, Prologue(path) + body + [CloseFile, FClose(path)])
  {
    PrologueAccepted(script, path);
    ClosingCalls(Prologue(path), body, path, mix);
  }

  /** fopen, calls that close nothing, the loop's calls, then EAS_CloseFile and fclose. */
  lemma ClosingCalls(pre: seq<Call>, body: seq<Call>, path: string, mix: nat)
    requires 1 <= |pre| && pre[0] == FOpen(path)
    requires forall i :: 1 <= i < |pre| ==> LaterCall(pre[i], path) && pre[i] != CloseFile && pre[i] != FClose(path)
    requires forall i :: 0 <= i < |body| ==> body[i] == QueryState || body[i] == Render(mix)
    ensures var calls := pre + body + [CloseFile, FClose(path)];
      && (forall i :: 1 <= i < |calls| ==> LaterCall(calls[i], path))
      && (forall i :: 0 <= i < |calls| ==> (calls[i] == FClose(path) <==> i == |calls| - 1))
      && (forall i :: 0 <= i < |calls| ==> (calls[i] == CloseFile <==> i == |calls| - 2))
  {
    var calls := pre + body + [CloseFile, FClose(path)];
    assert forall i :: 0 <= i < |pre| ==> calls[i] == pre[i];
    assert forall i :: |pre| <= i < |pre| + |body| ==> calls[i] == body[i - |pre|];
  }

  lemma EarlyRunReleases(w: World, path: string, cfg: Option<LibConfig>)
    requires FirstFailure(w.script, Prologue(path)) < |Prologue(path)|
    ensures Extends(w, RenderRun(w, path, cfg).world)
    ensures Releases(w.script, path, Added(w, RenderRun(w, path, cfg).world))
  {
    var f := FirstFailure(w.script, Prologue(path));
    RenderEarlyFailure(w, path, cfg);
    AddedAdvance(w, EarlyCalls(w.script, path, f));
    PrologueOpened(w.script, path);
    EarlyReleases(w.script, path, f);
  }

  lemma ReleasesAfterLoop(w: World, path: string, loopWorld: World, body: seq<Call>, mix: nat)
    requires FirstFailure(w.script, Prologue(path)) == |Prologue(path)|
    requires loopWorld.trace == w.trace + Prologue(path) + body
    requires forall i :: 0 <= i < |body| ==> body[i] == QueryState || body[i] == Render(mix)
    ensures Extends(w, Advance(loopWorld, [CloseFile, FClose(path)]))
    ensures Releases(w.script, path, Added(w, Advance(loopWorld, [CloseFile, FClose(path)])))
  {
    var calls := Prologue(path) + body + [CloseFile, FClose(path)];
    assert Advance(loopWorld, [CloseFile, FClose(path)]).trace == w.trace + calls;
    assert (w.trace + calls)[..|w.trace|] == w.trace;
    assert Added(w, Advance(loopWorld, [CloseFile, FClose(path)])) == calls;
    CompleteReleases(w.script, path, body, mix);
  }

  lemma CompleteRunReleases(w: World, path: string, cfg: Option<LibConfig>)
    requires FirstFailure(w.script, Prologue(path)) == |Prologue(path)|
    ensures Extends(w, RenderRun(w, path, cfg).world)
    ensures Releases(w.script, path, Added(w, RenderRun(w, path, cfg).world))
  {
    RenderAfterPrologue(w, path, cfg);
    var c := ReplyAt(w.script, 4).config;
    var w5 := Advance(w, Prologue(path));
    var mix := c.mixBufferSize;
    RenderLoopFollows(w5, mix, c.numChannels);
    var loop := RenderLoop(w5, mix, c.numChannels);
    var k := Completed(w5.script, mix);
    var last := ReplyAt(w5.script, 2 * k);
    var body := Cycles(k, mix) + LastIteration(last, mix);
    LoopCalls(k, mix, last);
    LoopTrace(w5, mix, c.numChannels, k, loop);
    assert w5.trace == w.trace + Prologue(path);
    ReleasesAfterLoop(w, path, loop.world, body, mix);
  }

  lemma LoopTrace(w: World, mix: nat, ch: nat, k: nat, r: Step)
    requires LoopOutcome(w, mix, ch, k, r)
    ensures r.world.trace == w.trace + (Cycles(k, mix) + LastIteration(ReplyAt(w.script, 2 * k), mix))
  {
  }

  /** The loop makes only EAS_State and EAS_Render calls. */
  lemma LoopCalls(k: nat, mix: nat, st: Reply)
    ensures var body := Cycles(k, mix) + LastIteration(st, mix);
      forall i :: 0 <= i < |body| ==> body[i] == QueryState || body[i] == Render(mix)
  {
    CyclesAlternate(k, mix);
  }

  /**
   * The file adapter's stream is released on every path: fclose is the last
   * call exactly when fopen succeeded, EAS_CloseFile comes right before it
   * exactly when a stream handle was obtained, and neither occurs anywhere
   * else.
   */
  lemma RenderReleasesResources(w: World, path: string, cfg: Option<LibConfig>)
    ensures var r := RenderRun(w, path, cfg); var added := Added(w, r.world);
      var fileOpen := ReplyAt(w.script, 0).present;
      var stream := fileOpen && ReplyAt(w.script, 1).present;
      && Extends(w, r.world)
      && 1 <= |added| && added[0] == FOpen(path)
      && (forall i :: 1 <= i < |added| ==> LaterCall(added[i], path))
      && (forall i :: 0 <= i < |added| ==> (added[i] == FClose(path) <==> fileOpen && i == |added| - 1))
      && (forall i :: 0 <= i < |added| ==> (added[i] == CloseFile <==> stream && i == |added| - 2))
  {
    if FirstFailure(w.script, Prologue(path)) < |Prologue(path)| {
      EarlyRunReleases(w, path, cfg);
    } else {
      CompleteRunReleases(w, path, cfg);
    }
  }

  /**
   * The output of a file whose prologue is accepted: the number of completed
   * iterations k, each writing mixBufferSize * numChannels samples, and
   * nothing else.  The file succeeds exactly when the poll after the k-th
   * iteration reports STOPPED or ERROR and EAS_CloseFile then succeeds.  (A
   * file whose prologue fails writes nothing: RenderEarlyFailure.)
   */
  lemma RenderOutput(w: World, path: string, cfg: Option<LibConfig>)
    requires FirstFailure(w.script, Prologue(path)) == |Prologue(path)|
    ensures var s := w.script; var c := ReplyAt(s, 4).config;
      var k := Completed(Drop(s, 5), c.mixBufferSize);
      var st := ReplyAt(s, 5 + 2 * k);
      var r := RenderRun(w, path, cfg);
      && r.world.out == w.out + Chunks(k, BufferSamples(c.mixBufferSize, c.numChannels))
      && r.ok == (st.code == EAS_SUCCESS && Stops(st.value) && ReplyAt(s, 6 + 2 * k).code == EAS_SUCCESS)
  {
    var s := w.script;
    RunAfterPrologue(w, path, cfg);
    var c := ReplyAt(s, 4).config;
    LoopAfterPrologue(w, path, c.mixBufferSize, c.numChannels);
    var loop := RenderLoop(Advance(w, Prologue(path)), c.mixBufferSize, c.numChannels);
    OutputAfterLoop(s, w.out, RenderRun(w, path, cfg), loop, c.mixBufferSize, c.numChannels, Completed(Drop(s, 5), c.mixBufferSize));
  }

  /**
   * Once the prologue is accepted, renderFile writes k times
   * mixBufferSize*numChannels samples, k being the completed iterations.
   */
  lemma RenderSampleCount(w: World, path: string, cfg: Option<LibConfig>)
    requires FirstFailure(w.script, Prologue(path)) == |Prologue(path)|
    ensures var c := ReplyAt(w.script, 4).config;
      var k := Completed(Drop(w.script, 5), c.mixBufferSize);
      Total(RenderRun(w, path, cfg).world.out) == Total(w.out) + k * BufferSamples(c.mixBufferSize, c.numChannels)
  {
    var c := ReplyAt(w.script, 4).config;
    var k := Completed(Drop(w.script, 5), c.mixBufferSize);
    var n := BufferSamples(c.mixBufferSize, c.numChannels);
    RenderOutput(w, path, cfg);
    TotalConcat(w.out, Chunks(k, n));
    TotalChunks(k, n);
  }

  /** The run's output and verdict after an accepted prologue, in terms of the loop's. */
  lemma RunAfterPrologue(w: World, path: string, cfg: Option<LibConfig>)
    requires FirstFailure(w.script, Prologue(path)) == |Prologue(path)|
    ensures var c := ReplyAt(w.script, 4).config;
      var loop := RenderLoop(Advance(w, Prologue(path)), c.mixBufferSize, c.numChannels);
      var r := RenderRun(w, path, cfg);
      r.world.out == loop.world.out && r.ok == (loop.ok && Next(loop.world).code == EAS_SUCCESS)
  {
    RenderAfterPrologue(w, path, cfg);
  }

  /** The loop that follows the prologue, with positions counted from the start of the script. */
  lemma LoopAfterPrologue(w: World, path: string, mix: nat, ch: nat)
    ensures var s5 := Drop(w.script, 5); var k := Completed(s5, mix);
      var loop := RenderLoop(Advance(w, Prologue(path)), mix, ch);
      && loop.world.out == w.out + Chunks(k, BufferSamples(mix, ch))
      && loop.ok == (ReplyAt(s5, 2 * k).code == EAS_SUCCESS && Stops(ReplyAt(s5, 2 * k).value))
      && (loop.ok ==> Next(loop.world) == ReplyAt(s5, 2 * k + 1))
  {
    var w5 := Advance(w, Prologue(path));
    assert w5.out == w.out && w5.script == Drop(w.script, 5);
    RenderLoopFollows(w5, mix, ch);
    LoopEnds(w5, mix, ch, Completed(w5.script, mix), RenderLoop(w5, mix, ch));
  }

  /** The run's output and verdict read off the loop's, with positions counted from the start of the script. */
  lemma OutputAfterLoop(s: seq<Reply>, out0: seq<nat>, r: RenderResult, loop: Step, mix: nat, ch: nat, k: nat)
    requires r.world.out == loop.world.out && r.ok == (loop.ok && Next(loop.world).code == EAS_SUCCESS)
    requires loop.world.out == out0 + Chunks(k, BufferSamples(mix, ch))
    requires loop.ok == (ReplyAt(Drop(s, 5), 2 * k).code == EAS_SUCCESS && Stops(ReplyAt(Drop(s, 5), 2 * k).value))
    requires loop.ok ==> Next(loop.world) == ReplyAt(Drop(s, 5), 2 * k + 1)
    ensures r.world.out == out0 + Chunks(k, BufferSamples(mix, ch))
    ensures var st := ReplyAt(s, 5 + 2 * k);
      r.ok == (st.code == EAS_SUCCESS && Stops(st.value) && ReplyAt(s, 6 + 2 * k).code == EAS_SUCCESS)
  {
    DropReplyAt(s, 5, 2 * k);
    DropReplyAt(s, 5, 2 * k + 1);
  }

  /** A loop outcome's output, and the reply waiting for EAS_CloseFile after a loop that succeeded. */
  lemma LoopEnds(w: World, mix: nat, ch: nat, k: nat, r: Step)
    requires LoopOutcome(w, mix, ch, k, r)
    ensures r.world.out == w.out + Chunks(k, BufferSamples(mix, ch))
    ensures r.ok == (ReplyAt(w.script, 2 * k).code == EAS_SUCCESS && Stops(ReplyAt(w.script, 2 * k).value))
    ensures r.ok ==> Next(r.world) == ReplyAt(w.script, 2 * k + 1)
  {
    if r.ok {
      DropReplyAt(w.script, 2 * k + 1, 0);
    }
  }
}
