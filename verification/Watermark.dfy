/** src/seerflow/correlation/watermark.py, and the way
    src/seerflow/pipeline/handler.py feeds the window buffer through it. */
module Watermarks {
  import opened Events
  import opened Dicts
  import opened Windows

  datatype Mark = Mark(current: nat, tolerance: nat)

  function Advance(m: Mark, ts: nat): Mark {
    if ts > m.current then m.(current := ts) else m
  }

  /** Position 0 means that nothing has advanced the mark yet. */
  predicate IsLate(m: Mark, ts: nat) {
    m.current != 0 && ts < m.current - m.tolerance
  }

  class Watermark {
    const toleranceNs: nat
    var currentNs: nat

    ghost function Model(): Mark
      reads this
    {
      Mark(currentNs, toleranceNs)
    }

    constructor (toleranceNs: nat)
      ensures Model() == Mark(0, toleranceNs)
    {
      this.toleranceNs, currentNs := toleranceNs, 0;
    }

    method AdvanceTo(ts: nat)
      modifies this
      ensures Model() == Advance(old(Model()), ts)
    {
      if ts > currentNs { currentNs := ts; }
    }

    method Late(ts: nat) returns (late: bool)
      ensures late == IsLate(Model(), ts)
    {
      if currentNs == 0 { return false; }
      late := ts < currentNs - toleranceNs;
    }
  }

  /** The pipeline either ingests an event or reads the buffers. */
  datatype Input = Ingest(event: Event, refs: seq<string>) | Read(op: Op)

  datatype State = State(mark: Mark, window: Window)

  predicate WellFormed(inputs: seq<Input>) {
    forall i :: 0 <= i < |inputs| && inputs[i].Read? ==> !inputs[i].op.AddOp?
  }

  function AddAll(c: Config, w: Window, refs: seq<string>, e: Event): (r: Window)
    requires w.buffers.Valid() && c.maxEntities >= 1
    ensures r.buffers.Valid()
  {
    if refs == [] then w
    else Add(c, AddAll(c, w, refs[..|refs| - 1], e), refs[|refs| - 1], e)
  }

  function Next(c: Config, s: State, input: Input): (r: State)
    requires s.window.buffers.Valid() && c.maxEntities >= 1
    ensures r.window.buffers.Valid()
  {
    match input
    case Ingest(e, refs) =>
      var mark := Advance(s.mark, e.ts);
      State(mark, if IsLate(mark, e.ts) then s.window else AddAll(c, s.window, refs, e))
    case Read(op) => s.(window := Step(c, s.window, op))
  }

  function Reach(c: Config, tolerance: nat, inputs: seq<Input>): (s: State)
    requires c.maxEntities >= 1
    ensures s.window.buffers.Valid()
  {
    if inputs == [] then State(Mark(0, tolerance), EMPTY)
    else Next(c, Reach(c, tolerance, inputs[..|inputs| - 1]), inputs[|inputs| - 1])
  }

  /** Later entries are at most `tolerance` older than earlier ones, and none is
      ahead of the mark. */
  ghost predicate NearlySorted(buf: seq<Event>, m: Mark) {
    && (forall i, j :: 0 <= i < j < |buf| ==> buf[j].ts >= buf[i].ts - m.tolerance)
    && (forall i :: 0 <= i < |buf| ==> buf[i].ts <= m.current)
  }

  lemma DropKeepsNearlySorted(buf: seq<Event>, m: Mark, cutoff: int)
    requires NearlySorted(buf, m)
    ensures NearlySorted(DropExpired(buf, cutoff), m)
  {
    DropFacts(buf, cutoff);
  }

  lemma AdvanceKeepsNearlySorted(buf: seq<Event>, m: Mark, ts: nat)
    requires NearlySorted(buf, m)
    ensures NearlySorted(buf, Advance(m, ts))
  {
  }

  lemma AppendKeepsNearlySorted(buf: seq<Event>, m: Mark, e: Event, n: nat)
    requires NearlySorted(buf, m) && e.ts <= m.current && !IsLate(m, e.ts)
    ensures NearlySorted(Seqs.LastN(buf + [e], n), m)
  {
    assert NearlySorted(buf + [e], m);
  }

  lemma {:induction false} AddAllKeepsNearlySorted(
    c: Config, w: Window, refs: seq<string>, m: Mark, e: Event, k: string)
    requires w.buffers.Valid() && c.maxEntities >= 1
    requires NearlySorted(w.Buffer(k), m) && e.ts <= m.current && !IsLate(m, e.ts)
    ensures NearlySorted(AddAll(c, w, refs, e).Buffer(k), m)
  {
    if refs != [] {
      var before, j := AddAll(c, w, refs[..|refs| - 1], e), refs[|refs| - 1];
      AddAllKeepsNearlySorted(c, w, refs[..|refs| - 1], m, e, k);
      StepBuffer(c, before, AddOp(j, e), k);
      AppendKeepsNearlySorted(before.Buffer(k), m, e, c.maxEvents);
    }
  }

  lemma NextKeepsNearlySorted(c: Config, s: State, input: Input, k: string)
    requires c.maxEntities >= 1 && s.window.buffers.Valid()
    requires input.Read? ==> !input.op.AddOp?
    requires NearlySorted(s.window.Buffer(k), s.mark)
    ensures var t := Next(c, s, input);
            t.mark.tolerance == s.mark.tolerance && NearlySorted(t.window.Buffer(k), t.mark)
  {
    match input
    case Ingest(e, refs) =>
      var mark := Advance(s.mark, e.ts);
      AdvanceKeepsNearlySorted(s.window.Buffer(k), s.mark, e.ts);
      if !IsLate(mark, e.ts) { AddAllKeepsNearlySorted(c, s.window, refs, mark, e, k); }
    case Read(op) =>
      StepBuffer(c, s.window, op, k);
      DropKeepsNearlySorted(s.window.Buffer(k), s.mark, op.now - c.windowNs);
      hide Dict.Valid, NearlySorted, Step, DropExpired;
  }

  lemma {:induction false} ReachIsNearlySorted(c: Config, tolerance: nat, inputs: seq<Input>, k: string)
    requires c.maxEntities >= 1 && WellFormed(inputs)
    ensures var s := Reach(c, tolerance, inputs);
            s.mark.tolerance == tolerance && NearlySorted(s.window.Buffer(k), s.mark)
  {
    if inputs != [] {
      var init := inputs[..|inputs| - 1];
      ReachIsNearlySorted(c, tolerance, init, k);
      NextKeepsNearlySorted(c, Reach(c, tolerance, init), inputs[|inputs| - 1], k);
      hide Dict.Valid, NearlySorted, Next;
    }
  }

  /** Bounded staleness: pruning from the left alone leaves behind no event older
      than the cutoff by more than the watermark's tolerance, after any run. */
  lemma PruningIsNearlyComplete(c: Config, tolerance: nat, inputs: seq<Input>, prune: Op, k: string)
    requires c.maxEntities >= 1 && WellFormed(inputs)
    requires prune.PruneOp? || (prune.QueryOp? && prune.entity == k)
    ensures forall e :: e in Step(c, Reach(c, tolerance, inputs).window, prune).Buffer(k) ==>
              e.ts >= prune.now - c.windowNs - tolerance
  {
    hide *;
    var s := Reach(c, tolerance, inputs);
    PruneBuffer(c, s.window, prune, k);
    ReachIsNearlySorted(c, tolerance, inputs, k);
    PrunedTail(s.window.Buffer(k), s.mark, prune.now - c.windowNs);
  }

  lemma PrunedTail(buf: seq<Event>, m: Mark, cutoff: int)
    requires NearlySorted(buf, m)
    ensures forall e :: e in DropExpired(buf, cutoff) ==> e.ts >= cutoff - m.tolerance
  {
    DropFacts(buf, cutoff);
    DropKeepsNearlySorted(buf, m, cutoff);
  }

  // ---- the pipeline is a run of the window buffer -------------------------------

  function AddOps(refs: seq<string>, e: Event): seq<Op> {
    if refs == [] then [] else AddOps(refs[..|refs| - 1], e) + [AddOp(refs[|refs| - 1], e)]
  }

  function Flatten(tolerance: nat, inputs: seq<Input>): (r: (Mark, seq<Op>)) {
    if inputs == [] then (Mark(0, tolerance), [])
    else
      var (mark, ops) := Flatten(tolerance, inputs[..|inputs| - 1]);
      match inputs[|inputs| - 1]
      case Ingest(e, refs) =>
        var mark' := Advance(mark, e.ts);
        (mark', if IsLate(mark', e.ts) then ops else ops + AddOps(refs, e))
      case Read(op) => (mark, ops + [op])
  }

  lemma {:induction false} AddAllRuns(c: Config, ops: seq<Op>, refs: seq<string>, e: Event)
    requires c.maxEntities >= 1
    ensures AddAll(c, Run(c, ops), refs, e) == Run(c, ops + AddOps(refs, e))
  {
    hide Dict.Valid, Add;
    var all := ops + AddOps(refs, e);
    if refs == [] {
      assert all == ops;
    } else {
      AddAllRuns(c, ops, refs[..|refs| - 1], e);
      assert all[..|all| - 1] == ops + AddOps(refs[..|refs| - 1], e);
    }
  }

  /** Everything proved about runs of the buffer therefore holds of the pipeline,
      with the late events left out. */
  lemma {:induction false} PipelineRunsTheWindow(c: Config, tolerance: nat, inputs: seq<Input>)
    requires c.maxEntities >= 1
    ensures Reach(c, tolerance, inputs)
         == State(Flatten(tolerance, inputs).0, Run(c, Flatten(tolerance, inputs).1))
  {
    if inputs != [] {
      var init, input := inputs[..|inputs| - 1], inputs[|inputs| - 1];
      PipelineRunsTheWindow(c, tolerance, init);
      var ops := Flatten(tolerance, init).1;
      match input
      case Ingest(e, refs) => AddAllRuns(c, ops, refs, e);
      case Read(op) => assert (ops + [op])[..|ops|] == ops;
    }
  }

  // ---- which events are added ----------------------------------------------------

  /** No event ingested so far is newer by more than the tolerance. */
  predicate OnTime(tolerance: nat, inputs: seq<Input>, e: Event) {
    forall i :: 0 <= i < |inputs| && inputs[i].Ingest? ==> e.ts >= inputs[i].event.ts - tolerance
  }

  /** The mark is the newest time ingested. */
  lemma {:induction false} MarkIsNewest(tolerance: nat, inputs: seq<Input>)
    ensures var m := Flatten(tolerance, inputs).0;
            && m.tolerance == tolerance
            && (forall i :: 0 <= i < |inputs| && inputs[i].Ingest? ==> inputs[i].event.ts <= m.current)
            && (m.current != 0 ==>
                  exists i :: 0 <= i < |inputs| && inputs[i].Ingest? && inputs[i].event.ts == m.current)
  {
    hide AddOps, IsLate;
    if inputs != [] {
      var n := |inputs| - 1;
      MarkIsNewest(tolerance, inputs[..n]);
      var before := Flatten(tolerance, inputs[..n]).0;
      if before.current != 0 {
        var i :| 0 <= i < n && inputs[..n][i].Ingest? && inputs[..n][i].event.ts == before.current;
        assert inputs[i] == inputs[..n][i];
      }
      assert forall i :: 0 <= i < n ==> inputs[i] == inputs[..n][i];
    }
  }

  lemma {:induction false} AddOpsAt(refs: seq<string>, e: Event)
    ensures |AddOps(refs, e)| == |refs|
    ensures forall j :: 0 <= j < |refs| ==> AddOps(refs, e)[j] == AddOp(refs[j], e)
  {
    if refs != [] { AddOpsAt(refs[..|refs| - 1], e); }
  }

  /** An event within the tolerance is added for each of its entities, in order; one
      beyond it is not added at all. */
  lemma AddedIffOnTime(tolerance: nat, inputs: seq<Input>, e: Event, refs: seq<string>)
    ensures var before, after := Flatten(tolerance, inputs).1, Flatten(tolerance, inputs + [Ingest(e, refs)]).1;
            && (OnTime(tolerance, inputs, e) ==>
                  && |after| == |before| + |refs| && after[..|before|] == before
                  && forall j :: 0 <= j < |refs| ==> after[|before| + j] == AddOp(refs[j], e))
            && (!OnTime(tolerance, inputs, e) ==> after == before)
  {
    var more := inputs + [Ingest(e, refs)];
    assert more[..|inputs|] == inputs;
    MarkIsNewest(tolerance, inputs);
    AddOpsAt(refs, e);
    hide AddOps;
  }
}
