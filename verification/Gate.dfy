/** The mailbox between the HTTP thread, which proposes, the window, which arms, cancels and reads
    outcomes, and the main loop, which takes an armed call and stores what came of it. Each function
    that holds the lock is one step; steps of the three parties interleave freely. */
module Gate {
  import opened Common
  import opened Decimal

  const DONE_LIMIT: nat := 8
  const MAX_NOTE: nat := 240
  const MAX_BODY: nat := 256 * 1024

  // ---------------------------------------------------------------- data

  datatype Call = Call(verb: string, path: string, body: Option<string>)

  /** What the tool table makes of a proposal, and what the proposer is shown of it. */
  datatype Tool = Tool(name: string, summary: string, call: Call)
  datatype View = View(name: string, summary: string)

  datatype PendingTool = PendingTool(name: string, summary: string, call: Call, armed: bool)

  /** What a finished tool left, without the mark that it was reported. */
  datatype Outcome = Outcome(name: string, summary: string, status: nat, note: string, body: string)
  datatype Finished = Finished(outcome: Outcome, recorded: bool)

  /** What the window is told of it: all but the body. */
  datatype ToolOutcome = ToolOutcome(name: string, summary: string, status: nat, note: string)

  /** What the main loop stores for a call it ran. */
  datatype Answer = Answer(status: nat, note: string, body: string)

  datatype State = State(pending: Option<PendingTool>, inflight: Option<(string, string)>, done: seq<Finished>)

  datatype ProposeError = NotATool | AlreadyPending

  // ---------------------------------------------------------------- the locked steps

  /** `tool` is what the tool table gives, or None when the table refuses. */
  function Propose(g: State, tool: Option<Tool>): (State, Result<View, ProposeError>) {
    if tool.None? then (g, Err(NotATool))
    else if g.pending.Some? then (g, Err(AlreadyPending))
    else
      var t := tool.value;
      (g.(pending := Some(PendingTool(t.name, t.summary, t.call, false))), Ok(View(t.name, t.summary)))
  }

  /** A call from outside the tool table, under any name but the empty one and the confirm intent. */
  function Nameable(tool: Tool): Option<Tool> {
    if tool.name == "" || tool.name == "confirm_intent" then None else Some(tool)
  }

  function Arm(g: State): (State, bool) {
    if g.pending.None? then (g, false) else (g.(pending := Some(g.pending.value.(armed := true))), true)
  }

  function TakeArmed(g: State): (State, Option<Call>) {
    if g.pending.None? || !g.pending.value.armed then (g, None)
    else (g.(pending := None, inflight := Some((g.pending.value.name, g.pending.value.summary))), Some(g.pending.value.call))
  }

  function CancelOutcome(p: PendingTool): Outcome {
    Outcome(p.name, p.summary, 499, "tool-cancelled-notice", "tool-cancelled-notice")
  }

  function Cancel(g: State): (State, Option<string>) {
    if g.pending.None? then (g, None)
    else (g.(pending := None, done := g.done + [Finished(CancelOutcome(g.pending.value), true)]),
          Some(g.pending.value.name))
  }

  function StoredOutcome(g: State, a: Answer): Outcome {
    var (name, summary) := if g.inflight.Some? then g.inflight.value else ("tool", "");
    Outcome(name, summary, a.status, if |a.note| > MAX_NOTE then a.note[..MAX_NOTE] else a.note, KeptBody(a))
  }

  function KeptBody(a: Answer): string {
    if Utf8Len(a.body) > MAX_BODY then "HTTP " + Text(a.status) + " · " + Text(Utf8Len(a.body)) + " bytes" else a.body
  }

  function LastOf(done: seq<Finished>): seq<Finished> {
    if |done| > DONE_LIMIT then done[|done| - DONE_LIMIT..] else done
  }

  function Store(g: State, a: Answer): State {
    g.(inflight := None, done := LastOf(g.done + [Finished(StoredOutcome(g, a), false)]))
  }

  /** Where the first outcome that was not reported stands. */
  function FirstUnreported(done: seq<Finished>): (i: nat)
    ensures i <= |done| && (forall k :: 0 <= k < i ==> done[k].recorded) && (i < |done| ==> !done[i].recorded)
  {
    if done == [] then 0 else if !done[0].recorded then 0 else FirstUnreported(done[1..]) + 1
  }

  function Told(o: Outcome): ToolOutcome {
    ToolOutcome(o.name, o.summary, o.status, o.note)
  }

  function TakeDone(g: State): (State, Option<ToolOutcome>) {
    var i := FirstUnreported(g.done);
    if i == |g.done| then (g, None)
    else (g.(done := g.done[i := g.done[i].(recorded := true)]), Some(Told(g.done[i].outcome)))
  }

  // ---------------------------------------------------------------- the mailbox object

  class Mailbox {
    var pending: Option<PendingTool>
    var inflight: Option<(string, string)>
    var done: seq<Finished>

    ghost function Get(): State
      reads this
    {
      State(pending, inflight, done)
    }

    constructor ()
      ensures Get() == State(None, None, [])
    {
      pending, inflight, done := None, None, [];
    }

    method ProposeTool(tool: Option<Tool>) returns (r: Result<View, ProposeError>)
      modifies this
      ensures (Get(), r) == Propose(old(Get()), tool)
    {
      if tool.None? {
        return Err(NotATool);
      }
      if pending.Some? {
        return Err(AlreadyPending);
      }
      var view := View(tool.value.name, tool.value.summary);
      pending := Some(PendingTool(view.name, view.summary, tool.value.call, false));
      r := Ok(view);
    }

    /** `propose_call`: the name is looked at before the mailbox is. */
    method ProposeCall(tool: Tool) returns (r: Result<View, ProposeError>)
      modifies this
      ensures (Get(), r) == Propose(old(Get()), Nameable(tool))
    {
      if tool.name == "" || tool.name == "confirm_intent" {
        return Err(NotATool);
      }
      if pending.Some? {
        return Err(AlreadyPending);
      }
      pending := Some(PendingTool(tool.name, tool.summary, tool.call, false));
      r := Ok(View(tool.name, tool.summary));
    }

    method ArmPending() returns (armed: bool)
      modifies this
      ensures (Get(), armed) == Arm(old(Get()))
    {
      if pending.None? {
        return false;
      }
      pending := Some(pending.value.(armed := true));
      armed := true;
    }

    method Take() returns (call: Option<Call>)
      modifies this
      ensures (Get(), call) == TakeArmed(old(Get()))
    {
      if pending.None? || !pending.value.armed {
        return None;
      }
      call := Some(pending.value.call);
      inflight := Some((pending.value.name, pending.value.summary));
      pending := None;
    }

    method CancelPending() returns (name: Option<string>)
      modifies this
      ensures (Get(), name) == Cancel(old(Get()))
    {
      if pending.None? {
        return None;
      }
      var p := pending.value;
      pending := None;
      done := done + [Finished(CancelOutcome(p), true)];
      name := Some(p.name);
    }

    method StoreOutcome(status: nat, note: string, body: string)
      modifies this
      ensures Get() == Store(old(Get()), Answer(status, note, body))
    {
      hide Utf8Len, Text;
      var name, summary := "tool", "";
      if inflight.Some? {
        name, summary := inflight.value.0, inflight.value.1;
      }
      inflight := None;
      var keptNote, keptBody := note, body;
      if |keptNote| > MAX_NOTE {
        keptNote := keptNote[..MAX_NOTE];
      }
      if Utf8Len(body) > MAX_BODY {
        keptBody := "HTTP " + Text(status) + " · " + Text(Utf8Len(body)) + " bytes";
      }
      done := done + [Finished(Outcome(name, summary, status, keptNote, keptBody), false)];
      ghost var all := done;
      while |done| > DONE_LIMIT
        invariant pending == old(pending) && inflight.None?
        invariant |done| <= |all| && done == all[|all| - |done|..]
        invariant |all| > DONE_LIMIT ==> |done| >= DONE_LIMIT
        invariant |all| <= DONE_LIMIT ==> done == all
      {
        done := done[1..];
      }
    }

    method Report() returns (r: Option<ToolOutcome>)
      modifies this`done
      ensures (Get(), r) == TakeDone(old(Get()))
    {
      var i := 0;
      while i < |done| && done[i].recorded
        invariant i <= |done| && FirstUnreported(done) == i + FirstUnreported(done[i..])
      {
        assert done[i..][1..] == done[i + 1..];
        i := i + 1;
      }
      assert FirstUnreported(done[i..]) == 0 by { assert i < |done| ==> done[i..][0] == done[i]; }
      if i == |done| {
        return None;
      }
      var o := done[i].outcome;
      r := Some(ToolOutcome(o.name, o.summary, o.status, o.note));
      done := done[i := done[i].(recorded := true)];
    }
  }

  // ---------------------------------------------------------------- runs of the three parties

  datatype Op =
    | HttpPropose(tool: Option<Tool>)
    | HttpProposeCall(named: Tool)
    | WindowArm
    | WindowCancel
    | WindowReport
    | MainLoop(answer: Answer)

  /** One entry ever put on `done`: which proposal it ends, what the main loop answered (None when the
      window cancelled it), and what was put there. */
  datatype Entry = Entry(id: nat, answer: Option<Answer>, outcome: Outcome)

  /** The mailbox, where the main loop stands (it stores an outcome for a call it took before it
      takes another), and the history. Proposals are numbered as they are accepted; beside each
      number the history keeps what the parties were handed: views, calls, names and outcomes. */
  datatype World = World(
    gate: State,
    handling: bool,
    accepted: seq<Tool>,
    views: seq<View>,
    armed: set<nat>,
    taken: seq<nat>,
    calls: seq<Call>,
    cancelled: seq<nat>,
    dropped: seq<string>,
    log: seq<Entry>,
    reported: seq<nat>,
    told: seq<ToolOutcome>
  )

  function Perform(w: World, op: Op): World {
    var g := w.gate;
    match op
    case HttpPropose(tool) => Proposed(w, Propose(g, tool), tool)
    case HttpProposeCall(tool) => Proposed(w, Propose(g, Nameable(tool)), Some(tool))
    case WindowArm =>
      w.(gate := Arm(g).0, armed := if Arm(g).1 then w.armed + {Current(w)} else w.armed)
    case WindowCancel =>
      var (g', name) := Cancel(g);
      if name.None? then w.(gate := g')
      else w.(gate := g', cancelled := w.cancelled + [Current(w)], dropped := w.dropped + [name.value],
              log := w.log + [Entry(Current(w), None, Newest(g'))])
    case WindowReport =>
      var (g', r) := TakeDone(g);
      if r.None? then w.(gate := g')
      else w.(gate := g', reported := w.reported + [Behind(w) + FirstUnreported(g.done)], told := w.told + [r.value])
    case MainLoop(answer) =>
      if w.handling then
        var g' := Store(g, answer);
        w.(gate := g', handling := false, log := w.log + [Entry(LatestTaken(w), Some(answer), Newest(g'))])
      else
        var (g', call) := TakeArmed(g);
        if call.None? then w.(gate := g')
        else w.(gate := g', handling := true, taken := w.taken + [Current(w)], calls := w.calls + [call.value])
  }

  function Proposed(w: World, step: (State, Result<View, ProposeError>), tool: Option<Tool>): World {
    if step.1.Ok? && tool.Some? then
      w.(gate := step.0, accepted := w.accepted + [tool.value], views := w.views + [step.1.value])
    else w.(gate := step.0)
  }

  /** The outcome that was put on `done` last. */
  function Newest(g: State): Outcome {
    if g.done == [] then Outcome("", "", 0, "", "") else g.done[|g.done| - 1].outcome
  }

  function LatestTaken(w: World): nat {
    if w.taken == [] then 0 else w.taken[|w.taken| - 1]
  }

  /** The number of the proposal that is pending. */
  function Current(w: World): nat {
    if w.accepted == [] then 0 else |w.accepted| - 1
  }

  /** How many entries have been dropped from the front of `done`. */
  function Behind(w: World): nat {
    if |w.log| < |w.gate.done| then 0 else |w.log| - |w.gate.done|
  }

  function Start(): World {
    World(State(None, None, []), false, [], [], {}, [], [], [], [], [], [], [])
  }

  function Run(ops: seq<Op>): World {
    if ops == [] then Start() else Perform(Run(ops[..|ops| - 1]), ops[|ops| - 1])
  }

  // ---------------------------------------------------------------- exactly once

  ghost predicate Rising(s: seq<nat>) {
    forall i, j :: 0 <= i < j < |s| ==> s[i] < s[j]
  }

  /** Every accepted proposal is taken, cancelled or pending: one of them, once. */
  ghost predicate EachOnce(w: World) {
    |w.accepted| == |w.taken| + |w.cancelled| + (if w.gate.pending.Some? then 1 else 0) &&
    Rising(w.taken) && Rising(w.cancelled) &&
    (forall id :: id in w.taken ==> id < |w.accepted| && id !in w.cancelled) &&
    (forall id :: id in w.cancelled ==> id < |w.accepted|) &&
    (w.gate.pending.Some? ==> Current(w) !in w.taken && Current(w) !in w.cancelled) &&
    (forall id: nat :: id < |w.accepted| ==>
      id in w.taken || id in w.cancelled || (w.gate.pending.Some? && id == Current(w)))
  }

  /** A call is taken only after the window armed it. */
  ghost predicate TakenWasArmed(w: World) {
    (forall id :: id in w.taken ==> id in w.armed) &&
    (w.gate.pending.Some? && w.gate.pending.value.armed ==> Current(w) in w.armed) &&
    (w.gate.pending.Some? && !w.gate.pending.value.armed ==> Current(w) !in w.armed) &&
    (forall id :: id in w.armed ==> id < |w.accepted|)
  }

  function OutcomeIds(log: seq<Entry>): seq<nat> {
    if log == [] then [] else
      OutcomeIds(log[..|log| - 1]) + if log[|log| - 1].answer.None? then [] else [log[|log| - 1].id]
  }

  /** The outcomes stored so far belong to the taken calls, one each and in order; the call the main
      loop is handling, and no other, still waits for its outcome. */
  ghost predicate EachStored(w: World) {
    (w.handling <==> w.gate.inflight.Some?) &&
    (w.handling ==> w.taken != []) &&
    w.taken == OutcomeIds(w.log) + (if w.handling then [LatestTaken(w)] else [])
  }

  /** `done` is the end of the log; reports go through it in order, skip cancellations, and come once. */
  ghost predicate InOrder(done: seq<Finished>, log: seq<Entry>, reported: seq<nat>) {
    |done| <= |log| && Rising(reported) &&
    var behind := |log| - |done|;
    (forall k :: 0 <= k < |reported| ==> reported[k] < |log| && log[reported[k]].answer.Some?) &&
    (forall k :: 0 <= k < |done| ==> Matches(done[k], log[behind + k], behind + k, reported)) &&
    (forall k, j :: 0 <= k < |done| && !done[k].recorded && 0 <= j < |reported| ==> reported[j] < behind + k)
  }

  /** A slot of `done` against the log entry at `at`. */
  ghost predicate Matches(f: Finished, e: Entry, at: nat, reported: seq<nat>) {
    f.outcome == e.outcome && (f.recorded <==> e.answer.None? || at in reported)
  }

  ghost predicate ReportsInOrder(w: World) {
    InOrder(w.gate.done, w.log, w.reported)
  }

  /** Entries are dropped only from behind eight newer ones. */
  ghost predicate DroppedBehindEight(w: World) {
    Behind(w) > 0 ==> |w.gate.done| >= 8
  }

  // ---------------------------------------------------------------- what the parties are handed

  /** What was put on `done` is about this tool, and says what the main loop answered: the note up to
      its limit, and the body, or only its size when it is too long. */
  ghost predicate Tells(e: Entry, tool: Tool) {
    e.outcome.name == tool.name && e.outcome.summary == tool.summary &&
    match e.answer
    case None => e.outcome.status == 499 && e.outcome.note == e.outcome.body == "tool-cancelled-notice"
    case Some(a) =>
      e.outcome.status == a.status &&
      (Utf8Len(a.body) <= 262144 ==> e.outcome.body == a.body) &&
      (Utf8Len(a.body) > 262144 ==> e.outcome.body == "HTTP " + Text(a.status) + " · " + Text(Utf8Len(a.body)) + " bytes") &&
      e.outcome.note <= a.note && |e.outcome.note| == if |a.note| > 240 then 240 else |a.note|
  }

  ghost predicate IsPending(p: PendingTool, t: Tool) {
    p.name == t.name && p.summary == t.summary && p.call == t.call
  }

  ghost predicate IsInflight(inflight: Option<(string, string)>, t: Tool) {
    inflight == Some((t.name, t.summary))
  }

  /** The waiting proposal and the call being handled are the accepted ones, in every part. */
  ghost predicate Waiting(w: World) {
    (w.gate.pending.Some? ==> w.accepted != [] && IsPending(w.gate.pending.value, w.accepted[Current(w)])) &&
    (w.handling ==> LatestTaken(w) < |w.accepted| && IsInflight(w.gate.inflight, w.accepted[LatestTaken(w)]))
  }

  /** Views, taken calls and cancelled names are those of the proposals with their numbers. */
  ghost predicate HandedOver(w: World) {
    |w.views| == |w.accepted| && |w.calls| == |w.taken| && |w.dropped| == |w.cancelled| &&
    (forall k :: 0 <= k < |w.views| ==> w.views[k] == View(w.accepted[k].name, w.accepted[k].summary)) &&
    (forall k :: 0 <= k < |w.calls| ==> w.taken[k] < |w.accepted| && w.calls[k] == w.accepted[w.taken[k]].call) &&
    (forall k :: 0 <= k < |w.dropped| ==>
      w.cancelled[k] < |w.accepted| && w.dropped[k] == w.accepted[w.cancelled[k]].name)
  }

  predicate IsReportOf(t: ToolOutcome, o: Outcome) {
    t.name == o.name && t.summary == o.summary && t.status == o.status && t.note == o.note
  }

  /** Each outcome tells of its own proposal, and each report hands over the outcome it reports. */
  ghost predicate Truthful(w: World) {
    (forall k :: 0 <= k < |w.log| ==> w.log[k].id < |w.accepted| && Tells(w.log[k], w.accepted[w.log[k].id])) &&
    |w.told| == |w.reported| &&
    (forall k :: 0 <= k < |w.told| ==> w.reported[k] < |w.log| && IsReportOf(w.told[k], w.log[w.reported[k]].outcome))
  }

  ghost predicate Counted(w: World) {
    EachOnce(w) && TakenWasArmed(w) && EachStored(w) && ReportsInOrder(w) && DroppedBehindEight(w)
  }

  ghost predicate Handed(w: World) {
    Waiting(w) && HandedOver(w) && Truthful(w)
  }

  ghost predicate Sound(w: World) {
    Counted(w) && Handed(w)
  }

  lemma {:induction false} OneMoreEntry(log: seq<Entry>, e: Entry)
    ensures OutcomeIds(log + [e]) == OutcomeIds(log) + if e.answer.None? then [] else [e.id]
  {
    assert (log + [e])[..|log|] == log;
  }

  lemma {:induction false} PushInOrder(done: seq<Finished>, log: seq<Entry>, reported: seq<nat>, e: Entry)
    requires InOrder(done, log, reported)
    ensures InOrder(done + [Finished(e.outcome, e.answer.None?)], log + [e], reported)
  {
    var done', log' := done + [Finished(e.outcome, e.answer.None?)], log + [e];
    var behind := |log| - |done|;
    forall k | 0 <= k < |done'| ensures Matches(done'[k], log'[behind + k], behind + k, reported) {
      if k < |done| { assert Matches(done[k], log[behind + k], behind + k, reported); }
    }
  }

  lemma {:induction false} DropInOrder(done: seq<Finished>, log: seq<Entry>, reported: seq<nat>, n: nat)
    requires InOrder(done, log, reported) && n <= |done|
    ensures InOrder(done[n..], log, reported)
  {
    var behind := |log| - |done|;
    forall k | 0 <= k < |done| - n ensures Matches(done[n..][k], log[behind + n + k], behind + n + k, reported) {
      assert Matches(done[n + k], log[behind + (n + k)], behind + (n + k), reported);
    }
  }

  lemma {:induction false} MarkInOrder(done: seq<Finished>, log: seq<Entry>, reported: seq<nat>, i: nat)
    requires InOrder(done, log, reported) && i < |done| && i == FirstUnreported(done)
    ensures |done| <= |log|
    ensures InOrder(done[i := done[i].(recorded := true)], log, reported + [|log| - |done| + i])
  {
    var behind := |log| - |done|;
    var done', reported' := done[i := done[i].(recorded := true)], reported + [behind + i];
    assert Matches(done[i], log[behind + i], behind + i, reported);
    forall k | 0 <= k < |done'| ensures Matches(done'[k], log[behind + k], behind + k, reported') {
      assert Matches(done[k], log[behind + k], behind + k, reported);
      assert behind + k in reported' <==> behind + k in reported || k == i;
    }
  }

  lemma {:induction false} ProposeCounted(w: World, step: Option<Tool>, tool: Option<Tool>)
    requires Counted(w) && (step.Some? ==> tool == step)
    ensures Counted(Proposed(w, Propose(w.gate, step), tool))
  {
    hide OutcomeIds, InOrder;
  }

  lemma {:induction false} ArmCounted(w: World)
    requires Counted(w)
    ensures Counted(Perform(w, WindowArm))
  {
    hide OutcomeIds, InOrder;
  }

  lemma {:induction false} RisingPush(s: seq<nat>, x: nat)
    requires Rising(s) && forall y :: y in s ==> y < x
    ensures Rising(s + [x]) && forall y :: y in s + [x] <==> y in s || y == x
  {
    assert forall i :: 0 <= i < |s| ==> s[i] in s;
  }

  /** The pending number is above every number that is already settled. */
  lemma {:induction false} CurrentIsNewest(w: World)
    requires EachOnce(w) && w.gate.pending.Some?
    ensures forall id :: id in w.taken || id in w.cancelled ==> id < Current(w)
  {}

  lemma {:induction false} CancelCounted(w: World)
    requires Counted(w)
    ensures Counted(Perform(w, WindowCancel))
  {
    hide OutcomeIds, InOrder, Rising;
    if w.gate.pending.Some? {
      var e := Entry(Current(w), None, CancelOutcome(w.gate.pending.value));
      PushInOrder(w.gate.done, w.log, w.reported, e);
      OneMoreEntry(w.log, e);
      assert OutcomeIds(w.log) + [] == OutcomeIds(w.log);
      CurrentIsNewest(w);
      RisingPush(w.cancelled, Current(w));
    }
  }

  lemma {:induction false} TakeCounted(w: World, answer: Answer)
    requires Counted(w) && !w.handling
    ensures Counted(Perform(w, MainLoop(answer)))
  {
    hide OutcomeIds, InOrder, Rising;
    if w.gate.pending.Some? {
      assert OutcomeIds(w.log) + [] == OutcomeIds(w.log);
      CurrentIsNewest(w);
      RisingPush(w.taken, Current(w));
    }
  }

  lemma {:induction false} StoreCounted(w: World, answer: Answer)
    requires Counted(w) && w.handling
    ensures Counted(Perform(w, MainLoop(answer)))
  {
    hide OutcomeIds, StoredOutcome, InOrder, Rising;
    var e := Entry(LatestTaken(w), Some(answer), StoredOutcome(w.gate, answer));
    OneMoreEntry(w.log, e);
    assert OutcomeIds(w.log + [e]) + [] == OutcomeIds(w.log + [e]);
    var all := w.gate.done + [Finished(e.outcome, false)];
    PushInOrder(w.gate.done, w.log, w.reported, e);
    if |all| > DONE_LIMIT { DropInOrder(all, w.log + [e], w.reported, |all| - DONE_LIMIT); }
  }

  lemma {:induction false} ReportCounted(w: World)
    requires Counted(w)
    ensures Counted(Perform(w, WindowReport))
  {
    hide OutcomeIds, InOrder, Rising;
    var i := FirstUnreported(w.gate.done);
    if i < |w.gate.done| { MarkInOrder(w.gate.done, w.log, w.reported, i); }
  }

  // ---------------------------------------------------------------- each step hands over the right thing

  lemma {:induction false} ProposeHanded(w: World, step: Option<Tool>, tool: Option<Tool>)
    requires Counted(w) && Handed(w) && (step.Some? ==> tool == step)
    ensures Handed(Proposed(w, Propose(w.gate, step), tool))
  {
    hide OutcomeIds, InOrder, Rising, Tells;
  }

  lemma {:induction false} ArmHanded(w: World)
    requires Handed(w)
    ensures Handed(Perform(w, WindowArm))
  {
    hide Tells;
  }

  lemma {:induction false} CancelHanded(w: World)
    requires Counted(w) && Handed(w)
    ensures Handed(Perform(w, WindowCancel))
  {
    hide OutcomeIds, InOrder, Rising;
  }

  lemma {:induction false} TakeHanded(w: World, answer: Answer)
    requires Counted(w) && Handed(w) && !w.handling
    ensures Handed(Perform(w, MainLoop(answer)))
  {
    hide OutcomeIds, InOrder, Rising, Tells;
  }

  lemma {:induction false} StoreHanded(w: World, answer: Answer)
    requires Counted(w) && Handed(w) && w.handling
    ensures Handed(Perform(w, MainLoop(answer)))
  {
    hide OutcomeIds, InOrder, Rising, Text, Utf8Len;
  }

  lemma {:induction false} ReportHanded(w: World)
    requires Counted(w) && Handed(w)
    ensures Handed(Perform(w, WindowReport))
  {
    hide OutcomeIds, InOrder, Rising, Tells;
    if FirstUnreported(w.gate.done) < |w.gate.done| { IsLogged(w, FirstUnreported(w.gate.done)); }
  }

  lemma IsLogged(w: World, i: nat)
    requires ReportsInOrder(w) && i < |w.gate.done|
    ensures Behind(w) + i < |w.log| && w.gate.done[i].outcome == w.log[Behind(w) + i].outcome
  {
    assert Matches(w.gate.done[i], w.log[Behind(w) + i], Behind(w) + i, w.reported);
  }

  lemma {:induction false} PerformSound(w: World, op: Op)
    requires Sound(w)
    ensures Sound(Perform(w, op))
  {
    hide Counted, Handed;
    match op {
      case HttpPropose(tool) =>
        ProposeCounted(w, tool, tool);
        ProposeHanded(w, tool, tool);
      case HttpProposeCall(tool) =>
        ProposeCounted(w, Nameable(tool), Some(tool));
        ProposeHanded(w, Nameable(tool), Some(tool));
      case WindowArm =>
        ArmCounted(w);
        ArmHanded(w);
      case WindowCancel =>
        CancelCounted(w);
        CancelHanded(w);
      case WindowReport =>
        ReportCounted(w);
        ReportHanded(w);
      case MainLoop(answer) =>
        if w.handling {
          StoreCounted(w, answer);
          StoreHanded(w, answer);
        } else {
          TakeCounted(w, answer);
          TakeHanded(w, answer);
        }
    }
  }

  /** All of it holds after any interleaving of the three parties. */
  lemma {:induction false} RunIsSound(ops: seq<Op>)
    ensures Sound(Run(ops))
  {
    if ops != [] {
      RunIsSound(ops[..|ops| - 1]);
      hide Sound;
      PerformSound(Run(ops[..|ops| - 1]), ops[|ops| - 1]);
    }
  }

  /** Every outcome ever stored was handed to the window, or still waits on `done`, or was dropped with
      at least eight newer entries behind it. */
  lemma {:induction false} NoOutcomeIsLost(ops: seq<Op>, at: nat)
    requires at < |Run(ops).log| && Run(ops).log[at].answer.Some?
    ensures var w := Run(ops);
      WasTold(w, at) ||
      (Behind(w) <= at && !w.gate.done[at - Behind(w)].recorded) ||
      (at < Behind(w) && |w.log| - at - 1 >= 8)
  {
    hide Run, OutcomeIds, EachOnce, TakenWasArmed, EachStored, Waiting, HandedOver, Tells;
    RunIsSound(ops);
    var w := Run(ops);
    if Behind(w) <= at {
      var k := at - Behind(w);
      assert Matches(w.gate.done[k], w.log[Behind(w) + k], Behind(w) + k, w.reported);
    }
  }

  /** Some report was this outcome. */
  ghost predicate WasTold(w: World, at: nat)
    requires at < |w.log|
  {
    exists k :: 0 <= k < |w.reported| && k < |w.told| && w.reported[k] == at && IsReportOf(w.told[k], w.log[at].outcome)
  }

  // ---------------------------------------------------------------- who is refused

  /** A proposal is refused when it is no tool, and otherwise exactly while an earlier one is neither
      taken nor cancelled; a refusal leaves everything as it was. */
  lemma {:induction false} ProposalAnswer(ops: seq<Op>, tool: Option<Tool>)
    ensures var w := Run(ops);
      var (g, r) := Propose(w.gate, tool);
      (r == Err(NotATool) <==> tool.None?) &&
      (r == Err(AlreadyPending) <==> tool.Some? && |w.accepted| > |w.taken| + |w.cancelled|) &&
      (r.Err? ==> g == w.gate)
  {
    hide Run, OutcomeIds, InOrder, TakenWasArmed, EachStored, Waiting, HandedOver, Truthful;
    RunIsSound(ops);
  }

  /** A call from outside the table is no tool under no name, or under the name of the confirm intent. */
  lemma NamelessIsNoTool(g: State, tool: Tool)
    ensures Propose(g, Nameable(tool)).1 == Err(NotATool) <==> tool.name in {"", "confirm_intent"}
    ensures tool.name !in {"", "confirm_intent"} ==> Nameable(tool) == Some(tool)
  {}
}
