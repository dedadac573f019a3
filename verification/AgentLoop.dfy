/** The multi-step shell agent: plan, stop for confirm, act, answer, plan again. */
module AgentLoop {
  import opened Common

  const MAX_ROUNDS: nat := 8
  const MAX_STEPS: nat := 12
  const U8_MAX: nat := 255
  const DRIVE_LIMIT: nat := 32

  // ---------------------------------------------------------------- data

  /** A call the planner asked for; `arguments` is its JSON text. */
  datatype Call = Call(id: string, name: string, arguments: string)
  datatype Message = User(content: string) | Assistant(calls: seq<Call>) | ToolResult(id: string, content: string)
  datatype Step = Calls(calls: seq<Call>) | Final(text: string)

  datatype App = Desktop | Files | Terminal | Settings | Agent | Browser | Editor
  datatype View = View(app: App, night: bool, terminalLine: string, terminalOutput: string)
  datatype Effect = Navigate(app: App) | SetNight(night: bool) | SetLine(text: string) | SetOutput(text: string)

  datatype Tool = Tool(name: string, capability: string)
  datatype Pending = Pending(id: string, tool: Tool)
  datatype Receipt = Receipt(tool: string, decision: Decision, confirmed: bool, outcome: string)

  datatype Kind =
    | Plan(messages: seq<Message>)
    | AwaitConfirm
    | Finished(text: string)
    | Failed(reason: string)
    | CancelledRun
  {
    predicate Terminal() {
      Finished? || Failed? || CancelledRun?
    }
  }

  datatype Drive = Drive(kind: Kind, effects: seq<Effect>, receipts: seq<Receipt>)

  /** What the loop asks of the rest of the shell; any functions will do. */
  datatype Shell = Shell(
    prepare: (Call, View) -> Result<Tool, string>,
    perform: (Tool, View) -> Result<(string, seq<Effect>), string>,
    reportsFailure: string -> bool,
    handsWorkBack: string -> bool
  )

  datatype State = State(
    messages: seq<Message>,
    queue: seq<Call>,
    pending: Option<Pending>,
    rounds: nat,
    acted: nat
  )

  datatype Turn = Turn(state: State, drive: Drive)
  datatype Acted = Acted(turn: Turn, view: View)

  // ---------------------------------------------------------------- the loop as functions

  function ApplyEffects(view: View, effects: seq<Effect>): View
    decreases effects
  {
    if effects == [] then view else
      var v := match effects[0]
        case Navigate(app) => view.(app := app)
        case SetNight(night) => view.(night := night)
        case SetLine(text) => view.(terminalLine := text)
        case SetOutput(text) => view.(terminalOutput := text);
      ApplyEffects(v, effects[1..])
  }

  function Truncate(text: string): string {
    if |text| > 800 then text[..800] + ['\U{2026}'] else text
  }

  function Start(utterance: string): Turn {
    var messages := [User(utterance)];
    Turn(State(messages, [], None, 0, 0), Drive(Plan(messages), [], []))
  }

  function Fail(s: State, reason: string): Turn {
    Turn(s.(queue := [], pending := None), Drive(Failed(reason), [], []))
  }

  function Answer(s: State, id: string, content: string): State {
    s.(messages := s.messages + [ToolResult(id, content)])
  }

  function NotChanged(why: string): string {
    "Denied: " + why + ". Nothing was changed."
  }

  /** Take calls off the queue until one stops for confirm, or the planner is asked again. */
  function Drain(shell: Shell, s: State, view: View, receipts: seq<Receipt>): Turn
    decreases |s.queue|
  {
    if s.queue == [] then
      Turn(s, Drive(Plan(s.messages), [], receipts))
    else
      var call, s1 := s.queue[0], s.(queue := s.queue[1..]);
      if s1.acted >= MAX_STEPS then
        Fail(s1, "stopped: step limit")
      else
        var s2 := s1.(acted := s1.acted + 1);
        match shell.prepare(call, view)
        case Err(err) =>
          var outcome := "tool error: " + err;
          Drain(shell, Answer(s2, call.id, outcome), view,
                receipts + [Receipt(call.name, Denied, false, Truncate(outcome))])
        case Ok(tool) =>
          Turn(s2.(pending := Some(Pending(call.id, tool))), Drive(AwaitConfirm, [], receipts))
  }

  /** The latest tool result, when there is one, says that the tool failed. */
  function LastToolFailed(shell: Shell, messages: seq<Message>): bool {
    messages != [] &&
    match messages[|messages| - 1]
    case ToolResult(_, content) => shell.reportsFailure(content)
    case _ => LastToolFailed(shell, messages[..|messages| - 1])
  }

  const NUDGE := "The request is not done. Call the next tool yourself. Do not tell the user to click or type. If the last tool failed, use the exact command from its result."

  function OnCompletion(shell: Shell, s: State, view: View, step: Step): Turn {
    var s1 := s.(rounds := if s.rounds < U8_MAX then s.rounds + 1 else U8_MAX);
    if s1.rounds > MAX_ROUNDS then
      Fail(s1, "stopped: planner round limit")
    else match step
      case Final(text) =>
        if s1.rounds < MAX_ROUNDS && (LastToolFailed(shell, s1.messages) || shell.handsWorkBack(text)) then
          var s2 := s1.(messages := s1.messages + [User(NUDGE)]);
          Turn(s2, Drive(Plan(s2.messages), [], []))
        else
          Turn(s1, Drive(Finished(text), [], []))
      case Calls(calls) =>
        if calls == [] then
          Fail(s1, "planner returned an empty tool list")
        else
          Drain(shell, s1.(messages := s1.messages + [Assistant(calls)], queue := s1.queue + calls), view, [])
  }

  function Confirm(shell: Shell, s: State, view: View, gate: string -> bool): Acted {
    if s.pending.None? then
      Acted(Fail(s, "nothing is waiting for confirm"), view)
    else
      var p, s1 := s.pending.value, s.(pending := None);
      if p.tool.capability != "" && !gate(p.tool.capability) then
        var outcome := NotChanged(p.tool.capability + " is not granted");
        Acted(Turn(Answer(s1, p.id, outcome).(queue := []),
                   Drive(Failed(outcome), [], [Receipt(p.tool.name, Denied, true, Truncate(outcome))])), view)
      else match shell.perform(p.tool, view)
        case Ok((body, effects)) =>
          var view' := ApplyEffects(view, effects);
          var t := Drain(shell, Answer(s1, p.id, Truncate(body)), view', []);
          var receipt := Receipt(p.tool.name, Allowed, true, Truncate(body));
          Acted(t.(drive := Drive(t.drive.kind, effects + t.drive.effects, [receipt] + t.drive.receipts)), view')
        case Err(err) =>
          var outcome := NotChanged(err);
          var t := Drain(shell, Answer(s1, p.id, outcome), view, []);
          var receipt := Receipt(p.tool.name, Denied, true, Truncate(outcome));
          Acted(t.(drive := Drive(t.drive.kind, t.drive.effects, [receipt] + t.drive.receipts)), view)
  }

  function Reject(s: State, reason: string): Turn {
    if s.pending.None? then Fail(s, reason) else
      var p, outcome := s.pending.value, NotChanged(reason);
      Turn(Answer(s, p.id, outcome).(pending := None, queue := []),
           Drive(Failed(outcome), [], [Receipt(p.tool.name, Denied, true, Truncate(outcome))]))
  }

  function Cancel(s: State): Turn {
    var outcome := "Cancelled. Nothing was changed.";
    if s.pending.None? then
      Turn(s.(queue := []), Drive(CancelledRun, [], []))
    else
      var p := s.pending.value;
      Turn(Answer(s, p.id, outcome).(pending := None, queue := []),
           Drive(CancelledRun, [], [Receipt(p.tool.name, Cancelled, false, outcome)]))
  }

  // ---------------------------------------------------------------- transcript conservation

  function Ids(calls: seq<Call>): seq<string> {
    seq(|calls|, i requires 0 <= i < |calls| => calls[i].id)
  }

  /** Ids of every call in an assistant message, in order. */
  function Asked(messages: seq<Message>): seq<string> {
    if messages == [] then [] else
      var n := |messages| - 1;
      Asked(messages[..n]) + if messages[n].Assistant? then Ids(messages[n].calls) else []
  }

  /** Ids of every tool message, in order. */
  function Answered(messages: seq<Message>): seq<string> {
    if messages == [] then [] else
      var n := |messages| - 1;
      Answered(messages[..n]) + if messages[n].ToolResult? then [messages[n].id] else []
  }

  function PendingId(pending: Option<Pending>): seq<string> {
    if pending.None? then [] else [pending.value.id]
  }

  /** Answered calls, then the one waiting for confirm, then the queue. */
  function Accounted(s: State): seq<string> {
    Answered(s.messages) + PendingId(s.pending) + Ids(s.queue)
  }

  /** Every call the planner asked for is answered, waiting, or queued: once, and in order. */
  predicate Balanced(s: State) {
    Accounted(s) == Asked(s.messages)
  }

  /** What each kind of drive promises about the state behind it. */
  predicate Conserved(t: Turn) {
    match t.drive.kind
    case Plan(messages) =>
      messages == t.state.messages && t.state.pending.None? && t.state.queue == [] &&
      Answered(messages) == Asked(messages)
    case AwaitConfirm => t.state.pending.Some? && Balanced(t.state)
    case _ => Answered(t.state.messages) <= Asked(t.state.messages)
  }

  lemma OneMoreMessage(messages: seq<Message>, m: Message)
    ensures Asked(messages + [m]) == Asked(messages) + if m.Assistant? then Ids(m.calls) else []
    ensures Answered(messages + [m]) == Answered(messages) + if m.ToolResult? then [m.id] else []
  {
    assert (messages + [m])[..|messages|] == messages;
  }

  lemma AnsweringMovesOn(s: State, id: string, content: string, rest: seq<string>)
    requires Answered(s.messages) + ([id] + rest) == Asked(s.messages)
    ensures Answered(Answer(s, id, content).messages) + rest == Asked(Answer(s, id, content).messages)
  {
    OneMoreMessage(s.messages, ToolResult(id, content));
    assert Answered(s.messages) + [id] + rest == Answered(s.messages) + ([id] + rest);
    assert Asked(s.messages) + [] == Asked(s.messages);
  }

  lemma {:induction false} DrainConserves(shell: Shell, s: State, view: View, receipts: seq<Receipt>)
    requires s.pending.None? && Answered(s.messages) + Ids(s.queue) == Asked(s.messages)
    ensures Conserved(Drain(shell, s, view, receipts))
    decreases |s.queue|
  {
    hide Answered, Asked;
    if s.queue == [] {
      assert Answered(s.messages) + [] == Answered(s.messages);
    } else if s.acted < MAX_STEPS {
      var call, rest := s.queue[0], s.queue[1..];
      var s2 := s.(queue := rest, acted := s.acted + 1);
      assert Ids(s.queue) == [call.id] + Ids(rest);
      match shell.prepare(call, view) {
        case Err(err) =>
          AnsweringMovesOn(s2, call.id, "tool error: " + err, Ids(rest));
          DrainConserves(shell, Answer(s2, call.id, "tool error: " + err), view,
                         receipts + [Receipt(call.name, Denied, false, Truncate("tool error: " + err))]);
        case Ok(tool) =>
          assert Answered(s.messages) + [call.id] + Ids(rest) == Answered(s.messages) + ([call.id] + Ids(rest));
      }
    }
  }

  lemma CompletionConserves(shell: Shell, t: Turn, view: View, step: Step)
    requires t.drive.kind.Plan? && Conserved(t)
    ensures Conserved(OnCompletion(shell, t.state, view, step))
  {
    hide Answered, Asked;
    var s := t.state;
    match step {
      case Final(text) =>
        OneMoreMessage(s.messages, User(NUDGE));
        assert Asked(s.messages) + [] == Asked(s.messages) && Answered(s.messages) + [] == Answered(s.messages);
      case Calls(calls) =>
        OneMoreMessage(s.messages, Assistant(calls));
        assert s.queue + calls == calls && Answered(s.messages) + [] == Answered(s.messages);
        var s1 := s.(rounds := if s.rounds < U8_MAX then s.rounds + 1 else U8_MAX);
        if calls != [] {
          DrainConserves(shell, s1.(messages := s.messages + [Assistant(calls)], queue := calls), view, []);
        }
    }
  }

  lemma AnswerThePending(s: State, content: string)
    requires s.pending.Some? && Balanced(s)
    ensures var r := Answer(s, s.pending.value.id, content);
      Answered(r.messages) + Ids(s.queue) == Asked(r.messages) && Answered(r.messages) <= Asked(r.messages)
  {
    var id := s.pending.value.id;
    assert Answered(s.messages) + [id] + Ids(s.queue) == Answered(s.messages) + ([id] + Ids(s.queue));
    AnsweringMovesOn(s, id, content, Ids(s.queue));
  }

  lemma ConfirmConserves(shell: Shell, t: Turn, view: View, gate: string -> bool)
    requires t.drive.kind.AwaitConfirm? && Conserved(t)
    ensures Conserved(Confirm(shell, t.state, view, gate).turn)
  {
    hide Answered, Asked;
    var s, p := t.state, t.state.pending.value;
    var s1 := s.(pending := None);
    AnswerThePending(s, NotChanged(p.tool.capability + " is not granted"));
    match shell.perform(p.tool, view) {
      case Ok((body, effects)) =>
        AnswerThePending(s, Truncate(body));
        DrainConserves(shell, Answer(s1, p.id, Truncate(body)), ApplyEffects(view, effects), []);
      case Err(err) =>
        AnswerThePending(s, NotChanged(err));
        DrainConserves(shell, Answer(s1, p.id, NotChanged(err)), view, []);
    }
  }

  lemma StoppingConserves(t: Turn, reason: string)
    requires !t.drive.kind.Terminal() && Conserved(t)
    ensures Conserved(Reject(t.state, reason)) && Conserved(Cancel(t.state))
  {
    hide Answered, Asked;
    if t.state.pending.Some? {
      AnswerThePending(t.state, NotChanged(reason));
      AnswerThePending(t.state, "Cancelled. Nothing was changed.");
    }
  }

  // ---------------------------------------------------------------- runs

  /** The shell may answer differently at every call. */
  datatype Op =
    | Complete(shell: Shell, step: Step)
    | ConfirmNow(shell: Shell, gate: string -> bool)
    | RejectNow(reason: string)
    | CancelNow

  datatype World = World(turn: Turn, view: View)

  function Perform(w: World, op: Op): World {
    match op
    case Complete(shell, step) => World(OnCompletion(shell, w.turn.state, w.view, step), w.view)
    case ConfirmNow(shell, gate) =>
      var a := Confirm(shell, w.turn.state, w.view, gate);
      World(a.turn, a.view)
    case RejectNow(reason) => World(Reject(w.turn.state, reason), w.view)
    case CancelNow => World(Cancel(w.turn.state), w.view)
  }

  /** The caller acts on the last drive: a completion answers a plan, a confirm answers the sheet,
      and nothing follows the end of a run. */
  predicate Answers(kind: Kind, op: Op) {
    match op
    case Complete(_, _) => kind.Plan?
    case ConfirmNow(_, _) => kind.AwaitConfirm?
    case _ => !kind.Terminal()
  }

  function Run(w: World, ops: seq<Op>): World {
    if ops == [] then w else Perform(Run(w, ops[..|ops| - 1]), ops[|ops| - 1])
  }

  predicate Obedient(w: World, ops: seq<Op>) {
    ops == [] ||
    (Obedient(w, ops[..|ops| - 1]) &&
     Answers(Run(w, ops[..|ops| - 1]).turn.drive.kind, ops[|ops| - 1]))
  }

  lemma StartConserved(utterance: string)
    ensures Conserved(Start(utterance))
  {
    assert [User(utterance)][..0] == [];
  }

  /** Over every run in which the caller acts on the last drive, no call is lost, repeated or reordered. */
  lemma {:induction false} TranscriptConserved(utterance: string, view: View, ops: seq<Op>)
    requires Obedient(World(Start(utterance), view), ops)
    ensures Conserved(Run(World(Start(utterance), view), ops).turn)
  {
    var w := World(Start(utterance), view);
    if ops == [] {
      StartConserved(utterance);
    } else {
      var n := |ops| - 1;
      TranscriptConserved(utterance, view, ops[..n]);
      var before := Run(w, ops[..n]);
      match ops[n] {
        case Complete(shell, step) => CompletionConserves(shell, before.turn, before.view, step);
        case ConfirmNow(shell, gate) => ConfirmConserves(shell, before.turn, before.view, gate);
        case RejectNow(reason) => StoppingConserves(before.turn, reason);
        case CancelNow => StoppingConserves(before.turn, "");
      }
    }
  }

  // ---------------------------------------------------------------- what a step drops

  /** How many calls in front of the first one that can be prepared. */
  function Refused(shell: Shell, view: View, calls: seq<Call>): (k: nat)
    ensures k <= |calls|
  {
    if calls == [] || shell.prepare(calls[0], view).Ok? then 0 else Refused(shell, view, calls[1..]) + 1
  }

  function Room(acted: nat): nat {
    if acted < MAX_STEPS then MAX_STEPS - acted else 0
  }

  /** Taking calls off the queue drops nothing when all are refused within the step limit. At the limit
      it drops what is left and what waits; a call that stops for confirm takes the place of what waits. */
  function DrainDrops(shell: Shell, view: View, waiting: seq<string>, calls: seq<Call>, acted: nat): seq<string> {
    var k, room := Refused(shell, view, calls), Room(acted);
    if k == |calls| && k <= room then []
    else if room <= k then waiting + Ids(calls[room..])
    else waiting
  }

  predicate Granted(tool: Tool, gate: string -> bool) {
    tool.capability == "" || gate(tool.capability)
  }

  /** The ids a step leaves neither answered nor waiting nor queued, from the state before it. */
  function Drops(w: World, op: Op): seq<string> {
    var s := w.turn.state;
    match op
    case Complete(shell, step) =>
      if s.rounds >= MAX_ROUNDS || step == Calls([]) then PendingId(s.pending) + Ids(s.queue)
      else if step.Final? then []
      else DrainDrops(shell, w.view, PendingId(s.pending), s.queue + step.calls, s.acted)
    case ConfirmNow(shell, gate) =>
      if s.pending.None? || !Granted(s.pending.value.tool, gate) then Ids(s.queue)
      else
        var done := shell.perform(s.pending.value.tool, w.view);
        DrainDrops(shell, if done.Ok? then ApplyEffects(w.view, done.value.1) else w.view, [], s.queue, s.acted)
    case _ => Ids(s.queue)
  }

  // ---------------------------------------------------------------- the exact account, in any order of calls

  /** What is answered, waiting or queued, together with what was lost, is what was asked for. */
  ghost predicate Accounts(s: State, lost: multiset<string>) {
    multiset(Asked(s.messages)) == multiset(Accounted(s)) + lost
  }

  lemma AccountedParts(s: State)
    ensures multiset(Accounted(s)) == multiset(Answered(s.messages)) + multiset(PendingId(s.pending)) + multiset(Ids(s.queue))
  {}

  /** Taking the first call off the queue to answer it, or to wait for it in place of what waits. */
  lemma TakeAccounts(s: State, acted: nat, content: string, tool: Tool, lost: multiset<string>)
    requires Accounts(s, lost) && s.queue != []
    ensures var id, s2 := s.queue[0].id, s.(queue := s.queue[1..], acted := acted);
      Accounts(Answer(s2, id, content), lost) &&
      Accounts(s2.(pending := Some(Pending(id, tool))), lost + multiset(PendingId(s.pending)))
  {
    hide Accounted, Answered, Asked;
    var id, rest := s.queue[0].id, s.queue[1..];
    var s2 := s.(queue := rest, acted := acted);
    assert Ids(s.queue) == [id] + Ids(rest);
    OneMoreMessage(s.messages, ToolResult(id, content));
    assert Asked(s.messages) + [] == Asked(s.messages);
    AccountedParts(s);
    AccountedParts(Answer(s2, id, content));
    AccountedParts(s2.(pending := Some(Pending(id, tool))));
  }

  /** Giving up the queue, and what waits. */
  lemma GiveUpAccounts(s: State, lost: multiset<string>)
    requires Accounts(s, lost)
    ensures Accounts(s.(queue := []), lost + multiset(Ids(s.queue)))
    ensures Accounts(s.(queue := [], pending := None), lost + multiset(PendingId(s.pending) + Ids(s.queue)))
  {
    hide Accounted, Answered, Asked;
    AccountedParts(s);
    AccountedParts(s.(queue := []));
    AccountedParts(s.(queue := [], pending := None));
  }

  /** The drops of one turn of the loop, by what becomes of the first call. */
  lemma DropsByTurn(shell: Shell, view: View, waiting: seq<string>, calls: seq<Call>, acted: nat)
    ensures DrainDrops(shell, view, waiting, calls, acted) ==
      if calls == [] then []
      else if acted >= MAX_STEPS then waiting + Ids(calls)
      else if shell.prepare(calls[0], view).Ok? then waiting
      else DrainDrops(shell, view, waiting, calls[1..], acted + 1)
  {
    var room := Room(acted);
    assert calls[0..] == calls;
    assert 0 < room <= |calls| ==> calls[room..] == calls[1..][room - 1..];
  }

  lemma NothingMore(lost: multiset<string>)
    ensures lost + multiset([]) == lost
  {}

  lemma {:induction false} DrainAccounts(shell: Shell, s: State, view: View, receipts: seq<Receipt>, lost: multiset<string>)
    requires Accounts(s, lost)
    ensures Accounts(Drain(shell, s, view, receipts).state,
                     lost + multiset(DrainDrops(shell, view, PendingId(s.pending), s.queue, s.acted)))
    decreases |s.queue|
  {
    hide Accounts, DrainDrops, PendingId, Ids;
    DropsByTurn(shell, view, PendingId(s.pending), s.queue, s.acted);
    NothingMore(lost);
    if s.queue != [] {
      var call, rest := s.queue[0], s.queue[1..];
      if s.acted >= MAX_STEPS {
        GiveUpAccounts(s, lost);
      } else {
        var s2 := s.(queue := rest, acted := s.acted + 1);
        match shell.prepare(call, view) {
          case Err(err) =>
            var outcome := "tool error: " + err;
            TakeAccounts(s, s.acted + 1, outcome, Tool("", ""), lost);
            DrainAccounts(shell, Answer(s2, call.id, outcome), view,
                          receipts + [Receipt(call.name, Denied, false, Truncate(outcome))], lost);
          case Ok(tool) =>
            TakeAccounts(s, s.acted + 1, "", tool, lost);
        }
      }
    }
  }

  /** Answering what waits, and giving up the queue behind it. */
  lemma SettleAccounts(s: State, content: string, lost: multiset<string>)
    requires s.pending.Some? && Accounts(s, lost)
    ensures var r := Answer(s, s.pending.value.id, content).(pending := None);
      Accounts(r, lost) && Accounts(r.(queue := []), lost + multiset(Ids(s.queue)))
  {
    hide Accounted, Answered, Asked;
    var r := Answer(s, s.pending.value.id, content).(pending := None);
    OneMoreMessage(s.messages, ToolResult(s.pending.value.id, content));
    assert Asked(s.messages) + [] == Asked(s.messages);
    AccountedParts(s);
    AccountedParts(r);
    AccountedParts(r.(queue := []));
  }

  lemma RoundsDoNotCount(s: State, rounds: nat, lost: multiset<string>)
    requires Accounts(s, lost)
    ensures Accounts(s.(rounds := rounds), lost)
  {}

  lemma EnqueueAccounts(s: State, calls: seq<Call>, lost: multiset<string>)
    requires Accounts(s, lost)
    ensures Accounts(s.(messages := s.messages + [Assistant(calls)], queue := s.queue + calls), lost)
  {
    hide Accounted, Answered, Asked;
    var s2 := s.(messages := s.messages + [Assistant(calls)], queue := s.queue + calls);
    OneMoreMessage(s.messages, Assistant(calls));
    assert Ids(s2.queue) == Ids(s.queue) + Ids(calls);
    assert Answered(s.messages) + [] == Answered(s.messages);
    AccountedParts(s);
    AccountedParts(s2);
  }

  lemma NudgeAccounts(s: State, lost: multiset<string>)
    requires Accounts(s, lost)
    ensures Accounts(s.(messages := s.messages + [User(NUDGE)]), lost)
  {
    OneMoreMessage(s.messages, User(NUDGE));
    assert Asked(s.messages) + [] == Asked(s.messages) && Answered(s.messages) + [] == Answered(s.messages);
  }

  lemma CompletionAccounts(w: World, shell: Shell, step: Step, lost: multiset<string>)
    requires Accounts(w.turn.state, lost)
    ensures var op := Complete(shell, step);
      Accounts(Perform(w, op).turn.state, lost + multiset(Drops(w, op)))
  {
    hide Accounts, LastToolFailed, DrainDrops, PendingId, Ids;
    NothingMore(lost);
    var s := w.turn.state;
    var s1 := s.(rounds := if s.rounds < U8_MAX then s.rounds + 1 else U8_MAX);
    RoundsDoNotCount(s, s1.rounds, lost);
    GiveUpAccounts(s1, lost);
    match step {
      case Final(text) =>
        NudgeAccounts(s1, lost);
      case Calls(calls) =>
        EnqueueAccounts(s1, calls, lost);
        DrainAccounts(shell, s1.(messages := s1.messages + [Assistant(calls)], queue := s1.queue + calls), w.view, [], lost);
    }
  }

  lemma ConfirmAccounts(w: World, shell: Shell, gate: string -> bool, lost: multiset<string>)
    requires Accounts(w.turn.state, lost)
    ensures var op := ConfirmNow(shell, gate);
      Accounts(Perform(w, op).turn.state, lost + multiset(Drops(w, op)))
  {
    hide Accounts, DrainDrops, Ids;
    var s := w.turn.state;
    GiveUpAccounts(s, lost);
    if s.pending.Some? {
      var p := s.pending.value;
      SettleAccounts(s, NotChanged(p.tool.capability + " is not granted"), lost);
      match shell.perform(p.tool, w.view) {
        case Ok((body, effects)) =>
          SettleAccounts(s, Truncate(body), lost);
          DrainAccounts(shell, Answer(s.(pending := None), p.id, Truncate(body)), ApplyEffects(w.view, effects), [], lost);
        case Err(err) =>
          SettleAccounts(s, NotChanged(err), lost);
          DrainAccounts(shell, Answer(s.(pending := None), p.id, NotChanged(err)), w.view, [], lost);
      }
    }
  }

  /** Each step loses exactly what it drops. */
  lemma StepAccounts(w: World, op: Op, lost: multiset<string>)
    requires Accounts(w.turn.state, lost)
    ensures Accounts(Perform(w, op).turn.state, lost + multiset(Drops(w, op)))
  {
    var s := w.turn.state;
    match op {
      case Complete(shell, step) => CompletionAccounts(w, shell, step, lost);
      case ConfirmNow(shell, gate) => ConfirmAccounts(w, shell, gate, lost);
      case RejectNow(reason) =>
        hide Accounts;
        GiveUpAccounts(s, lost);
        if s.pending.Some? { SettleAccounts(s, NotChanged(reason), lost); }
      case CancelNow =>
        hide Accounts;
        GiveUpAccounts(s, lost);
        if s.pending.Some? { SettleAccounts(s, "Cancelled. Nothing was changed.", lost); }
    }
  }

  /** All that the steps of a run drop. */
  function Dropped(w: World, ops: seq<Op>): multiset<string> {
    if ops == [] then multiset{} else
      Dropped(w, ops[..|ops| - 1]) + multiset(Drops(Run(w, ops[..|ops| - 1]), ops[|ops| - 1]))
  }

  lemma {:induction false} RunAccounts(w: World, ops: seq<Op>, lost: multiset<string>)
    requires Accounts(w.turn.state, lost)
    ensures Accounts(Run(w, ops).turn.state, lost + Dropped(w, ops))
  {
    hide Accounts, Drops;
    if ops == [] {
      assert lost + multiset{} == lost;
    } else {
      var before, op := Run(w, ops[..|ops| - 1]), ops[|ops| - 1];
      var sofar := Dropped(w, ops[..|ops| - 1]);
      RunAccounts(w, ops[..|ops| - 1], lost);
      StepAccounts(before, op, lost + sofar);
      assert lost + (sofar + multiset(Drops(before, op))) == lost + sofar + multiset(Drops(before, op));
    }
  }

  /** In any run, whatever the caller does: the calls asked for are those answered, waiting or queued,
      and those that a step dropped. */
  lemma EveryCallIsAccounted(utterance: string, view: View, ops: seq<Op>)
    ensures var w := World(Start(utterance), view);
      var s := Run(w, ops).turn.state;
      multiset(Asked(s.messages)) == multiset(Accounted(s)) + Dropped(w, ops)
  {
    var w := World(Start(utterance), view);
    StartConserved(utterance);
    assert Accounts(w.turn.state, multiset{});
    RunAccounts(w, ops, multiset{});
  }

  /** No step of the run drops a call. */
  ghost predicate DropsNothing(w: World, ops: seq<Op>) {
    forall n :: 0 <= n < |ops| ==> Drops(Run(w, ops[..n]), ops[n]) == []
  }

  lemma {:induction false} DroppedNothing(w: World, ops: seq<Op>)
    ensures Dropped(w, ops) == multiset{} <==> DropsNothing(w, ops)
  {
    hide Run, Drops;
    if ops != [] {
      var n := |ops| - 1;
      DroppedNothing(w, ops[..n]);
      assert forall k :: 0 <= k <= n ==> ops[..n][..k] == ops[..k];
      assert |Dropped(w, ops)| == |Dropped(w, ops[..n])| + |Drops(Run(w, ops[..n]), ops[n])|;
      assert DropsNothing(w, ops) <==> DropsNothing(w, ops[..n]) && Drops(Run(w, ops[..n]), ops[n]) == [];
    }
  }

  /** Every call is answered, waiting or queued, each once, exactly when no step dropped one. */
  lemma CallsAreKeptIff(utterance: string, view: View, ops: seq<Op>)
    ensures var w := World(Start(utterance), view);
      var s := Run(w, ops).turn.state;
      multiset(Accounted(s)) == multiset(Asked(s.messages)) <==> DropsNothing(w, ops)
  {
    hide Run, Dropped, DropsNothing, Accounted, Asked;
    var w := World(Start(utterance), view);
    var s := Run(w, ops).turn.state;
    EveryCallIsAccounted(utterance, view, ops);
    DroppedNothing(w, ops);
    assert |multiset(Asked(s.messages))| == |multiset(Accounted(s))| + |Dropped(w, ops)|;
  }

  // ---------------------------------------------------------------- the order, in any order of calls

  /** A call with another id is answered before the one that waits: a completion arrives while a call
      waits for confirm, and such a call stands among those that are refused within the step limit. */
  predicate Overtakes(w: World, op: Op) {
    var s := w.turn.state;
    op.Complete? && s.pending.Some? && s.rounds < MAX_ROUNDS && op.step.Calls? && op.step.calls != [] &&
    var q := s.queue + op.step.calls;
    exists k :: 0 <= k < |q| && IsRefused(op.shell, w.view, q, s.acted, k) && q[k].id != s.pending.value.id
  }

  /** Call `k` of the queue is reached within the step limit and refused. */
  predicate IsRefused(shell: Shell, view: View, calls: seq<Call>, acted: nat, k: nat) {
    k < Refused(shell, view, calls) && k < Room(acted)
  }

  lemma {:induction false} DrainInOrder(shell: Shell, s: State, view: View, receipts: seq<Receipt>)
    requires s.pending.None? && Balanced(s) && DrainDrops(shell, view, [], s.queue, s.acted) == []
    ensures Balanced(Drain(shell, s, view, receipts).state)
    decreases |s.queue|
  {
    hide Answered, Asked, DrainDrops;
    DropsByTurn(shell, view, [], s.queue, s.acted);
    if s.queue != [] {
      var call, rest := s.queue[0], s.queue[1..];
      var s2 := s.(queue := rest, acted := s.acted + 1);
      assert Ids(s.queue) == [call.id] + Ids(rest);
      assert Answered(s.messages) + [] + Ids(s.queue) == Answered(s.messages) + ([call.id] + Ids(rest));
      if s.acted < MAX_STEPS {
        match shell.prepare(call, view) {
          case Err(err) =>
            var outcome := "tool error: " + err;
            AnsweringMovesOn(s2, call.id, outcome, Ids(rest));
            var r := Answer(s2, call.id, outcome);
            assert Answered(r.messages) + [] + Ids(rest) == Answered(r.messages) + Ids(rest);
            DrainInOrder(shell, r, view, receipts + [Receipt(call.name, Denied, false, Truncate(outcome))]);
          case Ok(tool) =>
            assert Answered(s.messages) + [call.id] + Ids(rest) == Answered(s.messages) + ([call.id] + Ids(rest));
        }
      }
    }
  }

  lemma EnqueueInOrder(s: State, calls: seq<Call>)
    requires Balanced(s)
    ensures Balanced(s.(messages := s.messages + [Assistant(calls)], queue := s.queue + calls))
  {
    hide Answered, Asked;
    OneMoreMessage(s.messages, Assistant(calls));
    assert Ids(s.queue + calls) == Ids(s.queue) + Ids(calls);
    assert Answered(s.messages) + [] == Answered(s.messages);
  }

  lemma NudgeInOrder(s: State)
    requires Balanced(s)
    ensures Balanced(s.(messages := s.messages + [User(NUDGE)]))
  {
    OneMoreMessage(s.messages, User(NUDGE));
    assert Asked(s.messages) + [] == Asked(s.messages) && Answered(s.messages) + [] == Answered(s.messages);
  }

  lemma SettleInOrder(s: State, content: string)
    requires s.pending.Some? && Balanced(s)
    ensures Balanced(Answer(s, s.pending.value.id, content).(pending := None))
  {
    hide Answered, Asked;
    AnswerThePending(s, content);
    var r := Answer(s, s.pending.value.id, content);
    assert Answered(r.messages) + [] + Ids(s.queue) == Answered(r.messages) + Ids(s.queue);
  }

  lemma AllRefused(shell: Shell, view: View, waiting: seq<string>, calls: seq<Call>, acted: nat)
    requires waiting != [] && DrainDrops(shell, view, waiting, calls, acted) == []
    ensures Refused(shell, view, calls) == |calls| <= Room(acted)
  {}

  /** Refused calls within the step limit are answered, each of them. */
  lemma {:induction false} DrainAnswers(shell: Shell, s: State, view: View, receipts: seq<Receipt>, m: nat)
    requires m <= Refused(shell, view, s.queue) && m <= Room(s.acted)
    ensures var after := Drain(shell, s, view, receipts).state;
      Answered(s.messages) + Ids(s.queue[..m]) <= Answered(after.messages) &&
      (m == |s.queue| ==> Answered(after.messages) == Answered(s.messages) + Ids(s.queue) &&
                          after.pending == s.pending && after.queue == [])
    decreases m
  {
    hide Answered, Asked;
    if m == 0 {
      DrainAdds(shell, s, view, receipts);
      MoreMessages(s.messages, Drain(shell, s, view, receipts).state.messages);
      assert Answered(s.messages) + [] == Answered(s.messages);
      assert Ids(s.queue[..0]) == [];
    } else {
      var call, rest := s.queue[0], s.queue[1..];
      var outcome := "tool error: " + shell.prepare(call, view).error;
      var r := Answer(s.(queue := rest, acted := s.acted + 1), call.id, outcome);
      DrainAnswers(shell, r, view, receipts + [Receipt(call.name, Denied, false, Truncate(outcome))], m - 1);
      OneMoreMessage(s.messages, ToolResult(call.id, outcome));
      FirstOf(s.queue, m, Answered(s.messages));
    }
  }

  lemma FirstOf(calls: seq<Call>, m: nat, before: seq<string>)
    requires 0 < m <= |calls|
    ensures before + Ids(calls[..m]) == before + [calls[0].id] + Ids(calls[1..][..m - 1])
    ensures before + Ids(calls) == before + [calls[0].id] + Ids(calls[1..])
  {}

  /** Refused calls with the id of the call that waits keep the order of ids. */
  lemma SameIdInOrder(shell: Shell, s: State, view: View)
    requires s.pending.Some? && Balanced(s) && Refused(shell, view, s.queue) == |s.queue| <= Room(s.acted)
    requires forall k :: 0 <= k < |s.queue| ==> s.queue[k].id == s.pending.value.id
    ensures Balanced(Drain(shell, s, view, []).state)
  {
    hide Answered, Asked;
    DrainAnswers(shell, s, view, [], |s.queue|);
    DrainAdds(shell, s, view, []);
    Rotate(Answered(s.messages), s.pending.value.id, Ids(s.queue));
    assert Ids([]) == [];
  }

  lemma Rotate(before: seq<string>, id: string, ids: seq<string>)
    requires forall k :: 0 <= k < |ids| ==> ids[k] == id
    ensures before + [id] + ids == before + ids + [id] + []
  {}

  lemma CompletionInOrder(w: World, shell: Shell, step: Step)
    requires var op := Complete(shell, step); Balanced(w.turn.state) && Drops(w, op) == [] && !Overtakes(w, op)
    ensures Balanced(Perform(w, Complete(shell, step)).turn.state)
  {
    hide Answered, Asked, LastToolFailed, DrainDrops;
    var s := w.turn.state;
    var s1 := s.(rounds := if s.rounds < U8_MAX then s.rounds + 1 else U8_MAX);
    assert Balanced(s1);
    match step {
      case Final(text) => NudgeInOrder(s1);
      case Calls(calls) =>
        var s2 := s1.(messages := s1.messages + [Assistant(calls)], queue := s1.queue + calls);
        EnqueueInOrder(s1, calls);
        if calls != [] && s.rounds < MAX_ROUNDS {
          if s.pending.None? {
            DrainInOrder(shell, s2, w.view, []);
          } else {
            AllRefused(shell, w.view, PendingId(s.pending), s2.queue, s.acted);
            assert forall k :: 0 <= k < |s2.queue| ==> IsRefused(shell, w.view, s2.queue, s.acted, k);
            SameIdInOrder(shell, s2, w.view);
          }
        }
    }
  }

  lemma ConfirmInOrder(w: World, shell: Shell, gate: string -> bool)
    requires Balanced(w.turn.state) && Drops(w, ConfirmNow(shell, gate)) == []
    ensures Balanced(Perform(w, ConfirmNow(shell, gate)).turn.state)
  {
    hide Answered, Asked, DrainDrops;
    var s := w.turn.state;
    if s.pending.Some? {
      var p := s.pending.value;
      SettleInOrder(s, NotChanged(p.tool.capability + " is not granted"));
      match shell.perform(p.tool, w.view) {
        case Ok((body, effects)) =>
          SettleInOrder(s, Truncate(body));
          if Granted(p.tool, gate) {
            DrainInOrder(shell, Answer(s.(pending := None), p.id, Truncate(body)), ApplyEffects(w.view, effects), []);
          }
        case Err(err) =>
          SettleInOrder(s, NotChanged(err));
          if Granted(p.tool, gate) { DrainInOrder(shell, Answer(s.(pending := None), p.id, NotChanged(err)), w.view, []); }
      }
    }
  }

  /** A step that drops nothing and overtakes nothing keeps every call in order. */
  lemma StepInOrder(w: World, op: Op)
    requires Balanced(w.turn.state) && Drops(w, op) == [] && !Overtakes(w, op)
    ensures Balanced(Perform(w, op).turn.state)
  {
    match op {
      case Complete(shell, step) => CompletionInOrder(w, shell, step);
      case ConfirmNow(shell, gate) => ConfirmInOrder(w, shell, gate);
      case RejectNow(reason) => if w.turn.state.pending.Some? { SettleInOrder(w.turn.state, NotChanged(reason)); }
      case CancelNow => if w.turn.state.pending.Some? { SettleInOrder(w.turn.state, "Cancelled. Nothing was changed."); }
    }
  }

  // What goes wrong stays wrong: messages are only added.

  lemma {:induction false} MoreMessages(messages: seq<Message>, more: seq<Message>)
    requires messages <= more
    ensures Asked(messages) <= Asked(more) && Answered(messages) <= Answered(more)
    decreases |more|
  {
    if messages == more {
    } else {
      MoreMessages(messages, more[..|more| - 1]);
    }
  }

  lemma {:induction false} DrainAdds(shell: Shell, s: State, view: View, receipts: seq<Receipt>)
    ensures s.messages <= Drain(shell, s, view, receipts).state.messages
    ensures Asked(Drain(shell, s, view, receipts).state.messages) == Asked(s.messages)
    decreases |s.queue|
  {
    hide Asked;
    if s.queue != [] && s.acted < MAX_STEPS {
      var call := s.queue[0];
      var s2 := s.(queue := s.queue[1..], acted := s.acted + 1);
      match shell.prepare(call, view) {
        case Err(err) =>
          var outcome := "tool error: " + err;
          OneMoreMessage(s.messages, ToolResult(call.id, outcome));
          assert Asked(s.messages) + [] == Asked(s.messages);
          DrainAdds(shell, Answer(s2, call.id, outcome), view,
                    receipts + [Receipt(call.name, Denied, false, Truncate(outcome))]);
        case Ok(tool) =>
      }
    }
  }

  lemma CompletionAdds(shell: Shell, s: State, view: View, step: Step)
    ensures s.messages <= OnCompletion(shell, s, view, step).state.messages
  {
    hide Drain, LastToolFailed;
    var s1 := s.(rounds := if s.rounds < U8_MAX then s.rounds + 1 else U8_MAX);
    if step.Calls? {
      DrainAdds(shell, s1.(messages := s1.messages + [Assistant(step.calls)], queue := s1.queue + step.calls), view, []);
    }
  }

  lemma ConfirmAdds(shell: Shell, s: State, view: View, gate: string -> bool)
    ensures s.messages <= Confirm(shell, s, view, gate).turn.state.messages
  {
    hide Drain, ApplyEffects, NotChanged, Truncate;
    if s.pending.Some? {
      var p, s1 := s.pending.value, s.(pending := None);
      match shell.perform(p.tool, view) {
        case Ok((body, effects)) => DrainAdds(shell, Answer(s1, p.id, Truncate(body)), ApplyEffects(view, effects), []);
        case Err(err) => DrainAdds(shell, Answer(s1, p.id, NotChanged(err)), view, []);
      }
    }
  }

  lemma StepAdds(w: World, op: Op)
    ensures w.turn.state.messages <= Perform(w, op).turn.state.messages
  {
    hide OnCompletion, Confirm;
    match op {
      case Complete(shell, step) => CompletionAdds(shell, w.turn.state, w.view, step);
      case ConfirmNow(shell, gate) => ConfirmAdds(shell, w.turn.state, w.view, gate);
      case _ =>
    }
  }

  /** Some answer is out of turn. */
  ghost predicate OutOfTurn(messages: seq<Message>) {
    exists i :: 0 <= i < |Answered(messages)| && i < |Asked(messages)| && Answered(messages)[i] != Asked(messages)[i]
  }

  lemma OutOfTurnStays(messages: seq<Message>, more: seq<Message>)
    requires messages <= more && OutOfTurn(messages)
    ensures OutOfTurn(more)
  {
    hide Asked, Answered;
    MoreMessages(messages, more);
    var i :| 0 <= i < |Answered(messages)| && i < |Asked(messages)| && Answered(messages)[i] != Asked(messages)[i];
    assert Answered(more)[i] == Answered(messages)[i] && Asked(more)[i] == Asked(messages)[i];
  }

  lemma OutOfTurnIsNotBalanced(s: State)
    requires OutOfTurn(s.messages)
    ensures !Balanced(s)
  {
    hide Asked, Answered;
    var i :| 0 <= i < |Answered(s.messages)| && i < |Asked(s.messages)| && Answered(s.messages)[i] != Asked(s.messages)[i];
    assert Accounted(s)[i] == Answered(s.messages)[i];
  }

  /** Take the first refused call with another id; where it is answered, the id of the waiting call
      was asked. */
  lemma RefusedIsOutOfTurn(shell: Shell, s: State, view: View, some: nat)
    requires Balanced(s) && s.pending.Some? && some < |s.queue|
    requires IsRefused(shell, view, s.queue, s.acted, some) && s.queue[some].id != s.pending.value.id
    ensures OutOfTurn(Drain(shell, s, view, []).state.messages)
  {
    hide Asked, Answered, Refused, Drain, Balanced;
    var k := FirstOther(s.queue, s.pending.value.id, some);
    var after := Drain(shell, s, view, []).state.messages;
    DrainAdds(shell, s, view, []);
    DrainAnswers(shell, s, view, [], k + 1);
    InFrontOf(s, k);
    var n := |Answered(s.messages)|;
    assert (Answered(s.messages) + Ids(s.queue[..k + 1]))[n + k] == s.queue[k].id;
    assert Answered(after)[n + k] == s.queue[k].id;
  }

  /** Overtaking answers out of turn. */
  lemma OvertakingIsOutOfTurn(w: World, op: Op)
    requires Balanced(w.turn.state) && Overtakes(w, op)
    ensures OutOfTurn(Perform(w, op).turn.state.messages)
  {
    hide Refused, Drain, Balanced, OutOfTurn, IsRefused;
    var s, calls := w.turn.state, op.step.calls;
    var s1 := s.(rounds := s.rounds + 1, messages := s.messages + [Assistant(calls)], queue := s.queue + calls);
    RoundsKeepOrder(s, s.rounds + 1);
    EnqueueInOrder(s.(rounds := s.rounds + 1), calls);
    var some :| 0 <= some < |s1.queue| && IsRefused(op.shell, w.view, s1.queue, s.acted, some) &&
      s1.queue[some].id != s.pending.value.id;
    RefusedIsOutOfTurn(op.shell, s1, w.view, some);
  }

  lemma RoundsKeepOrder(s: State, rounds: nat)
    requires Balanced(s)
    ensures Balanced(s.(rounds := rounds))
  {}

  /** The first call whose id is not `id`. */
  lemma {:induction false} FirstOther(calls: seq<Call>, id: string, some: nat) returns (k: nat)
    requires some < |calls| && calls[some].id != id
    ensures k <= some && calls[k].id != id && forall j :: 0 <= j < k ==> calls[j].id == id
  {
    k := some;
    if j: nat :| j < some && calls[j].id != id {
      k := FirstOther(calls, id, j);
    }
  }

  /** What was asked where call `k` of the queue would be answered now: what stands one place earlier. */
  lemma InFrontOf(s: State, k: nat)
    requires Balanced(s) && s.pending.Some? && k < |s.queue|
    ensures var n := |Answered(s.messages)|;
      n + k < |Asked(s.messages)| &&
      Asked(s.messages)[n + k] == if k == 0 then s.pending.value.id else s.queue[k - 1].id
  {
    hide Asked, Answered;
    var n := |Answered(s.messages)|;
    assert Accounted(s)[n + k] == if k == 0 then s.pending.value.id else Ids(s.queue)[k - 1];
  }

  /** No step of the run drops a call or answers one with another id before the one that waits. */
  ghost predicate KeepsOrder(w: World, ops: seq<Op>) {
    forall n :: 0 <= n < |ops| ==> Drops(Run(w, ops[..n]), ops[n]) == [] && !Overtakes(Run(w, ops[..n]), ops[n])
  }

  lemma LastStep(w: World, ops: seq<Op>)
    requires ops != []
    ensures var n := |ops| - 1;
      KeepsOrder(w, ops) <==>
      KeepsOrder(w, ops[..n]) && Drops(Run(w, ops[..n]), ops[n]) == [] && !Overtakes(Run(w, ops[..n]), ops[n])
  {
    hide Run, Drops, Overtakes;
    assert forall k :: 0 <= k < |ops| ==> ops[..|ops| - 1][..k] == ops[..k];
  }

  lemma {:induction false} OrderIsKept(w: World, ops: seq<Op>)
    requires Balanced(w.turn.state) && KeepsOrder(w, ops)
    ensures Balanced(Run(w, ops).turn.state)
  {
    hide Balanced, Drops, Overtakes, KeepsOrder, Perform;
    if ops != [] {
      var n := |ops| - 1;
      LastStep(w, ops);
      OrderIsKept(w, ops[..n]);
      StepInOrder(Run(w, ops[..n]), ops[n]);
    }
  }

  /** Once a call was dropped or overtaken, a call is missing or an answer is out of turn. */
  lemma {:induction false} OrderIsLost(w: World, ops: seq<Op>)
    requires Balanced(w.turn.state) && !KeepsOrder(w, ops)
    ensures Dropped(w, ops) != multiset{} || OutOfTurn(Run(w, ops).turn.state.messages)
  {
    hide Balanced, Drops, Overtakes, KeepsOrder, Perform, OutOfTurn, Asked;
    NoSteps(w);
    if ops != [] {
      var n := |ops| - 1;
      var before := Run(w, ops[..n]);
      LastStep(w, ops);
      StepAdds(before, ops[n]);
      if !KeepsOrder(w, ops[..n]) {
        OrderIsLost(w, ops[..n]);
        if OutOfTurn(before.turn.state.messages) {
          OutOfTurnStays(before.turn.state.messages, Run(w, ops).turn.state.messages);
        }
      } else if Overtakes(before, ops[n]) {
        OrderIsKept(w, ops[..n]);
        OvertakingIsOutOfTurn(before, ops[n]);
      }
    }
  }

  lemma NoSteps(w: World)
    ensures KeepsOrder(w, [])
  {}

  /** In any run, whatever the caller does: the answered calls, the one that waits and the queue are
      the calls asked for, in order, exactly when no step dropped a call or answered one with another
      id before the one that waits. */
  lemma InOrderIff(utterance: string, view: View, ops: seq<Op>)
    ensures var w := World(Start(utterance), view);
      Balanced(Run(w, ops).turn.state) <==> KeepsOrder(w, ops)
  {
    hide Run, Dropped, KeepsOrder, OutOfTurn, Asked, Answered;
    var w := World(Start(utterance), view);
    var s := Run(w, ops).turn.state;
    StartIsBalanced(utterance);
    if KeepsOrder(w, ops) {
      OrderIsKept(w, ops);
    } else {
      OrderIsLost(w, ops);
      EveryCallIsAccounted(utterance, view, ops);
      if OutOfTurn(s.messages) { OutOfTurnIsNotBalanced(s); }
      assert |multiset(Asked(s.messages))| == |multiset(Accounted(s))| + |Dropped(w, ops)|;
    }
  }

  lemma StartIsBalanced(utterance: string)
    ensures Balanced(Start(utterance).state)
  {
    OneMoreMessage([], User(utterance));
    assert [] + [User(utterance)] == [User(utterance)];
    assert Answered([User(utterance)]) == [] && Asked([User(utterance)]) == [];
    assert Ids([]) == [];
  }

  // ---------------------------------------------------------------- lost calls

  /** Beside the calls in `lost`, no call is accounted for more often than it was asked for. */
  ghost predicate NeverTwice(s: State, lost: multiset<string>) {
    multiset(Accounted(s)) + lost <= multiset(Asked(s.messages))
  }

  /** Whatever the caller does, in whatever order, no call is answered more often than it was asked;
      and calls that are lost stay lost. */
  lemma NoCallAnsweredTwice(w: World, ops: seq<Op>, lost: multiset<string>)
    requires NeverTwice(w.turn.state, lost)
    ensures NeverTwice(Run(w, ops).turn.state, lost)
  {
    hide Run, Dropped, Accounted, Asked;
    var s := w.turn.state;
    RunAccounts(w, ops, multiset(Asked(s.messages)) - multiset(Accounted(s)));
  }

  function Count(id: string, ids: seq<string>): nat {
    multiset(ids)[id]
  }

  /** Once a call is lost, its id is answered fewer times than it is asked, whatever follows. */
  lemma LostStaysLost(w: World, ops: seq<Op>, id: string)
    requires NeverTwice(w.turn.state, multiset{id})
    ensures var messages := Run(w, ops).turn.state.messages;
      Count(id, Answered(messages)) < Count(id, Asked(messages))
  {
    hide Run, Accounted, Answered, Asked;
    NoCallAnsweredTwice(w, ops, multiset{id});
    AccountedParts(Run(w, ops).turn.state);
  }

  /** A completion that arrives while a call waits for confirm replaces that call. */
  lemma StaleCompletionReplaces(shell: Shell, view: View, a: Call, b: Call, ta: Tool, tb: Tool)
    requires shell.prepare(a, view) == Ok(ta) && shell.prepare(b, view) == Ok(tb)
    ensures var t := OnCompletion(shell, Start("").state, view, Calls([a]));
      var u := OnCompletion(shell, t.state, view, Calls([b]));
      Balanced(t.state) && u.drive.kind.AwaitConfirm? && !Balanced(u.state) &&
      Accounted(u.state) == [b.id] && Asked(u.state.messages) == [a.id, b.id]
  {
    var t := OnCompletion(shell, Start("").state, view, Calls([a]));
    var u := OnCompletion(shell, t.state, view, Calls([b]));
    OneMoreMessage([], User(""));
    OneMoreMessage([User("")], Assistant([a]));
    OneMoreMessage([User(""), Assistant([a])], Assistant([b]));
    assert [] + [User("")] == [User("")];
    assert [User("")] + [Assistant([a])] == [User(""), Assistant([a])] == t.state.messages;
    assert [User(""), Assistant([a])] + [Assistant([b])] == u.state.messages;
    assert Ids([a]) == [a.id] && Ids([b]) == [b.id];
  }

  /** One way to drop a call: in every state that follows a stale completion, the id of the replaced call
      has fewer answers than it was asked; unless it is asked again, it has none. */
  lemma StaleCompletionLosesACall(shell: Shell, view: View, a: Call, b: Call, ta: Tool, tb: Tool, ops: seq<Op>)
    requires shell.prepare(a, view) == Ok(ta) && shell.prepare(b, view) == Ok(tb)
    ensures var t := OnCompletion(shell, Start("").state, view, Calls([a]));
      var u := OnCompletion(shell, t.state, view, Calls([b]));
      Conserved(t) && t.state.pending == Some(Pending(a.id, ta)) &&
      var messages := Run(World(u, view), ops).turn.state.messages;
      Count(a.id, Answered(messages)) < Count(a.id, Asked(messages))
  {
    hide Run, Accounted, Answered, Asked;
    var t := OnCompletion(shell, Start("").state, view, Calls([a]));
    var u := OnCompletion(shell, t.state, view, Calls([b]));
    StaleCompletionReplaces(shell, view, a, b, ta, tb);
    LostStaysLost(World(u, view), ops, a.id);
  }

  // ---------------------------------------------------------------- what was asked for

  /** The ids the planner gave in a step, unless it came past the round limit. */
  function Requests(w: World, op: Op): seq<string> {
    if op.Complete? && op.step.Calls? && w.turn.state.rounds < MAX_ROUNDS then Ids(op.step.calls) else []
  }

  /** The ids the planner gave in a run, in order. */
  function Requested(w: World, ops: seq<Op>): seq<string> {
    if ops == [] then [] else
      Requested(w, ops[..|ops| - 1]) + Requests(Run(w, ops[..|ops| - 1]), ops[|ops| - 1])
  }

  lemma SameAsked(messages: seq<Message>, m: Message)
    requires !m.Assistant?
    ensures Asked(messages + [m]) == Asked(messages)
  {
    OneMoreMessage(messages, m);
  }

  lemma CompletionAsks(w: World, shell: Shell, step: Step)
    ensures Asked(Perform(w, Complete(shell, step)).turn.state.messages) ==
      Asked(w.turn.state.messages) + Requests(w, Complete(shell, step))
  {
    hide Drain, LastToolFailed, Asked;
    var s := w.turn.state;
    var s1 := s.(rounds := if s.rounds < U8_MAX then s.rounds + 1 else U8_MAX);
    assert Asked(s.messages) + [] == Asked(s.messages);
    SameAsked(s.messages, User(NUDGE));
    if step.Calls? {
      OneMoreMessage(s.messages, Assistant(step.calls));
      assert step.calls == [] ==> Ids(step.calls) == [];
      DrainAdds(shell, s1.(messages := s1.messages + [Assistant(step.calls)], queue := s1.queue + step.calls), w.view, []);
    }
  }

  lemma ConfirmAsks(shell: Shell, s: State, view: View, gate: string -> bool)
    ensures Asked(Confirm(shell, s, view, gate).turn.state.messages) == Asked(s.messages)
  {
    hide Drain, ApplyEffects, NotChanged, Truncate, Asked;
    if s.pending.Some? {
      var p, s1 := s.pending.value, s.(pending := None);
      SameAsked(s.messages, ToolResult(p.id, NotChanged(p.tool.capability + " is not granted")));
      match shell.perform(p.tool, view) {
        case Ok((body, effects)) =>
          SameAsked(s.messages, ToolResult(p.id, Truncate(body)));
          DrainAdds(shell, Answer(s1, p.id, Truncate(body)), ApplyEffects(view, effects), []);
        case Err(err) =>
          SameAsked(s.messages, ToolResult(p.id, NotChanged(err)));
          DrainAdds(shell, Answer(s1, p.id, NotChanged(err)), view, []);
      }
    }
  }

  lemma StepAsks(w: World, op: Op)
    ensures Asked(Perform(w, op).turn.state.messages) == Asked(w.turn.state.messages) + Requests(w, op)
  {
    hide OnCompletion, Confirm, Asked, NotChanged;
    var s := w.turn.state;
    match op {
      case Complete(shell, step) => CompletionAsks(w, shell, step);
      case ConfirmNow(shell, gate) => ConfirmAsks(shell, s, w.view, gate);
      case RejectNow(reason) => if s.pending.Some? { SameAsked(s.messages, ToolResult(s.pending.value.id, NotChanged(reason))); }
      case CancelNow => if s.pending.Some? { SameAsked(s.messages, ToolResult(s.pending.value.id, "Cancelled. Nothing was changed.")); }
    }
  }

  /** The calls asked for in the transcript are the planner's own, in its order, behind the utterance. */
  lemma {:induction false} AskedIsRequested(utterance: string, view: View, ops: seq<Op>)
    ensures var w := World(Start(utterance), view);
      var messages := Run(w, ops).turn.state.messages;
      Asked(messages) == Requested(w, ops) && [User(utterance)] <= messages
  {
    hide Asked, Perform, Requests;
    var w := World(Start(utterance), view);
    if ops == [] {
      SameAsked([], User(utterance));
      assert [] + [User(utterance)] == [User(utterance)];
      assert Asked([]) == [] by { NothingAsked(); }
    } else {
      var n := |ops| - 1;
      AskedIsRequested(utterance, view, ops[..n]);
      StepAsks(Run(w, ops[..n]), ops[n]);
      StepAdds(Run(w, ops[..n]), ops[n]);
    }
  }

  lemma NothingAsked()
    ensures Asked([]) == []
  {}

  // ---------------------------------------------------------------- the view

  /** A confirm that is granted, of a tool that performs. */
  predicate Acts(w: World, op: Op) {
    op.ConfirmNow? && w.turn.state.pending.Some? &&
    var tool := w.turn.state.pending.value.tool;
    (tool.capability == "" || op.gate(tool.capability)) && op.shell.perform(tool, w.view).Ok?
  }

  /** All effects of the drives of a run, in order. */
  function AllEffects(w: World, ops: seq<Op>): seq<Effect> {
    if ops == [] then [] else AllEffects(w, ops[..|ops| - 1]) + Run(w, ops).turn.drive.effects
  }

  ghost predicate NoneAllowed(receipts: seq<Receipt>) {
    forall i :: 0 <= i < |receipts| ==> !receipts[i].decision.Allowed?
  }

  lemma {:induction false} DrainActsOnNothing(shell: Shell, s: State, view: View, receipts: seq<Receipt>)
    requires NoneAllowed(receipts)
    ensures var d := Drain(shell, s, view, receipts).drive;
      d.effects == [] && NoneAllowed(d.receipts)
    decreases |s.queue|
  {
    if s.queue != [] && s.acted < MAX_STEPS {
      var call := s.queue[0];
      match shell.prepare(call, view) {
        case Err(err) =>
          var outcome := "tool error: " + err;
          DrainActsOnNothing(shell, Answer(s.(queue := s.queue[1..], acted := s.acted + 1), call.id, outcome), view,
                             receipts + [Receipt(call.name, Denied, false, Truncate(outcome))]);
        case Ok(tool) =>
      }
    }
  }

  lemma CompletionActsOnNothing(shell: Shell, s: State, view: View, step: Step)
    ensures var d := OnCompletion(shell, s, view, step).drive;
      d.effects == [] && NoneAllowed(d.receipts)
  {
    hide Drain, LastToolFailed;
    var s1 := s.(rounds := if s.rounds < U8_MAX then s.rounds + 1 else U8_MAX);
    if step.Calls? {
      DrainActsOnNothing(shell, s1.(messages := s1.messages + [Assistant(step.calls)], queue := s1.queue + step.calls), view, []);
    }
  }

  /** A step acts on the view with the effects its tool gave on it, behind an Allowed receipt for the
      tool that waited; any other step leaves the view alone, and nothing in it says Allowed. */
  lemma ActsOrNot(w: World, op: Op)
    ensures var v := Perform(w, op);
      if Acts(w, op) then
        var tool, d := w.turn.state.pending.value.tool, v.turn.drive;
        var done := op.shell.perform(tool, w.view).value;
        d.effects == done.1 && v.view == ApplyEffects(w.view, done.1) &&
        d.receipts != [] && d.receipts[0] == Receipt(tool.name, Allowed, true, Truncate(done.0)) &&
        NoneAllowed(d.receipts[1..])
      else v.view == w.view && v.turn.drive.effects == [] && NoneAllowed(v.turn.drive.receipts)
  {
    hide Drain, ApplyEffects, OnCompletion, NotChanged, Truncate;
    var s := w.turn.state;
    match op {
      case Complete(shell, step) => CompletionActsOnNothing(shell, s, w.view, step);
      case ConfirmNow(shell, gate) =>
        if s.pending.Some? {
          var p, s1 := s.pending.value, s.(pending := None);
          match shell.perform(p.tool, w.view) {
            case Ok((body, effects)) =>
              DrainActsOnNothing(shell, Answer(s1, p.id, Truncate(body)), ApplyEffects(w.view, effects), []);
            case Err(err) =>
              DrainActsOnNothing(shell, Answer(s1, p.id, NotChanged(err)), w.view, []);
          }
        }
      case _ =>
    }
  }

  lemma FirstEffect(view: View, effects: seq<Effect>)
    requires effects != []
    ensures ApplyEffects(view, effects) == ApplyEffects(ApplyEffects(view, [effects[0]]), effects[1..])
  {
    OneEffect(view, effects[0]);
  }

  lemma {:induction false} EffectsInTurn(view: View, a: seq<Effect>, b: seq<Effect>)
    ensures ApplyEffects(view, a + b) == ApplyEffects(ApplyEffects(view, a), b)
    decreases a
  {
    hide ApplyEffects;
    if a == [] {
      assert a + b == b;
      NoEffects(view);
    } else {
      assert (a + b)[1..] == a[1..] + b && (a + b)[0] == a[0];
      FirstEffect(view, a);
      FirstEffect(view, a + b);
      EffectsInTurn(ApplyEffects(view, [a[0]]), a[1..], b);
    }
  }

  /** After any run the view is the first one with the effects of all drives, and with nothing else. */
  lemma {:induction false} ViewIsEffects(w: World, ops: seq<Op>)
    ensures Run(w, ops).view == ApplyEffects(w.view, AllEffects(w, ops))
  {
    NoEffects(w.view);
    if ops != [] {
      var n := |ops| - 1;
      ViewIsEffects(w, ops[..n]);
      hide Run, ApplyEffects, Perform, Acts;
      RunOneMore(w, ops);
      ActsOrNot(Run(w, ops[..n]), ops[n]);
      EffectsInTurn(w.view, AllEffects(w, ops[..n]), Run(w, ops).turn.drive.effects);
      NoEffects(Run(w, ops[..n]).view);
    }
  }

  lemma RunOneMore(w: World, ops: seq<Op>)
    requires ops != []
    ensures Run(w, ops) == Perform(Run(w, ops[..|ops| - 1]), ops[|ops| - 1])
  {}

  lemma NoEffects(view: View)
    ensures ApplyEffects(view, []) == view
  {}

  /** One effect changes the part of the view it names, to what it says; the last one on a part stays. */
  lemma LastEffect(view: View, effects: seq<Effect>, e: Effect)
    ensures var before, after := ApplyEffects(view, effects), ApplyEffects(view, effects + [e]);
      after.app == (if e.Navigate? then e.app else before.app) &&
      after.night == (if e.SetNight? then e.night else before.night) &&
      after.terminalLine == (if e.SetLine? then e.text else before.terminalLine) &&
      after.terminalOutput == (if e.SetOutput? then e.text else before.terminalOutput)
  {
    EffectsInTurn(view, effects, [e]);
    OneEffect(ApplyEffects(view, effects), e);
  }

  lemma OneEffect(view: View, e: Effect)
    ensures ApplyEffects(view, [e]) == match e
      case Navigate(app) => View(app, view.night, view.terminalLine, view.terminalOutput)
      case SetNight(night) => View(view.app, night, view.terminalLine, view.terminalOutput)
      case SetLine(text) => View(view.app, view.night, text, view.terminalOutput)
      case SetOutput(text) => View(view.app, view.night, view.terminalLine, text)
  {
    assert [e][1..] == [];
  }

  // ---------------------------------------------------------------- what the transcript and the receipts tell

  /** The contents of the tool messages. */
  function Results(messages: seq<Message>): seq<string> {
    if messages == [] then [] else
      var n := |messages| - 1;
      Results(messages[..n]) + if messages[n].ToolResult? then [messages[n].content] else []
  }

  function Outcomes(receipts: seq<Receipt>): seq<string> {
    if receipts == [] then [] else Outcomes(receipts[..|receipts| - 1]) + [receipts[|receipts| - 1].outcome]
  }

  function Shortened(texts: seq<string>): seq<string> {
    if texts == [] then [] else Shortened(texts[..|texts| - 1]) + [Truncate(texts[|texts| - 1])]
  }

  /** At most 800 characters are kept; a longer text is cut there and ends with an ellipsis. */
  lemma TruncateIs(text: string)
    ensures |text| <= 800 ==> Truncate(text) == text
    ensures |text| > 800 ==> |Truncate(text)| == 801 && Truncate(text)[..800] == text[..800] && Truncate(text)[800] == '\U{2026}'
    ensures Truncate(Truncate(text)) == Truncate(text)
  {}

  lemma ResultsSnoc(messages: seq<Message>, m: Message)
    ensures Results(messages + [m]) == Results(messages) + if m.ToolResult? then [m.content] else []
  {
    assert (messages + [m])[..|messages|] == messages;
  }

  lemma TellOne(receipts: seq<Receipt>, r: Receipt, texts: seq<string>, text: string)
    ensures Outcomes(receipts + [r]) == Outcomes(receipts) + [r.outcome]
    ensures Shortened(texts + [text]) == Shortened(texts) + [Truncate(text)]
  {
    assert (receipts + [r])[..|receipts|] == receipts && (texts + [text])[..|texts|] == texts;
  }

  lemma {:induction false} ShortenedConcat(a: seq<string>, b: seq<string>)
    ensures Shortened(a + b) == Shortened(a) + Shortened(b)
  {
    if b == [] {
      assert a + b == a;
    } else {
      var n := |b| - 1;
      ShortenedConcat(a, b[..n]);
      TellOne([], Receipt("", Denied, false, ""), a + b[..n], b[n]);
      assert a + b == a + b[..n] + [b[n]];
    }
  }

  lemma {:induction false} OutcomesConcat(a: seq<Receipt>, b: seq<Receipt>)
    ensures Outcomes(a + b) == Outcomes(a) + Outcomes(b)
  {
    if b == [] {
      assert a + b == a;
    } else {
      var n := |b| - 1;
      OutcomesConcat(a, b[..n]);
      TellOne(a + b[..n], b[n], [], "");
      assert a + b == a + b[..n] + [b[n]];
    }
  }

  /** The tool messages behind `before`, as receipts tell them. */
  function News(before: seq<Message>, after: seq<Message>): seq<string> {
    var n := |Results(before)|;
    Shortened(if n <= |Results(after)| then Results(after)[n..] else [])
  }

  /** The drive tells the tool messages that were added, in order; at the step limit it may leave some out. */
  ghost predicate Tells(before: seq<Message>, t: Turn, receipts: seq<Receipt>) {
    Results(before) <= Results(t.state.messages) &&
    if t.drive.kind == Failed("stopped: step limit") then t.drive.receipts == []
    else Outcomes(t.drive.receipts) == Outcomes(receipts) + News(before, t.state.messages)
  }

  lemma {:induction false} DrainTells(shell: Shell, s: State, view: View, receipts: seq<Receipt>)
    ensures Tells(s.messages, Drain(shell, s, view, receipts), receipts)
    decreases |s.queue|
  {
    hide Results, Outcomes, Shortened;
    var none: seq<string> := [];
    NoNews(s.messages, receipts);
    if s.queue != [] && s.acted < MAX_STEPS {
      var call := s.queue[0];
      var s2 := s.(queue := s.queue[1..], acted := s.acted + 1);
      match shell.prepare(call, view) {
        case Err(err) =>
          var outcome := "tool error: " + err;
          var r, more := Answer(s2, call.id, outcome), receipts + [Receipt(call.name, Denied, false, Truncate(outcome))];
          DrainTells(shell, r, view, more);
          TellsFirst(s.messages, ToolResult(call.id, outcome), Drain(shell, r, view, more), receipts,
                     Receipt(call.name, Denied, false, Truncate(outcome)));
        case Ok(tool) =>
      }
    }
  }

  lemma NoNews(messages: seq<Message>, receipts: seq<Receipt>)
    ensures News(messages, messages) == [] && Outcomes(receipts) + [] == Outcomes(receipts) && Outcomes([]) == []
  {}

  /** One tool message and its receipt in front of what is told. */
  lemma TellsFirst(before: seq<Message>, m: Message, t: Turn, receipts: seq<Receipt>, r: Receipt)
    requires m.ToolResult? && r.outcome == Truncate(m.content) && Tells(before + [m], t, receipts + [r])
    ensures Tells(before, t, receipts)
  {
    hide Results, Outcomes, Shortened, Truncate;
    ResultsSnoc(before, m);
    TellOne(receipts, r, [], m.content);
    var after, n := Results(t.state.messages), |Results(before)|;
    assert after[n..] == [m.content] + after[n + 1..];
    ShortenedConcat([m.content], after[n + 1..]);
    OneShortened(m.content);
    assert Outcomes(receipts) + [r.outcome] + Shortened(after[n + 1..]) == Outcomes(receipts) + ([r.outcome] + Shortened(after[n + 1..]));
  }

  lemma OneShortened(text: string)
    ensures Shortened([text]) == [Truncate(text)]
  {
    TellOne([], Receipt("", Denied, false, ""), [], text);
    assert [] + [text] == [text];
  }

  /** A message that is no tool message tells nothing new. */
  lemma TellsPast(before: seq<Message>, m: Message, t: Turn)
    requires !m.ToolResult? && Tells(before + [m], t, [])
    ensures Tells(before, t, [])
  {
    hide Results, Outcomes, Shortened;
    ResultsSnoc(before, m);
    assert Results(before) + [] == Results(before);
  }

  /** The receipts of a drive tell the tool messages of its step, each one and in order. A step that
      ends at the step limit tells only what a confirm settled. */
  ghost predicate ReceiptsTell(before: seq<Message>, t: Turn) {
    Results(before) <= Results(t.state.messages) &&
    Outcomes(t.drive.receipts) <= News(before, t.state.messages) &&
    (t.drive.kind != Failed("stopped: step limit") ==> Outcomes(t.drive.receipts) == News(before, t.state.messages))
  }

  lemma CompletionTells(shell: Shell, s: State, view: View, step: Step)
    ensures ReceiptsTell(s.messages, OnCompletion(shell, s, view, step))
  {
    hide Drain, Results, Outcomes, Shortened, LastToolFailed;
    var s1 := s.(rounds := if s.rounds < U8_MAX then s.rounds + 1 else U8_MAX);
    NoNews(s.messages, []);
    if step.Calls? {
      var s2 := s1.(messages := s1.messages + [Assistant(step.calls)], queue := s1.queue + step.calls);
      DrainTells(shell, s2, view, []);
      TellsPast(s.messages, Assistant(step.calls), Drain(shell, s2, view, []));
    } else {
      ResultsSnoc(s.messages, User(NUDGE));
      assert Results(s.messages) + [] == Results(s.messages);
    }
  }

  /** A settled call and the drain behind it. */
  lemma SettledTells(before: seq<Message>, id: string, content: string, t: Turn, r: Receipt)
    requires r.outcome == Truncate(content) && Tells(before + [ToolResult(id, content)], t, [])
    ensures ReceiptsTell(before, t.(drive := Drive(t.drive.kind, t.drive.effects, [r] + t.drive.receipts)))
  {
    hide Results, Outcomes, Shortened, Truncate;
    ResultsSnoc(before, ToolResult(id, content));
    var after, n := Results(t.state.messages), |Results(before)|;
    assert after[n..] == [content] + after[n + 1..];
    ShortenedConcat([content], after[n + 1..]);
    OneShortened(content);
    OutcomesConcat([r], t.drive.receipts);
    OneOutcome(r);
    NoNews(before, []);
  }

  lemma OneOutcome(r: Receipt)
    ensures Outcomes([r]) == [r.outcome] && Outcomes([]) == []
  {
    TellOne([], r, [], "");
    assert [] + [r] == [r];
  }

  lemma StepTells(w: World, op: Op)
    ensures ReceiptsTell(w.turn.state.messages, Perform(w, op).turn)
  {
    hide Drain, Results, Outcomes, Shortened, OnCompletion, ApplyEffects, Truncate, ReceiptsTell;
    var s := w.turn.state;
    match op {
      case Complete(shell, step) => CompletionTells(shell, s, w.view, step);
      case ConfirmNow(shell, gate) => ConfirmTells(shell, s, w.view, gate);
      case RejectNow(reason) => StopTells(s, reason);
      case CancelNow => StopTells(s, "");
    }
  }

  lemma ConfirmTells(shell: Shell, s: State, view: View, gate: string -> bool)
    ensures ReceiptsTell(s.messages, Confirm(shell, s, view, gate).turn)
  {
    hide Drain, ReceiptsTell, ApplyEffects, Truncate, Tells, NotChanged;
    if s.pending.None? {
      SilentTells(s.messages, Fail(s, "nothing is waiting for confirm"));
    } else {
      var p, s1 := s.pending.value, s.(pending := None);
      if p.tool.capability != "" && !gate(p.tool.capability) {
        var outcome := NotChanged(p.tool.capability + " is not granted");
        OnlyTells(s.messages, p.id, outcome, Confirm(shell, s, view, gate).turn);
      } else {
        match shell.perform(p.tool, view) {
          case Ok((body, effects)) =>
            TruncateIs(body);
            var r := Answer(s1, p.id, Truncate(body));
            DrainTells(shell, r, ApplyEffects(view, effects), []);
            SettledTells(s.messages, p.id, Truncate(body), Drain(shell, r, ApplyEffects(view, effects), []),
                         Receipt(p.tool.name, Allowed, true, Truncate(body)));
            SameReceipts(s.messages, Drain(shell, r, ApplyEffects(view, effects), []), Confirm(shell, s, view, gate).turn,
                         Receipt(p.tool.name, Allowed, true, Truncate(body)));
          case Err(err) =>
            var r := Answer(s1, p.id, NotChanged(err));
            DrainTells(shell, r, view, []);
            SettledTells(s.messages, p.id, NotChanged(err), Drain(shell, r, view, []),
                         Receipt(p.tool.name, Denied, true, Truncate(NotChanged(err))));
        }
      }
    }
  }

  /** Effects are not told. */
  lemma SameReceipts(before: seq<Message>, t: Turn, u: Turn, r: Receipt)
    requires ReceiptsTell(before, t.(drive := Drive(t.drive.kind, t.drive.effects, [r] + t.drive.receipts)))
    requires u.state == t.state && u.drive.kind == t.drive.kind && u.drive.receipts == [r] + t.drive.receipts
    ensures ReceiptsTell(before, u)
  {}

  lemma SilentTells(messages: seq<Message>, t: Turn)
    requires t.state.messages == messages && t.drive.receipts == []
    ensures ReceiptsTell(messages, t)
  {
    NoNews(messages, []);
  }

  /** One tool message with its receipt. */
  lemma OnlyTells(messages: seq<Message>, id: string, content: string, t: Turn)
    requires t.state.messages == messages + [ToolResult(id, content)]
    requires |t.drive.receipts| == 1 && t.drive.receipts[0].outcome == Truncate(content)
    ensures ReceiptsTell(messages, t)
  {
    hide Results, Outcomes, Shortened, Truncate;
    ResultsSnoc(messages, ToolResult(id, content));
    var n := |Results(messages)|;
    assert Results(t.state.messages)[n..] == [content];
    OneShortened(content);
    OneOutcome(t.drive.receipts[0]);
    assert t.drive.receipts == [t.drive.receipts[0]];
  }

  lemma StopTells(s: State, reason: string)
    ensures ReceiptsTell(s.messages, Reject(s, reason)) && ReceiptsTell(s.messages, Cancel(s))
  {
    hide ReceiptsTell, Truncate, NotChanged;
    if s.pending.None? {
      SilentTells(s.messages, Reject(s, reason));
      SilentTells(s.messages, Cancel(s));
    } else {
      TruncateIs("Cancelled. Nothing was changed.");
      OnlyTells(s.messages, s.pending.value.id, NotChanged(reason), Reject(s, reason));
      OnlyTells(s.messages, s.pending.value.id, "Cancelled. Nothing was changed.", Cancel(s));
    }
  }

  /** The answer that settles a waiting call: what its tool gave, cut to size, or why nothing was changed. */
  function AnswerTo(w: World, op: Op): string
    requires w.turn.state.pending.Some? && !op.Complete?
  {
    var tool := w.turn.state.pending.value.tool;
    match op
    case ConfirmNow(shell, gate) =>
      var done := shell.perform(tool, w.view);
      if tool.capability != "" && !gate(tool.capability) then NotChanged(tool.capability + " is not granted")
      else if done.Ok? then Truncate(done.value.0)
      else NotChanged(done.error)
    case RejectNow(reason) => NotChanged(reason)
    case CancelNow => "Cancelled. Nothing was changed."
    case Complete(_, _) => ""
  }

  /** A confirm, a reject or a cancel answers the call that waits, first and with this text. */
  lemma AnswersWhatWaits(w: World, op: Op)
    requires w.turn.state.pending.Some? && !op.Complete?
    ensures w.turn.state.messages + [ToolResult(w.turn.state.pending.value.id, AnswerTo(w, op))] <= Perform(w, op).turn.state.messages
  {
    hide Drain, ApplyEffects, Truncate, NotChanged;
    var s := w.turn.state;
    var p, s1 := s.pending.value, s.(pending := None);
    if op.ConfirmNow? {
      match op.shell.perform(p.tool, w.view) {
        case Ok((body, effects)) =>
          DrainAdds(op.shell, Answer(s1, p.id, Truncate(body)), ApplyEffects(w.view, effects), []);
        case Err(err) =>
          DrainAdds(op.shell, Answer(s1, p.id, NotChanged(err)), w.view, []);
      }
    }
  }

  /** A text that says no. */
  lemma DeniedText(why: string)
    ensures NotChanged(why) == "Denied: " + why + ". Nothing was changed."
  {}

  /** The receipt of a settled call: Allowed when its tool performed, Cancelled by a cancel, or else Denied. */
  ghost predicate Settles(r: Receipt, w: World, op: Op)
    requires w.turn.state.pending.Some? && !op.Complete?
  {
    r.tool == w.turn.state.pending.value.tool.name && r.outcome == Truncate(AnswerTo(w, op)) &&
    r.decision == (if Acts(w, op) then Allowed else if op.CancelNow? then Cancelled else Denied) &&
    (r.confirmed <==> !op.CancelNow?)
  }

  lemma SettledFirst(w: World, op: Op)
    requires w.turn.state.pending.Some? && !op.Complete?
    ensures var receipts := Perform(w, op).turn.drive.receipts;
      receipts != [] && Settles(receipts[0], w, op)
  {
    hide Drain, ApplyEffects, Truncate, NotChanged;
    TruncateTwice(w, op);
  }

  lemma TruncateTwice(w: World, op: Op)
    requires w.turn.state.pending.Some? && !op.Complete?
    ensures Acts(w, op) ==>
      Truncate(AnswerTo(w, op)) == Truncate(op.shell.perform(w.turn.state.pending.value.tool, w.view).value.0)
    ensures op.CancelNow? ==> Truncate("Cancelled. Nothing was changed.") == "Cancelled. Nothing was changed."
  {
    if Acts(w, op) { TruncateIs(op.shell.perform(w.turn.state.pending.value.tool, w.view).value.0); }
  }

  /** A refused call is answered with the error, and its receipt says that nobody confirmed it. */
  predicate RefusedAs(m: Message, r: Receipt, call: Call, error: string) {
    m == ToolResult(call.id, "tool error: " + error) &&
    r == Receipt(call.name, Denied, false, Truncate("tool error: " + error))
  }

  /** What the loop adds for the refused calls in front: a message and a receipt for each, in order. */
  lemma {:induction false} DrainRefuses(shell: Shell, s: State, view: View, receipts: seq<Receipt>)
    ensures var t, k := Drain(shell, s, view, receipts), Refused(shell, view, s.queue);
      t.drive.kind != Failed("stopped: step limit") ==>
        |t.state.messages| == |s.messages| + k && s.messages <= t.state.messages &&
        |t.drive.receipts| == |receipts| + k && receipts <= t.drive.receipts &&
        forall i :: 0 <= i < k ==>
          shell.prepare(s.queue[i], view).Err? &&
          RefusedAs(t.state.messages[|s.messages| + i], t.drive.receipts[|receipts| + i], s.queue[i], shell.prepare(s.queue[i], view).error)
    decreases |s.queue|
  {
    hide Truncate, RefusedAs;
    if s.queue != [] && s.acted < MAX_STEPS {
      var call := s.queue[0];
      match shell.prepare(call, view) {
        case Err(err) =>
          var outcome := "tool error: " + err;
          var r, more := Answer(s.(queue := s.queue[1..], acted := s.acted + 1), call.id, outcome), receipts + [Receipt(call.name, Denied, false, Truncate(outcome))];
          DrainRefuses(shell, r, view, more);
          assert RefusedAs(ToolResult(call.id, outcome), Receipt(call.name, Denied, false, Truncate(outcome)), call, err) by { IsRefusedAs(call, err); }
          assert r.messages[|s.messages|] == ToolResult(call.id, outcome) && more[|receipts|] == Receipt(call.name, Denied, false, Truncate(outcome));
          assert forall i :: 0 < i <= |r.queue| ==> s.queue[i] == r.queue[i - 1];
        case Ok(tool) =>
      }
    }
  }

  lemma IsRefusedAs(call: Call, error: string)
    ensures RefusedAs(ToolResult(call.id, "tool error: " + error), Receipt(call.name, Denied, false, Truncate("tool error: " + error)), call, error)
  {}

  // ---------------------------------------------------------------- how a step ends

  /** The latest tool message there is reports a failure. */
  ghost predicate LatestReportsFailure(shell: Shell, messages: seq<Message>) {
    exists i :: 0 <= i < |messages| && messages[i].ToolResult? && shell.reportsFailure(messages[i].content) &&
      forall j :: i < j < |messages| ==> !messages[j].ToolResult?
  }

  lemma LatestSnoc(shell: Shell, messages: seq<Message>, m: Message)
    ensures LatestReportsFailure(shell, messages + [m]) <==>
      if m.ToolResult? then shell.reportsFailure(m.content) else LatestReportsFailure(shell, messages)
  {
    var n, more := |messages|, messages + [m];
    assert more[n] == m;
    assert forall i :: 0 <= i < n ==> more[i] == messages[i];
    if !m.ToolResult? && LatestReportsFailure(shell, messages) {
      var i :| 0 <= i < n && messages[i].ToolResult? && shell.reportsFailure(messages[i].content) &&
        forall j :: i < j < n ==> !messages[j].ToolResult?;
      assert more[i].ToolResult? && shell.reportsFailure(more[i].content);
    }
  }

  lemma {:induction false} LastToolFailedIff(shell: Shell, messages: seq<Message>)
    ensures LastToolFailed(shell, messages) <==> LatestReportsFailure(shell, messages)
  {
    if messages != [] {
      var n := |messages| - 1;
      LastToolFailedIff(shell, messages[..n]);
      hide LatestReportsFailure;
      LatestSnoc(shell, messages[..n], messages[n]);
      assert messages == messages[..n] + [messages[n]];
    }
  }

  /** A final answer ends the run, unless a round is left and the last tool failed or the text hands the
      work back; then the planner is asked again behind one more message, and nothing else changes. */
  lemma FinalEndsOrNudges(w: World, shell: Shell, text: string)
    requires w.turn.state.rounds < 8
    ensures var s, v := w.turn.state, Perform(w, Complete(shell, Final(text)));
      var again := s.rounds + 1 < 8 && (LatestReportsFailure(shell, s.messages) || shell.handsWorkBack(text));
      v.view == w.view && v.turn.drive.receipts == [] && v.turn.state.queue == s.queue && v.turn.state.pending == s.pending &&
      (again ==> v.turn.state.messages == s.messages + [User(NUDGE)] && v.turn.drive.kind == Plan(v.turn.state.messages)) &&
      (!again ==> v.turn.state.messages == s.messages && v.turn.drive.kind == Finished(text))
  {
    hide LastToolFailed;
    LastToolFailedIff(shell, w.turn.state.messages);
  }

  /** How taking calls off the queue ends: at the limit, at the first call that can be prepared, which
      then waits, or with the planner asked again. */
  lemma {:induction false} DrainEnds(shell: Shell, s: State, view: View, receipts: seq<Receipt>)
    ensures var t, k := Drain(shell, s, view, receipts), Refused(shell, view, s.queue);
      if k == |s.queue| && k <= Room(s.acted) then
        t.drive.kind == Plan(t.state.messages) && t.state.queue == [] && t.state.pending == s.pending
      else if Room(s.acted) <= k then
        t.drive.kind == Failed("stopped: step limit") && t.state.queue == [] && t.state.pending == None
      else
        t.drive.kind == AwaitConfirm && t.state.queue == s.queue[k + 1..] && t.state.acted == s.acted + k + 1 &&
        shell.prepare(s.queue[k], view).Ok? &&
        t.state.pending == Some(Pending(s.queue[k].id, shell.prepare(s.queue[k], view).value))
    decreases |s.queue|
  {
    if s.queue != [] && s.acted < MAX_STEPS {
      var call := s.queue[0];
      match shell.prepare(call, view) {
        case Err(err) =>
          var outcome := "tool error: " + err;
          DrainEnds(shell, Answer(s.(queue := s.queue[1..], acted := s.acted + 1), call.id, outcome), view,
                    receipts + [Receipt(call.name, Denied, false, Truncate(outcome))]);
        case Ok(tool) =>
      }
    }
  }

  /** The cause of a failure, in the state before the step or in what was asked. */
  ghost predicate FailsFor(w: World, op: Op, reason: string) {
    var s := w.turn.state;
    match op
    case Complete(_, step) =>
      if s.rounds >= MAX_ROUNDS then reason == "stopped: planner round limit"
      else if step == Calls([]) then reason == "planner returned an empty tool list"
      else step.Calls? && |s.queue + step.calls| > Room(s.acted) && reason == "stopped: step limit"
    case ConfirmNow(_, _) =>
      if s.pending.None? then reason == "nothing is waiting for confirm"
      else (!Acts(w, op) && reason == AnswerTo(w, op)) || (|s.queue| > Room(s.acted) && reason == "stopped: step limit")
    case RejectNow(why) => if s.pending.None? then reason == why else reason == AnswerTo(w, op)
    case CancelNow => false
  }

  lemma CompletionFails(w: World, shell: Shell, step: Step)
    ensures var kind := Perform(w, Complete(shell, step)).turn.drive.kind;
      kind.Failed? ==> FailsFor(w, Complete(shell, step), kind.reason)
  {
    hide Drain, LastToolFailed, Refused, Room;
    var s := w.turn.state;
    var s1 := s.(rounds := if s.rounds < U8_MAX then s.rounds + 1 else U8_MAX);
    if step.Calls? {
      DrainEnds(shell, s1.(messages := s1.messages + [Assistant(step.calls)], queue := s1.queue + step.calls), w.view, []);
    }
  }

  lemma ConfirmFails(w: World, shell: Shell, gate: string -> bool)
    ensures var kind := Perform(w, ConfirmNow(shell, gate)).turn.drive.kind;
      kind.Failed? ==> FailsFor(w, ConfirmNow(shell, gate), kind.reason)
  {
    hide Drain, ApplyEffects, Truncate, Refused, Room, NotChanged;
    var s := w.turn.state;
    if s.pending.Some? {
      var p, s1 := s.pending.value, s.(pending := None);
      match shell.perform(p.tool, w.view) {
        case Ok((body, effects)) =>
          DrainEnds(shell, Answer(s1, p.id, Truncate(body)), ApplyEffects(w.view, effects), []);
        case Err(err) =>
          DrainEnds(shell, Answer(s1, p.id, NotChanged(err)), w.view, []);
      }
    }
  }

  /** Why a run fails: each reason has its cause. */
  lemma WhyItFails(w: World, op: Op)
    ensures var kind := Perform(w, op).turn.drive.kind;
      kind.Failed? ==> FailsFor(w, op, kind.reason)
  {
    match op {
      case Complete(shell, step) => CompletionFails(w, shell, step);
      case ConfirmNow(shell, gate) => ConfirmFails(w, shell, gate);
      case RejectNow(reason) =>
      case CancelNow =>
    }
  }

  // ---------------------------------------------------------------- the loop as the shell runs it

  class ShellAgent {
    var messages: seq<Message>
    var queue: seq<Call>
    var pending: Option<Pending>
    var rounds: nat
    var acted: nat

    ghost function Snapshot(): State
      reads this
    {
      State(messages, queue, pending, rounds, acted)
    }

    constructor ()
      ensures Snapshot() == State([], [], None, 0, 0)
    {
      messages, queue, pending, rounds, acted := [], [], None, 0, 0;
    }

    method Begin(utterance: string) returns (drive: Drive)
      modifies this
      ensures Turn(Snapshot(), drive) == Start(utterance)
    {
      messages, queue, pending, rounds, acted := [User(utterance)], [], None, 0, 0;
      drive := Drive(Plan(messages), [], []);
    }

    method GiveUp(reason: string) returns (drive: Drive)
      modifies this`queue, this`pending
      ensures Turn(Snapshot(), drive) == Fail(old(Snapshot()), reason)
    {
      queue, pending := [], None;
      drive := Drive(Failed(reason), [], []);
    }

    method DrainQueue(shell: Shell, view: View) returns (drive: Drive)
      modifies this
      ensures Turn(Snapshot(), drive) == Drain(shell, old(Snapshot()), view, [])
    {
      var receipts: seq<Receipt> := [];
      while queue != []
        invariant Drain(shell, Snapshot(), view, receipts) == Drain(shell, old(Snapshot()), view, [])
        decreases |queue|
      {
        var call := queue[0];
        queue := queue[1..];
        if acted >= MAX_STEPS {
          drive := GiveUp("stopped: step limit");
          return;
        }
        acted := acted + 1;
        match shell.prepare(call, view) {
          case Err(err) =>
            var outcome := "tool error: " + err;
            messages := messages + [ToolResult(call.id, outcome)];
            receipts := receipts + [Receipt(call.name, Denied, false, Truncate(outcome))];
          case Ok(tool) =>
            pending := Some(Pending(call.id, tool));
            drive := Drive(AwaitConfirm, [], receipts);
            return;
        }
      }
      drive := Drive(Plan(messages), [], receipts);
    }

    method Completed(shell: Shell, view: View, step: Step) returns (drive: Drive)
      modifies this
      ensures Turn(Snapshot(), drive) == OnCompletion(shell, old(Snapshot()), view, step)
    {
      rounds := if rounds < U8_MAX then rounds + 1 else U8_MAX;
      if rounds > MAX_ROUNDS {
        drive := GiveUp("stopped: planner round limit");
        return;
      }
      match step {
        case Final(text) =>
          if rounds < MAX_ROUNDS && (LastToolFailed(shell, messages) || shell.handsWorkBack(text)) {
            messages := messages + [User(NUDGE)];
            drive := Drive(Plan(messages), [], []);
          } else {
            drive := Drive(Finished(text), [], []);
          }
        case Calls(calls) =>
          if calls == [] {
            drive := GiveUp("planner returned an empty tool list");
          } else {
            messages := messages + [Assistant(calls)];
            queue := queue + calls;
            drive := DrainQueue(shell, view);
          }
      }
    }

    method Confirmed(shell: Shell, view: View, gate: string -> bool) returns (drive: Drive, view': View)
      modifies this
      ensures Acted(Turn(Snapshot(), drive), view') == Confirm(shell, old(Snapshot()), view, gate)
    {
      view' := view;
      if pending.None? {
        drive := GiveUp("nothing is waiting for confirm");
        return;
      }
      var p := pending.value;
      pending := None;
      if p.tool.capability != "" && !gate(p.tool.capability) {
        var outcome := NotChanged(p.tool.capability + " is not granted");
        messages := messages + [ToolResult(p.id, outcome)];
        queue := [];
        drive := Drive(Failed(outcome), [], [Receipt(p.tool.name, Denied, true, Truncate(outcome))]);
        return;
      }
      match shell.perform(p.tool, view) {
        case Ok((body, effects)) =>
          view' := ApplyEffects(view, effects);
          messages := messages + [ToolResult(p.id, Truncate(body))];
          drive := DrainQueue(shell, view');
          drive := Drive(drive.kind, effects + drive.effects,
                         [Receipt(p.tool.name, Allowed, true, Truncate(body))] + drive.receipts);
        case Err(err) =>
          var outcome := NotChanged(err);
          messages := messages + [ToolResult(p.id, outcome)];
          drive := DrainQueue(shell, view);
          drive := Drive(drive.kind, drive.effects,
                         [Receipt(p.tool.name, Denied, true, Truncate(outcome))] + drive.receipts);
      }
    }

    method Rejected(reason: string) returns (drive: Drive)
      modifies this
      ensures Turn(Snapshot(), drive) == Reject(old(Snapshot()), reason)
    {
      if pending.None? {
        drive := GiveUp(reason);
        return;
      }
      var p := pending.value;
      var outcome := NotChanged(reason);
      messages := messages + [ToolResult(p.id, outcome)];
      pending, queue := None, [];
      drive := Drive(Failed(outcome), [], [Receipt(p.tool.name, Denied, true, Truncate(outcome))]);
    }

    method CancelledByUser() returns (drive: Drive)
      modifies this
      ensures Turn(Snapshot(), drive) == Cancel(old(Snapshot()))
    {
      var receipts := [];
      if pending.Some? {
        var outcome := "Cancelled. Nothing was changed.";
        messages := messages + [ToolResult(pending.value.id, outcome)];
        receipts := [Receipt(pending.value.tool.name, Cancelled, false, outcome)];
      }
      pending, queue := None, [];
      drive := Drive(CancelledRun, [], receipts);
    }
  }

  // ---------------------------------------------------------------- the driver

  /** How a driven run ended, and what it used. */
  datatype Exit = ByDrive(kind: Kind) | PlannerError(error: string) | RoundLimit
  datatype Trace = Trace(exit: Exit, plannerCalls: nat, confirms: nat, iterations: nat)

  /** The budgets behind a drive: rounds bound planner calls, steps bound confirms. */
  predicate Budgeted(t: Turn) {
    t.state.acted <= MAX_STEPS &&
    (!t.drive.kind.Terminal() ==> t.state.rounds <= MAX_ROUNDS) &&
    t.state.rounds <= MAX_ROUNDS + 1 &&
    (t.drive.kind.AwaitConfirm? ==> t.state.acted > 0 && t.state.pending.Some?)
  }

  lemma {:induction false} DrainBudget(shell: Shell, s: State, view: View, receipts: seq<Receipt>)
    requires s.acted <= MAX_STEPS
    ensures var t := Drain(shell, s, view, receipts);
      s.acted <= t.state.acted <= MAX_STEPS && t.state.rounds == s.rounds &&
      (t.drive.kind.AwaitConfirm? ==> t.state.acted > s.acted && t.state.pending.Some?)
    decreases |s.queue|
  {
    if s.queue != [] && s.acted < MAX_STEPS {
      var call := s.queue[0];
      var s2 := s.(queue := s.queue[1..], acted := s.acted + 1);
      match shell.prepare(call, view) {
        case Err(err) =>
          var outcome := "tool error: " + err;
          DrainBudget(shell, Answer(s2, call.id, outcome), view,
                      receipts + [Receipt(call.name, Denied, false, Truncate(outcome))]);
        case Ok(tool) =>
      }
    }
  }

  lemma CompletionBudget(shell: Shell, t: Turn, view: View, step: Step)
    requires Budgeted(t) && t.state.rounds <= MAX_ROUNDS
    ensures var u := OnCompletion(shell, t.state, view, step);
      Budgeted(u) && u.state.rounds == t.state.rounds + 1 && u.state.acted >= t.state.acted &&
      (u.drive.kind.AwaitConfirm? ==> u.state.acted > t.state.acted)
  {
    var s1 := t.state.(rounds := t.state.rounds + 1);
    if step.Calls? {
      DrainBudget(shell, s1.(messages := s1.messages + [Assistant(step.calls)], queue := s1.queue + step.calls), view, []);
    }
  }

  lemma ConfirmBudget(shell: Shell, t: Turn, view: View, gate: string -> bool)
    requires Budgeted(t) && t.drive.kind.AwaitConfirm?
    ensures var u := Confirm(shell, t.state, view, gate).turn;
      Budgeted(u) && u.state.rounds == t.state.rounds && u.state.acted >= t.state.acted &&
      (u.drive.kind.AwaitConfirm? ==> u.state.acted > t.state.acted)
  {
    var p, s1 := t.state.pending.value, t.state.(pending := None);
    match shell.perform(p.tool, view) {
      case Ok((body, effects)) =>
        DrainBudget(shell, Answer(s1, p.id, Truncate(body)), ApplyEffects(view, effects), []);
      case Err(err) =>
        DrainBudget(shell, Answer(s1, p.id, NotChanged(err)), view, []);
    }
  }

  /** What surrounds a run: the shell and the gate of each round of the loop, and the planner's answer
      to each of its calls. */
  datatype Outside = Outside(
    shells: nat -> Shell,
    planner: (nat, seq<Message>) -> Result<Step, string>,
    gate: (nat, string) -> bool
  )

  function GateAt(out: Outside, i: nat): string -> bool {
    capability => out.gate(i, capability)
  }

  /** The rest of a driven run, from round `i` of the loop. */
  function Driven(out: Outside, w: World, plannerCalls: nat, confirms: nat, i: nat): Trace
    decreases DRIVE_LIMIT - i
  {
    if i >= DRIVE_LIMIT then Trace(RoundLimit, plannerCalls, confirms, i) else
      match w.turn.drive.kind
      case Plan(messages) =>
        (match out.planner(plannerCalls, messages)
         case Err(error) => Trace(PlannerError(error), plannerCalls + 1, confirms, i + 1)
         case Ok(step) => Driven(out, Perform(w, Complete(out.shells(i), step)), plannerCalls + 1, confirms, i + 1))
      case AwaitConfirm =>
        Driven(out, Perform(w, ConfirmNow(out.shells(i), GateAt(out, i))), plannerCalls, confirms + 1, i + 1)
      case kind => Trace(ByDrive(kind), plannerCalls, confirms, i + 1)
  }

  lemma DrivenStep(out: Outside, w: World, plannerCalls: nat, confirms: nat, i: nat)
    requires i < DRIVE_LIMIT
    ensures Driven(out, w, plannerCalls, confirms, i) ==
      match w.turn.drive.kind
      case Plan(messages) =>
        (match out.planner(plannerCalls, messages)
         case Err(error) => Trace(PlannerError(error), plannerCalls + 1, confirms, i + 1)
         case Ok(step) => Driven(out, Perform(w, Complete(out.shells(i), step)), plannerCalls + 1, confirms, i + 1))
      case AwaitConfirm =>
        Driven(out, Perform(w, ConfirmNow(out.shells(i), GateAt(out, i))), plannerCalls, confirms + 1, i + 1)
      case kind => Trace(ByDrive(kind), plannerCalls, confirms, i + 1)
  {}

  /** Run one utterance to its end. The planner, the shell and the gate may answer differently at each
      call. */
  method DriveUntilDone(out: Outside, utterance: string, view0: View) returns (trace: Trace)
    ensures trace == Driven(out, World(Start(utterance), view0), 0, 0, 0)
    ensures !trace.exit.RoundLimit?
    ensures trace.plannerCalls <= MAX_ROUNDS + 1 && trace.confirms <= MAX_STEPS && trace.iterations <= 22
    ensures trace.exit.ByDrive? ==> trace.exit.kind.Terminal()
  {
    hide OnCompletion, Confirm, Driven, GateAt;
    var agent := new ShellAgent();
    var view := view0;
    var plannerCalls, confirms := 0, 0;
    var drive := agent.Begin(utterance);
    trace := Trace(RoundLimit, 0, 0, DRIVE_LIMIT);
    for i := 0 to DRIVE_LIMIT
      invariant fresh(agent) && Budgeted(Turn(agent.Snapshot(), drive))
      invariant i == plannerCalls + confirms && plannerCalls == agent.rounds
      invariant confirms + (if drive.kind.AwaitConfirm? then 1 else 0) <= agent.acted
      invariant i == DRIVE_LIMIT ==> drive.kind.Terminal()
      invariant Driven(out, World(Start(utterance), view0), 0, 0, 0) ==
        Driven(out, World(Turn(agent.Snapshot(), drive), view), plannerCalls, confirms, i)
    {
      ghost var before := Turn(agent.Snapshot(), drive);
      DrivenStep(out, World(before, view), plannerCalls, confirms, i);
      var shell := out.shells(i);
      match drive.kind {
        case Plan(messages) =>
          var reply := out.planner(plannerCalls, messages);
          if reply.Err? {
            return Trace(PlannerError(reply.error), plannerCalls + 1, confirms, i + 1);
          }
          CompletionBudget(shell, before, view, reply.value);
          drive := agent.Completed(shell, view, reply.value);
          plannerCalls := plannerCalls + 1;
        case AwaitConfirm =>
          ConfirmBudget(shell, before, view, GateAt(out, i));
          drive, view := agent.Confirmed(shell, view, GateAt(out, i));
          confirms := confirms + 1;
        case _ =>
          return Trace(ByDrive(drive.kind), plannerCalls, confirms, i + 1);
      }
    }
    assert false;
  }

  // ---------------------------------------------------------------- the bounds are reached

  /** Every call can be prepared and succeeds; the planner asks for five calls, then for one each time. */
  function Busy(): Outside {
    var shell := Shell((call, view) => Ok(Tool("tool", "")), (tool, view) => Ok(("done", [])), text => false, text => false);
    Outside(i => shell, (n: nat, messages: seq<Message>) => Ok(Calls(BusyCalls(n))), (i, capability) => true)
  }

  function BusyCalls(n: nat): (calls: seq<Call>)
    ensures |calls| == if n == 0 then 5 else 1
    ensures forall k :: 0 <= k < |calls| ==> calls[k].id == "id"
  {
    seq(if n == 0 then 5 else 1, i => Call("id", "tool", ""))
  }

  /** After `r` rounds of the busy planner: four calls more than rounds are prepared or queued, all but the
      waiting one are confirmed, and the planner is asked again when the queue is empty. */
  predicate OnSchedule(w: World, plannerCalls: nat, confirms: nat, i: nat) {
    var s, kind := w.turn.state, w.turn.drive.kind;
    i == plannerCalls + confirms && s.rounds == plannerCalls <= MAX_ROUNDS &&
    (forall k :: 0 <= k < |s.queue| ==> s.queue[k].id == "id") &&
    s.acted + |s.queue| == (if plannerCalls == 0 then 0 else plannerCalls + 4) &&
    match kind
    case Plan(_) => s.pending.None? && s.queue == [] && confirms == s.acted
    case AwaitConfirm => s.pending == Some(Pending("id", Tool("tool", ""))) && confirms + 1 == s.acted
    case _ => false
  }

  /** From any point on schedule the run ends with all three bounds reached. */
  lemma {:induction false} BusyFromHere(w: World, plannerCalls: nat, confirms: nat, i: nat)
    requires OnSchedule(w, plannerCalls, confirms, i)
    ensures Driven(Busy(), w, plannerCalls, confirms, i) ==
      Trace(ByDrive(Failed("stopped: planner round limit")), MAX_ROUNDS + 1, MAX_STEPS, 22)
    decreases DRIVE_LIMIT - i
  {
    hide OnSchedule, Perform, Driven;
    ScheduleKinds(w, plannerCalls, confirms, i);
    DrivenStep(Busy(), w, plannerCalls, confirms, i);
    if w.turn.drive.kind.Plan? {
      var v := Perform(w, Complete(Busy().shells(i), Calls(BusyCalls(plannerCalls))));
      BusyCompletes(w, plannerCalls, confirms, i);
      if plannerCalls < MAX_ROUNDS {
        BusyFromHere(v, plannerCalls + 1, confirms, i + 1);
      } else {
        DrivenStep(Busy(), v, plannerCalls + 1, confirms, i + 1);
      }
    } else {
      BusyConfirms(w, plannerCalls, confirms, i);
      BusyFromHere(Perform(w, ConfirmNow(Busy().shells(i), GateAt(Busy(), i))), plannerCalls, confirms + 1, i + 1);
    }
  }

  lemma ScheduleKinds(w: World, plannerCalls: nat, confirms: nat, i: nat)
    requires OnSchedule(w, plannerCalls, confirms, i)
    ensures (w.turn.drive.kind.Plan? || w.turn.drive.kind.AwaitConfirm?) && plannerCalls <= MAX_ROUNDS
    ensures i < DRIVE_LIMIT - 1 && (w.turn.drive.kind.Plan? && plannerCalls == MAX_ROUNDS ==> confirms == MAX_STEPS && i == 20)
  {}

  /** The first call of the queue can be prepared, so it waits for confirm. */
  lemma BusyDrains(s: State, view: View, i: nat)
    requires s.queue != [] ==> s.acted < MAX_STEPS && s.queue[0].id == "id"
    ensures var t := Drain(Busy().shells(i), s, view, []);
      (s.queue == [] ==> t == Turn(s, Drive(Plan(s.messages), [], []))) &&
      (s.queue != [] ==> t.drive.kind == AwaitConfirm) &&
      (s.queue != [] ==>
        t.state == s.(queue := s.queue[1..], acted := s.acted + 1, pending := Some(Pending("id", Tool("tool", "")))))
  {}

  lemma BusyCompletes(w: World, plannerCalls: nat, confirms: nat, i: nat)
    requires OnSchedule(w, plannerCalls, confirms, i) && w.turn.drive.kind.Plan?
    ensures var v := Perform(w, Complete(Busy().shells(i), Calls(BusyCalls(plannerCalls))));
      if plannerCalls < MAX_ROUNDS then OnSchedule(v, plannerCalls + 1, confirms, i + 1)
      else v.turn.drive.kind == Failed("stopped: planner round limit")
  {
    hide Drain;
    var s, calls := w.turn.state, BusyCalls(plannerCalls);
    assert s.queue + calls == calls;
    if plannerCalls < MAX_ROUNDS {
      BusyDrains(s.(rounds := s.rounds + 1, messages := s.messages + [Assistant(calls)], queue := calls), w.view, i);
    }
  }

  lemma BusyConfirms(w: World, plannerCalls: nat, confirms: nat, i: nat)
    requires OnSchedule(w, plannerCalls, confirms, i) && w.turn.drive.kind.AwaitConfirm?
    ensures OnSchedule(Perform(w, ConfirmNow(Busy().shells(i), GateAt(Busy(), i))), plannerCalls, confirms + 1, i + 1)
  {
    hide Drain, ApplyEffects;
    var s := w.turn.state;
    BusyDrains(Answer(s.(pending := None), "id", Truncate("done")), ApplyEffects(w.view, []), i);
  }

  /** No smaller bounds hold for the driver: some run makes 9 planner calls and 12 confirms in 22 rounds. */
  lemma BoundsAreReached(utterance: string, view: View)
    ensures var trace := Driven(Busy(), World(Start(utterance), view), 0, 0, 0);
      trace.plannerCalls == MAX_ROUNDS + 1 && trace.confirms == MAX_STEPS && trace.iterations == 22
  {
    BusyFromHere(World(Start(utterance), view), 0, 0, 0);
  }
}
