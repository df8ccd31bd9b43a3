// The guards of one agent run: the stall watchdog over in-flight tools, and the
// budgets of re-prompts and aborts that the handlers of a settlement reset.
module RunGuards {

  const STALL_TIMEOUT_MS := 360_000
  const STALL_TOOL_MARGIN_MS := 15_000
  const STALL_RETRY_CAP := 2
  const HUNG_TOOL_ABORT_CAP := 1
  const GARBLED_RETRY_CAP := 2
  const ERROR_CONTINUATION_CAP := 6

  // An in-flight tool call; declaredMs is 0 when it declares no timeout.
  datatype Tool = Tool(id: string, startedAt: nat, declaredMs: nat)

  datatype Option<T> = None | Some(value: T)

  datatype Intervention = GarbledPrompt | ContinuePrompt | StallPrompt | HungAbort

  datatype Guards = Guards(
    now: nat,
    lastActivity: nat,               // stallLastActivity
    active: bool,                    // stallActive
    stallRetries: nat,
    hungToolAborts: nat,
    tools: seq<Tool>,                // inFlightTools, in insertion order
    garbledRetries: nat,
    streamGarbled: bool,
    lastTurnHadError: bool,
    errorRetries: nat,               // errorContinuationRetries
    interventions: seq<Intervention> // those whose budget has not been reset since
  )

  const INITIAL := Guards(0, 0, false, 0, 0, [], 0, false, false, 0, [])

  // An assistant message at the end of a turn: what the heuristics say of it.
  datatype Turn = Turn(aborted: bool, garbled: bool, toolError: bool, hasToolCall: bool, complete: bool)

  datatype Event =
    | Tick(ms: nat)
    | TurnStart
    | MessageUpdate(assistant: bool, garbled: bool)
    | ToolStart(id: string, declaredMs: nat)
    | ToolUpdate(id: string, declaredMs: nat)
    | ToolEnd(id: string)
    | TurnEnd(turn: Turn)
    | Poll
    | AgentEnd         // also the first of the handlers of a settlement
    | GarbledSettled   // the three that reset budgets
    | ErrorsSettled
    | StallSettled
    | SessionStart

  // --- The map of in-flight tools ------------------------------------------

  function Max(x: nat, y: nat): nat {
    if x >= y then x else y
  }

  // Map.set: in place for a known key, appended for a new one.
  function Put(tools: seq<Tool>, tool: Tool): seq<Tool> {
    if tools == [] then [tool]
    else if tools[0].id == tool.id then [tool] + tools[1..]
    else [tools[0]] + Put(tools[1..], tool)
  }

  function Delete(tools: seq<Tool>, id: string): seq<Tool> {
    if tools == [] then []
    else if tools[0].id == id then tools[1..]
    else [tools[0]] + Delete(tools[1..], id)
  }

  // The entry of a tool update: it keeps the start and the longest declared time.
  function Updated(tools: seq<Tool>, id: string, declaredMs: nat, now: nat): Tool {
    if tools == [] then Tool(id, now, declaredMs)
    else if tools[0].id == id then Tool(id, tools[0].startedAt, Max(tools[0].declaredMs, declaredMs))
    else Updated(tools[1..], id, declaredMs, now)
  }

  // The longest wait: the watchdog's own, or a declared timeout plus the margin.
  function Deadline(tools: seq<Tool>): nat {
    if tools == [] then STALL_TIMEOUT_MS
    else
      var last := tools[|tools| - 1];
      var before := Deadline(tools[..|tools| - 1]);
      if last.declaredMs > 0 then Max(before, last.declaredMs + STALL_TOOL_MARGIN_MS) else before
  }

  predicate AllDeclared(tools: seq<Tool>) {
    forall t <- tools :: t.declaredMs > 0
  }

  // --- Steps ---------------------------------------------------------------

  function Touch(g: Guards): Guards {
    g.(lastActivity := g.now)
  }

  function EndStall(g: Guards): Guards {
    g.(active := false, tools := [])
  }

  function Intervene(g: Guards, what: Intervention): Guards {
    g.(interventions := g.interventions + [what])
  }

  function Without(log: seq<Intervention>, what: Intervention): seq<Intervention> {
    if log == [] then []
    else Without(log[..|log| - 1], what) + (if log[|log| - 1] == what then [] else [log[|log| - 1]])
  }

  function Forget(g: Guards, what: Intervention): Guards {
    g.(interventions := Without(g.interventions, what))
  }

  predicate PollIsDue(g: Guards) {
    var elapsed := g.now - g.lastActivity;
    && g.active && elapsed > STALL_TIMEOUT_MS
    && (g.tools != [] && AllDeclared(g.tools) ==> elapsed > Deadline(g.tools))
  }

  function DoPoll(g: Guards): Guards {
    if !PollIsDue(g) then g
    else if g.tools != [] then
      if g.hungToolAborts >= HUNG_TOOL_ABORT_CAP then EndStall(g)
      else EndStall(Intervene(g.(hungToolAborts := g.hungToolAborts + 1), HungAbort))
    else if g.stallRetries >= STALL_RETRY_CAP then EndStall(g)
    else Intervene(g.(stallRetries := g.stallRetries + 1), StallPrompt)
  }

  // Leaked tool-call markup.
  function GarbledEnd(g: Guards, t: Turn): Guards {
    if t.aborted || (!g.streamGarbled && !t.garbled) then g
    else if g.garbledRetries >= GARBLED_RETRY_CAP then g.(streamGarbled := false)
    else Intervene(g.(streamGarbled := false, garbledRetries := g.garbledRetries + 1), GarbledPrompt)
  }

  // A text-only reply after a tool error.
  function ErrorEnd(g: Guards, t: Turn): Guards {
    if !(g.lastTurnHadError && !t.hasToolCall && !t.toolError) then g.(lastTurnHadError := t.toolError)
    else if t.aborted then g
    else if t.complete then g.(lastTurnHadError := false)
    else if g.errorRetries < ERROR_CONTINUATION_CAP
    then Intervene(g.(errorRetries := g.errorRetries + 1), ContinuePrompt)
    else g.(lastTurnHadError := false)
  }

  function Step(g: Guards, e: Event): Guards {
    match e
    case Tick(ms) => g.(now := g.now + ms)
    case TurnStart => Touch(g.(active := true))
    case MessageUpdate(assistant, garbled) => Touch(if assistant && garbled then g.(streamGarbled := true) else g)
    case ToolStart(id, declaredMs) => Touch(g.(tools := Put(g.tools, Tool(id, g.now, declaredMs))))
    case ToolUpdate(id, declaredMs) => Touch(g.(tools := Put(g.tools, Updated(g.tools, id, declaredMs, g.now))))
    case ToolEnd(id) => Touch(g.(tools := Delete(g.tools, id)))
    case TurnEnd(turn) => ErrorEnd(GarbledEnd(g, turn), turn)
    case Poll => DoPoll(g)
    case AgentEnd => EndStall(g)
    case GarbledSettled => Forget(g, GarbledPrompt).(garbledRetries := 0)
    case ErrorsSettled => Forget(g, ContinuePrompt).(lastTurnHadError := false, errorRetries := 0)
    case StallSettled => EndStall(Forget(Forget(g, StallPrompt), HungAbort)).(stallRetries := 0, hungToolAborts := 0)
    case SessionStart => g.(streamGarbled := false)
  }

  function Run(g: Guards, events: seq<Event>): Guards
    decreases |events|
  {
    if events == [] then g else Run(Step(g, events[0]), events[1..])
  }

  // --- Budgets -------------------------------------------------------------

  function Count(log: seq<Intervention>, what: Intervention): nat {
    if log == [] then 0
    else Count(log[..|log| - 1], what) + (if log[|log| - 1] == what then 1 else 0)
  }

  // The log holds as many of each kind as its budget has spent, none overspent.
  ghost predicate Spent(log: seq<Intervention>, garbled: nat, errors: nat, stalls: nat, aborts: nat) {
    && Count(log, GarbledPrompt) == garbled <= GARBLED_RETRY_CAP
    && Count(log, ContinuePrompt) == errors <= ERROR_CONTINUATION_CAP
    && Count(log, StallPrompt) == stalls <= STALL_RETRY_CAP
    && Count(log, HungAbort) == aborts <= HUNG_TOOL_ABORT_CAP
  }

  ghost predicate BudgetsKept(g: Guards) {
    Spent(g.interventions, g.garbledRetries, g.errorRetries, g.stallRetries, g.hungToolAborts)
  }

  lemma CountSnoc(log: seq<Intervention>, what: Intervention, other: Intervention)
    ensures Count(log + [what], other) == Count(log, other) + (if other == what then 1 else 0)
  {
    assert (log + [what])[..|log|] == log;
  }

  // One more intervention counts for its own budget and for no other.
  lemma InterveneCounts(log: seq<Intervention>, what: Intervention)
    ensures forall other :: Count(log + [what], other) == Count(log, other) + (if other == what then 1 else 0)
  {
    forall other {
      CountSnoc(log, what, other);
    }
  }

  // A reset takes one kind out of the log and leaves the others.
  lemma {:induction false} ForgetCounts(log: seq<Intervention>, what: Intervention)
    ensures forall other :: Count(Without(log, what), other) == if other == what then 0 else Count(log, other)
  {
    if log != [] {
      var before := Without(log[..|log| - 1], what);
      ForgetCounts(log[..|log| - 1], what);
      InterveneCounts(before, log[|log| - 1]);
      assert before + [] == before;
    }
  }

  lemma PollKeepsBudgets(g: Guards)
    requires BudgetsKept(g)
    ensures BudgetsKept(DoPoll(g))
  {
    if PollIsDue(g) {
      if g.tools != [] && g.hungToolAborts < HUNG_TOOL_ABORT_CAP {
        SpendAbort(g);
      } else if g.tools == [] && g.stallRetries < STALL_RETRY_CAP {
        SpendStall(g);
      }
    }
  }

  lemma SpendAbort(g: Guards)
    requires BudgetsKept(g) && g.hungToolAborts < HUNG_TOOL_ABORT_CAP
    ensures BudgetsKept(EndStall(Intervene(g.(hungToolAborts := g.hungToolAborts + 1), HungAbort)))
  {
    InterveneCounts(g.interventions, HungAbort);
  }

  lemma SpendStall(g: Guards)
    requires BudgetsKept(g) && g.stallRetries < STALL_RETRY_CAP
    ensures BudgetsKept(Intervene(g.(stallRetries := g.stallRetries + 1), StallPrompt))
  {
    InterveneCounts(g.interventions, StallPrompt);
  }

  lemma GarbledEndKeepsBudgets(g: Guards, t: Turn)
    requires BudgetsKept(g)
    ensures BudgetsKept(GarbledEnd(g, t))
  {
    InterveneCounts(g.interventions, GarbledPrompt);
  }

  lemma ErrorEndKeepsBudgets(g: Guards, t: Turn)
    requires BudgetsKept(g)
    ensures BudgetsKept(ErrorEnd(g, t))
  {
    InterveneCounts(g.interventions, ContinuePrompt);
  }

  lemma StepKeepsBudgets(g: Guards, e: Event)
    requires BudgetsKept(g)
    ensures BudgetsKept(Step(g, e))
  {
    match e
    case Poll => PollKeepsBudgets(g);
    case TurnEnd(turn) =>
      GarbledEndKeepsBudgets(g, turn);
      ErrorEndKeepsBudgets(GarbledEnd(g, turn), turn);
    case GarbledSettled => ForgetCounts(g.interventions, GarbledPrompt);
    case ErrorsSettled => ForgetCounts(g.interventions, ContinuePrompt);
    case StallSettled =>
      ForgetCounts(g.interventions, StallPrompt);
      ForgetCounts(Without(g.interventions, StallPrompt), HungAbort);
    case _ =>
  }

  // Since the handler that resets its budget last ran there have been at most 2
  // garbled, 6 error-continuation and 2 stall re-prompts, and 1 hung-tool abort.
  lemma {:induction false} EveryRunKeepsBudgets(g: Guards, events: seq<Event>)
    requires BudgetsKept(g)
    ensures BudgetsKept(Run(g, events))
    decreases |events|
  {
    if events != [] {
      StepKeepsBudgets(g, events[0]);
      EveryRunKeepsBudgets(Step(g, events[0]), events[1..]);
    }
  }

  // --- Following up a failed tool call -------------------------------------

  // Anything but another turn's end or the reset of this budget.
  predicate BetweenTurns(e: Event) {
    !e.TurnEnd? && !e.ErrorsSettled?
  }

  ghost predicate AllBetweenTurns(events: seq<Event>) {
    forall i :: 0 <= i < |events| ==> BetweenTurns(events[i])
  }

  lemma StepHoldsLatch(g: Guards, e: Event)
    requires BetweenTurns(e)
    ensures Step(g, e).lastTurnHadError == g.lastTurnHadError && Step(g, e).errorRetries == g.errorRetries
  {
  }

  lemma {:induction false} LatchHoldsBetweenTurns(g: Guards, events: seq<Event>)
    requires AllBetweenTurns(events)
    ensures Run(g, events).lastTurnHadError == g.lastTurnHadError && Run(g, events).errorRetries == g.errorRetries
    decreases |events|
  {
    if events != [] {
      StepHoldsLatch(g, events[0]);
      assert forall i :: 0 <= i < |events[1..]| ==> events[1..][i] == events[i + 1];
      LatchHoldsBetweenTurns(Step(g, events[0]), events[1..]);
    }
  }

  // A text-only reply that does not read like a completion.
  predicate GivesUp(t: Turn) {
    !t.aborted && !t.toolError && !t.hasToolCall && !t.complete
  }

  // After a turn whose tool call failed, every reply that gives up is answered
  // by a re-prompt until the budget is spent, however many such replies follow.
  lemma {:induction false} FailedCallIsFollowedUp(
    g: Guards, failed: Turn, pauses: seq<seq<Event>>, replies: seq<Turn>)
    requires BudgetsKept(g) && failed.toolError && |pauses| == |replies|
    requires forall i :: 0 <= i < |replies| ==> GivesUp(replies[i]) && AllBetweenTurns(pauses[i])
    requires g.errorRetries + |replies| <= ERROR_CONTINUATION_CAP
    ensures
      var after := Replies(Step(g, TurnEnd(failed)), pauses, replies);
      after.lastTurnHadError && after.errorRetries == g.errorRetries + |replies|
      && Count(after.interventions, ContinuePrompt) == g.errorRetries + |replies|
    decreases |replies|
  {
    var n := |replies|;
    StepKeepsBudgets(g, TurnEnd(failed));
    if n > 0 {
      var first := Step(g, TurnEnd(failed));
      FailedCallIsFollowedUp(g, failed, pauses[..n - 1], replies[..n - 1]);
      RepliesKeepBudgets(first, pauses[..n - 1], replies[..n - 1]);
      OneMoreReply(Replies(first, pauses[..n - 1], replies[..n - 1]), pauses[n - 1], replies[n - 1]);
    }
  }

  lemma OneMoreReply(g: Guards, pause: seq<Event>, reply: Turn)
    requires BudgetsKept(g) && AllBetweenTurns(pause) && GivesUp(reply)
    requires g.lastTurnHadError && g.errorRetries < ERROR_CONTINUATION_CAP
    ensures
      var after := Step(Run(g, pause), TurnEnd(reply));
      after.lastTurnHadError && after.errorRetries == g.errorRetries + 1 && BudgetsKept(after)
  {
    LatchHoldsBetweenTurns(g, pause);
    EveryRunKeepsBudgets(g, pause);
    StepKeepsBudgets(Run(g, pause), TurnEnd(reply));
  }

  // Each pause followed by its reply.
  function Replies(g: Guards, pauses: seq<seq<Event>>, replies: seq<Turn>): Guards
    requires |pauses| == |replies|
    decreases |replies|
  {
    var n := |replies|;
    if n == 0 then g
    else Step(Run(Replies(g, pauses[..n - 1], replies[..n - 1]), pauses[n - 1]), TurnEnd(replies[n - 1]))
  }

  lemma {:induction false} RepliesKeepBudgets(g: Guards, pauses: seq<seq<Event>>, replies: seq<Turn>)
    requires BudgetsKept(g) && |pauses| == |replies|
    ensures BudgetsKept(Replies(g, pauses, replies))
    decreases |replies|
  {
    var n := |replies|;
    if n > 0 {
      RepliesKeepBudgets(g, pauses[..n - 1], replies[..n - 1]);
      var before := Replies(g, pauses[..n - 1], replies[..n - 1]);
      EveryRunKeepsBudgets(before, pauses[n - 1]);
      StepKeepsBudgets(Run(before, pauses[n - 1]), TurnEnd(replies[n - 1]));
    }
  }

  // --- The watchdog --------------------------------------------------------

  // Each tool started no later than the last activity, which is not in the future.
  ghost predicate ClockKept(g: Guards) {
    g.lastActivity <= g.now && forall t <- g.tools :: t.startedAt <= g.lastActivity
  }

  lemma {:induction false} PutMembers(tools: seq<Tool>, tool: Tool)
    ensures forall t :: t in Put(tools, tool) ==> t == tool || t in tools
  {
    if tools != [] {
      PutMembers(tools[1..], tool);
    }
  }

  lemma {:induction false} DeleteMembers(tools: seq<Tool>, id: string)
    ensures forall t :: t in Delete(tools, id) ==> t in tools
  {
    if tools != [] {
      DeleteMembers(tools[1..], id);
    }
  }

  lemma {:induction false} UpdatedStart(tools: seq<Tool>, id: string, declaredMs: nat, now: nat)
    ensures
      var u := Updated(tools, id, declaredMs, now);
      u.startedAt == now || exists t :: t in tools && t.startedAt == u.startedAt
  {
    if tools != [] {
      UpdatedStart(tools[1..], id, declaredMs, now);
      assert tools[0] in tools;
    }
  }

  lemma PutKeepsClock(g: Guards, tool: Tool)
    requires ClockKept(g) && tool.startedAt <= g.now
    ensures ClockKept(Touch(g.(tools := Put(g.tools, tool))))
  {
    PutMembers(g.tools, tool);
  }

  lemma DeleteKeepsClock(g: Guards, id: string)
    requires ClockKept(g)
    ensures ClockKept(Touch(g.(tools := Delete(g.tools, id))))
  {
    DeleteMembers(g.tools, id);
  }

  lemma StepKeepsClock(g: Guards, e: Event)
    requires ClockKept(g)
    ensures ClockKept(Step(g, e))
  {
    match e
    case ToolStart(id, declaredMs) => PutKeepsClock(g, Tool(id, g.now, declaredMs));
    case ToolUpdate(id, declaredMs) =>
      UpdatedStart(g.tools, id, declaredMs, g.now);
      PutKeepsClock(g, Updated(g.tools, id, declaredMs, g.now));
    case ToolEnd(id) => DeleteKeepsClock(g, id);
    case _ =>
  }

  lemma {:induction false} EveryRunKeepsClock(g: Guards, events: seq<Event>)
    requires ClockKept(g)
    ensures ClockKept(Run(g, events))
    decreases |events|
  {
    if events != [] {
      StepKeepsClock(g, events[0]);
      EveryRunKeepsClock(Step(g, events[0]), events[1..]);
    }
  }

  lemma {:induction false} DeadlineCovers(tools: seq<Tool>, t: Tool)
    ensures Deadline(tools) >= STALL_TIMEOUT_MS
    ensures t in tools && t.declaredMs > 0 ==> t.declaredMs + STALL_TOOL_MARGIN_MS <= Deadline(tools)
  {
    if tools != [] {
      DeadlineCovers(tools[..|tools| - 1], t);
      assert tools == tools[..|tools| - 1] + [tools[|tools| - 1]];
    }
  }

  predicate Aborts(g: Guards, e: Event) {
    e == Poll && g.hungToolAborts < Step(g, e).hungToolAborts
  }

  // In every run, the watchdog aborts only after each in-flight tool has run
  // longer than 360 s, and longer than its own declared time plus 15 s when
  // every one of them declares a time.
  lemma AbortsOnlyOverdueTools(events: seq<Event>, t: Tool)
    requires
      var g := Run(INITIAL, events);
      Aborts(g, Poll) && t in g.tools
    ensures
      var g := Run(INITIAL, events);
      && g.now - t.startedAt > STALL_TIMEOUT_MS
      && (AllDeclared(g.tools) ==> g.now - t.startedAt > t.declaredMs + STALL_TOOL_MARGIN_MS)
  {
    var g := Run(INITIAL, events);
    EveryRunKeepsClock(INITIAL, events);
    DeadlineCovers(g.tools, t);
  }

  // No tool's declared time has run out short of its margin.
  predicate WaitedOut(g: Guards) {
    forall t <- g.tools :: t.declaredMs > 0 ==> g.now - g.lastActivity > t.declaredMs + STALL_TOOL_MARGIN_MS
  }

  function LatestStart(tools: seq<Tool>): (latest: nat)
    ensures forall t <- tools :: t.startedAt <= latest
  {
    if tools == [] then 0
    else
      assert tools == [tools[0]] + tools[1..];
      Max(tools[0].startedAt, LatestStart(tools[1..]))
  }

  // Every abort over these tools, with a clock as every run keeps it, waits out
  // every declared time, if and only if all of them declare one or none declares
  // more than the watchdog waits anyway.
  lemma DeclaredTimesAreWaitedOut(tools: seq<Tool>)
    ensures
      (forall g: Guards :: g.tools == tools && ClockKept(g) && Aborts(g, Poll) ==> WaitedOut(g)) <==>
      (AllDeclared(tools) || Deadline(tools) == STALL_TIMEOUT_MS)
  {
    if AllDeclared(tools) || Deadline(tools) == STALL_TIMEOUT_MS {
      forall g: Guards | g.tools == tools && ClockKept(g) && Aborts(g, Poll) ensures WaitedOut(g) {
        forall t <- tools {
          DeadlineCovers(tools, t);
        }
      }
    } else {
      var longest := DeadlineReached(tools);
      var start := LatestStart(tools);
      var g := INITIAL.(now := start + STALL_TIMEOUT_MS + 1, lastActivity := start, active := true, tools := tools);
      UndeclaredToolEndsTheWait(g);
      DeadlineCovers(tools, longest);
      assert ClockKept(g) && longest in g.tools && !WaitedOut(g);
    }
  }

  // Otherwise some tool's declared time is what the deadline comes from.
  lemma {:induction false} DeadlineReached(tools: seq<Tool>) returns (t: Tool)
    requires Deadline(tools) != STALL_TIMEOUT_MS
    ensures t in tools && t.declaredMs > 0 && t.declaredMs + STALL_TOOL_MARGIN_MS == Deadline(tools)
  {
    t := tools[|tools| - 1];
    if t.declaredMs == 0 || Deadline(tools) != t.declaredMs + STALL_TOOL_MARGIN_MS {
      t := DeadlineReached(tools[..|tools| - 1]);
    }
  }

  // One tool without a declared time is enough for the watchdog to abort, however
  // long the times are that the other tools declare.
  lemma UndeclaredToolEndsTheWait(g: Guards)
    requires !AllDeclared(g.tools)
    requires g.active && g.hungToolAborts < HUNG_TOOL_ABORT_CAP && g.now - g.lastActivity > STALL_TIMEOUT_MS
    ensures Aborts(g, Poll)
  {
  }

  // --- What the guards do --------------------------------------------------

  // A poll finds the run silent for longer than it may be.
  predicate Overdue(g: Guards) {
    var silence := g.now - g.lastActivity;
    g.active && silence > 360_000 && (g.tools == [] || !AllDeclared(g.tools) || silence > Deadline(g.tools))
  }

  // Exactly an overdue run is interrupted: by an abort if tools are in flight, else
  // by a re-prompt, within the budgets; the watch goes on only after a re-prompt.
  lemma PollExactly(g: Guards)
    ensures
      var after := Step(g, Poll);
      && after.interventions == g.interventions +
           (if Overdue(g) && g.tools != [] && g.hungToolAborts < 1 then [HungAbort]
            else if Overdue(g) && g.tools == [] && g.stallRetries < 2 then [StallPrompt]
            else [])
      && (after.active <==> g.active && (!Overdue(g) || (g.tools == [] && g.stallRetries < 2)))
      && after.tools == (if Overdue(g) then [] else g.tools)
  {
    assert g.interventions + [] == g.interventions;
  }

  // After a re-prompt the answer is awaited no longer than before it: a run that
  // stays silent is re-prompted at each poll until the budget is spent.
  lemma SilentRunIsReprompted(g: Guards, ms: nat)
    requires g.tools == [] && g.stallRetries == 0 && ms > 360_000
    ensures
      var after := Run(g, [TurnStart, Tick(ms), Poll, Poll]);
      after.interventions == g.interventions + [StallPrompt, StallPrompt] && after.active
      && !Step(after, Poll).active && Step(after, Poll).interventions == after.interventions
  {
    var silent := Step(Step(g, TurnStart), Tick(ms));
    var once := Step(silent, Poll);
    var twice := Step(once, Poll);
    assert once.interventions == g.interventions + [StallPrompt] && once.stallRetries == 1;
    assert Run(g, [TurnStart, Tick(ms), Poll, Poll]) == twice by {
      assert Run(twice, []) == twice;
      assert [Poll][1..] == [] && [Poll, Poll][1..] == [Poll] && [Tick(ms), Poll, Poll][1..] == [Poll, Poll];
      assert [TurnStart, Tick(ms), Poll, Poll][1..] == [Tick(ms), Poll, Poll];
      assert Run(once, [Poll]) == twice && Run(silent, [Poll, Poll]) == twice;
      assert Run(Step(g, TurnStart), [Tick(ms), Poll, Poll]) == twice;
    }
  }

  // A single silent tool is aborted exactly after 360 s, or after its own declared
  // time and 15 s if that is later.
  lemma HungToolIsAborted(g: Guards, id: string, declaredMs: nat, ms: nat)
    requires g.tools == [] && g.hungToolAborts == 0
    ensures
      var g1 := Step(Step(Step(g, TurnStart), ToolStart(id, declaredMs)), Tick(ms));
      Aborts(g1, Poll) <==> ms > 360_000 && (declaredMs > 0 ==> ms > declaredMs + 15_000)
  {
    var tool := Tool(id, g.now, declaredMs);
    assert Put([], tool) == [tool];
    assert [tool][..0] == [] && Deadline([tool][..0]) == STALL_TIMEOUT_MS;
    assert AllDeclared([tool]) <==> declaredMs > 0 by {
      assert tool in [tool];
    }
  }

  // What counts as activity, and when the watch is on.
  predicate Activity(e: Event) {
    e.TurnStart? || e.MessageUpdate? || e.ToolStart? || e.ToolUpdate? || e.ToolEnd?
  }

  lemma ActivityExactly(g: Guards, e: Event)
    ensures Step(g, e).lastActivity == if Activity(e) then g.now else g.lastActivity
    ensures Step(g, e).now == g.now + if e.Tick? then e.ms else 0
    ensures Step(g, e).active <==>
      || e.TurnStart? || (e == Poll && Step(g, Poll).active)
      || (g.active && e != Poll && !e.AgentEnd? && !e.StallSettled?)
  {
  }

  lemma {:induction false} ActivityIsKept(g: Guards, events: seq<Event>)
    requires g.lastActivity <= g.now
    ensures g.lastActivity <= Run(g, events).lastActivity <= Run(g, events).now && g.now <= Run(g, events).now
    decreases |events|
  {
    if events != [] {
      ActivityExactly(g, events[0]);
      ActivityIsKept(Step(g, events[0]), events[1..]);
    }
  }

  // Over every run, no poll does anything within 360 s of an activity.
  lemma NothingWithinTimeout(g: Guards, e: Event, events: seq<Event>)
    requires Activity(e) && Run(Step(g, e), events).now <= g.now + 360_000
    ensures Step(Run(Step(g, e), events), Poll) == Run(Step(g, e), events)
  {
    ActivityExactly(g, e);
    ActivityIsKept(Step(g, e), events);
  }

  // Nor after the end of the run, until a turn starts.
  lemma {:induction false} NothingAfterEnd(g: Guards, events: seq<Event>)
    requires !g.active && forall i :: 0 <= i < |events| ==> !events[i].TurnStart?
    ensures !Run(g, events).active && Step(Run(g, events), Poll) == Run(g, events)
    decreases |events|
  {
    if events != [] {
      ActivityExactly(g, events[0]);
      NothingAfterEnd(Step(g, events[0]), events[1..]);
    }
  }

  // The tool in flight under an id.
  function InFlight(tools: seq<Tool>, id: string): (t: Option<Tool>)
    ensures t.Some? ==> t.value in tools && t.value.id == id
    ensures t.None? ==> forall u <- tools :: u.id != id
  {
    if tools == [] then None
    else
      assert tools == [tools[0]] + tools[1..];
      if tools[0].id == id then Some(tools[0]) else InFlight(tools[1..], id)
  }

  predicate DistinctIds(tools: seq<Tool>) {
    forall i, j :: 0 <= i < j < |tools| ==> tools[i].id != tools[j].id
  }

  lemma DistinctTail(tools: seq<Tool>)
    requires tools != [] && DistinctIds(tools)
    ensures DistinctIds(tools[1..]) && InFlight(tools[1..], tools[0].id).None?
  {
    assert forall i :: 0 <= i < |tools[1..]| ==> tools[1..][i] == tools[i + 1];
  }

  lemma DistinctCons(tool: Tool, rest: seq<Tool>)
    requires DistinctIds(rest) && InFlight(rest, tool.id).None?
    ensures DistinctIds([tool] + rest)
  {
  }

  lemma {:induction false} PutExactly(tools: seq<Tool>, tool: Tool, id: string)
    ensures InFlight(Put(tools, tool), id) == if id == tool.id then Some(tool) else InFlight(tools, id)
    ensures DistinctIds(tools) ==> DistinctIds(Put(tools, tool))
  {
    if tools != [] && tools[0].id != tool.id {
      var rest := Put(tools[1..], tool);
      PutExactly(tools[1..], tool, id);
      PutExactly(tools[1..], tool, tools[0].id);
      assert Put(tools, tool)[0] == tools[0] && Put(tools, tool)[1..] == rest;
      if DistinctIds(tools) {
        DistinctTail(tools);
        DistinctCons(tools[0], rest);
      }
    }
  }

  lemma {:induction false} DeleteExactly(tools: seq<Tool>, gone: string, id: string)
    requires DistinctIds(tools)
    ensures InFlight(Delete(tools, gone), id) == if id == gone then None else InFlight(tools, id)
    ensures DistinctIds(Delete(tools, gone))
  {
    if tools != [] {
      assert tools == [tools[0]] + tools[1..];
      if tools[0].id == gone {
        assert forall u <- tools[1..] :: u.id != gone;
      } else {
        DeleteExactly(tools[1..], gone, id);
        DeleteExactly(tools[1..], gone, tools[0].id);
      }
    }
  }

  lemma {:induction false} UpdatedExactly(tools: seq<Tool>, id: string, declaredMs: nat, now: nat)
    ensures Updated(tools, id, declaredMs, now) ==
      match InFlight(tools, id)
      case None => Tool(id, now, declaredMs)
      case Some(t) => Tool(id, t.startedAt, if declaredMs <= t.declaredMs then t.declaredMs else declaredMs)
  {
    if tools != [] && tools[0].id != id {
      UpdatedExactly(tools[1..], id, declaredMs, now);
    }
  }

  // The tool in flight under an id after a step: with its start, kept through its
  // updates with the longest time declared, until it ends or the watch does.
  function InFlightAfter(g: Guards, e: Event, id: string): Option<Tool> {
    var before := InFlight(g.tools, id);
    if e.AgentEnd? || e.StallSettled? || (e == Poll && Overdue(g)) || e == ToolEnd(id) then None
    else if e.ToolStart? && e.id == id then Some(Tool(id, g.now, e.declaredMs))
    else if e.ToolUpdate? && e.id == id then
      if before.None? then Some(Tool(id, g.now, e.declaredMs))
      else Some(before.value.(declaredMs := Max(before.value.declaredMs, e.declaredMs)))
    else before
  }

  lemma ToolsExactly(g: Guards, e: Event, id: string)
    requires DistinctIds(g.tools)
    ensures DistinctIds(Step(g, e).tools)
    ensures InFlight(Step(g, e).tools, id) == InFlightAfter(g, e, id)
  {
    match e
    case ToolStart(i, ms) => PutExactly(g.tools, Tool(i, g.now, ms), id);
    case ToolUpdate(i, ms) =>
      UpdatedExactly(g.tools, i, ms, g.now);
      PutExactly(g.tools, Updated(g.tools, i, ms, g.now), id);
    case ToolEnd(i) => DeleteExactly(g.tools, i, id);
    case Poll => PollExactly(g);
    case _ => OtherToolsStay(g, e);
  }

  lemma OtherToolsStay(g: Guards, e: Event)
    requires !e.ToolStart? && !e.ToolUpdate? && !e.ToolEnd? && !e.Poll?
    ensures Step(g, e).tools == if e.AgentEnd? || e.StallSettled? then [] else g.tools
  {
  }

  // A turn whose text or stream held garbled calls is re-prompted within its
  // budget, and so is a reply that gives up after a failed call within its own.
  lemma TurnEndExactly(g: Guards, t: Turn)
    ensures
      var after := Step(g, TurnEnd(t));
      var garbled := !t.aborted && (g.streamGarbled || t.garbled) && g.garbledRetries < 2;
      var givesUp := g.lastTurnHadError && GivesUp(t) && g.errorRetries < 6;
      && after.interventions == g.interventions +
           ((if garbled then [GarbledPrompt] else []) + (if givesUp then [ContinuePrompt] else []))
      && (after.streamGarbled <==> g.streamGarbled && t.aborted)
      && (after.lastTurnHadError <==>
            t.toolError || givesUp || (g.lastTurnHadError && t.aborted && !t.hasToolCall))
  {
    assert g.interventions + [] == g.interventions;
  }

  // Between turns and polls, a settlement gives back each budget, a failed call is
  // forgotten with its budget, and garbled text with the session.
  lemma ResetsExactly(g: Guards, e: Event)
    requires !e.TurnEnd? && !e.Poll?
    ensures
      var after := Step(g, e);
      && after.garbledRetries == (if e.GarbledSettled? then 0 else g.garbledRetries)
      && after.errorRetries == (if e.ErrorsSettled? then 0 else g.errorRetries)
      && after.stallRetries == (if e.StallSettled? then 0 else g.stallRetries)
      && after.hungToolAborts == (if e.StallSettled? then 0 else g.hungToolAborts)
      && (after.lastTurnHadError <==> g.lastTurnHadError && !e.ErrorsSettled?)
      && (after.streamGarbled <==> (g.streamGarbled && !e.SessionStart?) || e == MessageUpdate(true, true))
  {
  }

  // Garbled text in the stream is remembered until the turn ends.
  predicate KeepsStream(e: Event) {
    !e.TurnEnd? && !e.SessionStart?
  }

  lemma {:induction false} StreamIsKept(g: Guards, events: seq<Event>)
    requires g.streamGarbled && forall i :: 0 <= i < |events| ==> KeepsStream(events[i])
    ensures Run(g, events).streamGarbled
    decreases |events|
  {
    if events != [] {
      StepKeepsStream(g, events[0]);
      StreamIsKept(Step(g, events[0]), events[1..]);
    }
  }

  lemma StepKeepsStream(g: Guards, e: Event)
    requires KeepsStream(e)
    ensures Step(g, e).streamGarbled <==> g.streamGarbled || e == MessageUpdate(true, true)
  {
  }

  // Over every run: garbled text streamed by the assistant is answered by a
  // re-prompt when the turn ends, unless it was aborted or the budget is spent.
  lemma GarbledStreamIsReprompted(g: Guards, pause: seq<Event>, t: Turn)
    requires !t.aborted && forall i :: 0 <= i < |pause| ==> KeepsStream(pause[i])
    ensures
      var ending := Run(Step(g, MessageUpdate(true, true)), pause);
      ending.garbledRetries < 2 ==>
        Count(Step(ending, TurnEnd(t)).interventions, GarbledPrompt) == Count(ending.interventions, GarbledPrompt) + 1
  {
    StreamIsKept(Step(g, MessageUpdate(true, true)), pause);
    var ending := Run(Step(g, MessageUpdate(true, true)), pause);
    if ending.garbledRetries < 2 {
      TurnEndExactly(ending, t);
      InterveneCounts(ending.interventions, GarbledPrompt);
      InterveneCounts(ending.interventions + [GarbledPrompt], ContinuePrompt);
      GarbledOnce(ending, t);
    }
  }

  lemma GarbledOnce(g: Guards, t: Turn)
    requires !t.aborted && g.streamGarbled && g.garbledRetries < 2
    ensures
      var after := Step(g, TurnEnd(t)).interventions;
      after == g.interventions + [GarbledPrompt] || after == g.interventions + [GarbledPrompt] + [ContinuePrompt]
  {
    TurnEndExactly(g, t);
    var log := g.interventions;
    assert log + ([GarbledPrompt] + [ContinuePrompt]) == log + [GarbledPrompt] + [ContinuePrompt];
    assert [GarbledPrompt] + [] == [GarbledPrompt];
  }

  // --- The closure variables and the handlers -------------------------------

  class RunGuard {
    var clock: nat
    var stallLastActivity: nat
    var stallActive: bool
    var stallRetries: nat
    var hungToolAborts: nat
    var inFlightTools: seq<Tool>
    var garbledRetries: nat
    var streamGarbled: bool
    var lastTurnHadError: bool
    var errorContinuationRetries: nat
    var interventions: seq<Intervention>

    ghost function Now(): Guards
      reads this
    {
      Guards(clock, stallLastActivity, stallActive, stallRetries, hungToolAborts, inFlightTools,
             garbledRetries, streamGarbled, lastTurnHadError, errorContinuationRetries, interventions)
    }

    constructor ()
      ensures Now() == INITIAL
    {
      clock, stallLastActivity, stallActive, stallRetries, hungToolAborts, inFlightTools := 0, 0, false, 0, 0, [];
      garbledRetries, streamGarbled, lastTurnHadError, errorContinuationRetries := 0, false, false, 0;
      interventions := [];
    }

    method StallEnd()
      modifies this`stallActive, this`inFlightTools
      ensures Now() == EndStall(old(Now()))
    {
      stallActive, inFlightTools := false, [];
    }

    // The longest wait, and whether some tool declares none.
    method EffectiveDeadline() returns (deadline: nat, undeclared: bool)
      ensures deadline == Deadline(inFlightTools) && undeclared == !AllDeclared(inFlightTools)
    {
      deadline, undeclared := STALL_TIMEOUT_MS, false;
      for i := 0 to |inFlightTools|
        invariant deadline == Deadline(inFlightTools[..i]) && undeclared == !AllDeclared(inFlightTools[..i])
      {
        DeadlineSnoc(inFlightTools[..i], inFlightTools[i]);
        assert inFlightTools[..i + 1] == inFlightTools[..i] + [inFlightTools[i]];
        var info := inFlightTools[i];
        if info.declaredMs > 0 {
          deadline := Max(deadline, info.declaredMs + STALL_TOOL_MARGIN_MS);
        } else {
          undeclared := true;
        }
      }
      assert inFlightTools[..|inFlightTools|] == inFlightTools;
    }

    method OnPoll()
      requires stallLastActivity <= clock
      modifies this
      ensures Now() == DoPoll(old(Now()))
    {
      if !stallActive {
        return;
      }
      var elapsed := clock - stallLastActivity;
      var deadline, undeclared := EffectiveDeadline();
      if inFlightTools != [] && !undeclared && elapsed <= deadline {
        return;
      }
      if elapsed <= STALL_TIMEOUT_MS {
        return;
      }
      if inFlightTools != [] {
        if hungToolAborts < HUNG_TOOL_ABORT_CAP {
          hungToolAborts := hungToolAborts + 1;
          interventions := interventions + [HungAbort];
        }
        StallEnd();
      } else if stallRetries >= STALL_RETRY_CAP {
        StallEnd();
      } else {
        stallRetries := stallRetries + 1;
        interventions := interventions + [StallPrompt];
      }
    }

    method OnTurnEnd(t: Turn)
      modifies this
      ensures Now() == Step(old(Now()), TurnEnd(t))
    {
      if !t.aborted && (streamGarbled || t.garbled) {
        if garbledRetries < GARBLED_RETRY_CAP {
          garbledRetries := garbledRetries + 1;
          interventions := interventions + [GarbledPrompt];
        }
        streamGarbled := false;
      }
      if lastTurnHadError && !t.hasToolCall && !t.toolError {
        if !t.aborted {
          if t.complete {
            lastTurnHadError := false;
          } else if errorContinuationRetries < ERROR_CONTINUATION_CAP {
            errorContinuationRetries := errorContinuationRetries + 1;
            interventions := interventions + [ContinuePrompt];
          } else {
            lastTurnHadError := false;
          }
        }
        return;
      }
      lastTurnHadError := t.toolError;
    }
  }

  lemma DeadlineSnoc(tools: seq<Tool>, t: Tool)
    ensures Deadline(tools + [t]) ==
      if t.declaredMs > 0 then Max(Deadline(tools), t.declaredMs + STALL_TOOL_MARGIN_MS) else Deadline(tools)
    ensures AllDeclared(tools + [t]) <==> AllDeclared(tools) && t.declaredMs > 0
  {
    assert (tools + [t])[..|tools|] == tools;
    assert forall u :: u in tools + [t] <==> u in tools || u == t;
  }
}
