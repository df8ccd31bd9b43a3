// Compactions the extension starts by itself: two handlers that check, await the
// window lookup, and then start one, with a flag and a throttle between them.
module Compaction {
  import opened ReserveLine

  const PROACTIVE_THROTTLE_MS := 120_000
  const NO_PROGRESS_DELTA := 1_000

  // A handler suspended in the window lookup. checkedAt is the time of its
  // throttle check, notesSeen how many notes there were then, and forgot whether
  // a session start had made the guard forget the last of them.
  datatype Handler =
    | TurnEnd(tokens: nat, checkedAt: int, notesSeen: nat, forgot: bool)
    | Settled(tokens: nat, checkedAt: int, notesSeen: nat, forgot: bool)

  // starts, notes and forgot are a history that no step reads: when compactions
  // were started, when lastProactiveAt was set (to a start or to a bounded
  // summary), and whether a session start has zeroed it since.
  datatype Guard = Guard(
    now: int,
    lastCancelledTokens: nat,
    lastProactiveAt: int,
    inFlight: bool,          // compactionInFlight
    outstanding: nat,        // compactions started whose callback has not fired
    waiting: multiset<Handler>,
    starts: seq<int>,
    notes: seq<int>,
    forgot: bool
  )

  datatype Option<T> = None | Some(value: T)

  datatype Event =
    | Tick(ms: nat)
    | TurnEnds(failed: bool, tokens: Option<nat>)
    | AgentSettles(tokens: Option<nat>)
    | Resume(handler: Handler, window: nat)
    | CompactionEnds
    | BeforeCompact(window: nat, summaryTokens: nat, threshold: bool, tokens: Option<nat>)
    | SessionStart

  function Initial(now: int): Guard {
    Guard(now, 0, 0, false, 0, multiset{}, [], [], false)
  }

  predicate Throttled(g: Guard) {
    g.now - g.lastProactiveAt < PROACTIVE_THROTTLE_MS
  }

  function Note(g: Guard): Guard {
    g.(lastProactiveAt := g.now, notes := g.notes + [g.now], forgot := false)
  }

  function DoTurnEnds(g: Guard, failed: bool, tokens: Option<nat>): Guard {
    if failed || Throttled(g) || tokens.None? || ExitsEarly(tokens.value) then g
    else g.(waiting := g.waiting + multiset{TurnEnd(tokens.value, g.now, |g.notes|, g.forgot)})
  }

  function DoAgentSettles(g: Guard, tokens: Option<nat>): Guard {
    if Throttled(g) || tokens.None? then g
    else g.(waiting := g.waiting + multiset{Settled(tokens.value, g.now, |g.notes|, g.forgot)})
  }

  predicate Wants(g: Guard, h: Handler, window: nat) {
    && window > 0 && IsDue(h.tokens, window) && !g.inFlight
    && (h.Settled? ==> h.tokens > g.lastCancelledTokens + NO_PROGRESS_DELTA)
  }

  function Started(g: Guard): Guard {
    Note(g).(inFlight := true, outstanding := g.outstanding + 1, starts := g.starts + [g.now])
  }

  function DoResume(g: Guard, h: Handler, window: nat): Guard {
    if h !in g.waiting then g
    else
      var b := g.(waiting := g.waiting - multiset{h});
      if !Wants(g, h, window) then b
      else Started(b)
  }

  datatype Decision = Bounded | Cancel | Proceed

  // What the session_before_compact handler answers: its own bounded summary
  // when the summarizer's input exceeds 85% of the window, a veto, or nothing.
  function Decide(g: Guard, window: nat, summaryTokens: nat, threshold: bool, tokens: Option<nat>): Decision {
    if window == 0 then Proceed
    else if 100 * summaryTokens > 85 * window then Bounded
    else if !threshold then Proceed
    else if g.inFlight then Cancel
    else if tokens.Some? && tokens.value < DynamicLine(window) then Cancel
    else Proceed
  }

  function DoBeforeCompact(g: Guard, window: nat, summaryTokens: nat, threshold: bool, tokens: Option<nat>): Guard {
    match Decide(g, window, summaryTokens, threshold, tokens)
    case Bounded => Note(g)
    case Cancel => if g.inFlight || tokens.None? then g else g.(lastCancelledTokens := tokens.value)
    case Proceed => g
  }

  function Step(g: Guard, e: Event): Guard {
    match e
    case Tick(ms) => g.(now := g.now + ms)
    case TurnEnds(failed, tokens) => DoTurnEnds(g, failed, tokens)
    case AgentSettles(tokens) => DoAgentSettles(g, tokens)
    case Resume(h, window) => DoResume(g, h, window)
    case CompactionEnds => if g.outstanding == 0 then g else g.(outstanding := g.outstanding - 1, inFlight := false)
    case BeforeCompact(window, summaryTokens, threshold, tokens) =>
      DoBeforeCompact(g, window, summaryTokens, threshold, tokens)
    case SessionStart =>
      g.(lastCancelledTokens := 0, lastProactiveAt := 0, inFlight := false, forgot := g.forgot || g.notes != [])
  }

  function Run(g: Guard, events: seq<Event>): Guard
    decreases |events|
  {
    if events == [] then g else Run(Step(g, events[0]), events[1..])
  }

  // --- One compaction at a time --------------------------------------------

  predicate FlagIsExact(g: Guard) {
    g.outstanding <= 1 && (g.inFlight <==> g.outstanding == 1)
  }

  // A session start that arrives while a compaction is outstanding.
  predicate ForgetsCompaction(g: Guard, e: Event) {
    e.SessionStart? && g.outstanding > 0
  }

  // The flag stays exact through a step unless, and only unless, the step is a
  // session start that forgets an outstanding compaction.
  lemma StepKeepsFlag(g: Guard, e: Event)
    requires FlagIsExact(g)
    ensures FlagIsExact(Step(g, e)) <==> !ForgetsCompaction(g, e)
  {
  }

  ghost predicate NeverForgets(g: Guard, events: seq<Event>)
    decreases |events|
  {
    events == [] || (!ForgetsCompaction(g, events[0]) && NeverForgets(Step(g, events[0]), events[1..]))
  }

  // Over every interleaving of the two handlers.
  lemma {:induction false} OneCompactionAtATime(g: Guard, events: seq<Event>)
    requires FlagIsExact(g) && NeverForgets(g, events)
    ensures FlagIsExact(Run(g, events))
    decreases |events|
  {
    if events != [] {
      StepKeepsFlag(g, events[0]);
      OneCompactionAtATime(Step(g, events[0]), events[1..]);
    }
  }

  // A session start that forgets a compaction lets a second one start beside it.
  lemma ForgottenCompactionOverlaps(g: Guard, tokens: nat, window: nat)
    requires g.outstanding == 1 && g.now >= PROACTIVE_THROTTLE_MS
    requires window > 0 && IsDue(tokens, window) && tokens > NO_PROGRESS_DELTA
    ensures
      var g1 := Step(g, SessionStart);
      var g2 := Step(g1, AgentSettles(Some(tokens)));
      Step(g2, Resume(Settled(tokens, g.now, |g.notes|, g1.forgot), window)).outstanding == 2
  {
    var g1 := Step(g, SessionStart);
    var g2 := Step(g1, AgentSettles(Some(tokens)));
    assert Settled(tokens, g.now, |g.notes|, g1.forgot) in g2.waiting;
  }

  // Over every run that forgets no compaction: while one runs, the host's own
  // threshold compaction is never let through to the summarizer.
  lemma NoThresholdCompactionMeanwhile(
    now: int, events: seq<Event>, window: nat, summaryTokens: nat, tokens: Option<nat>)
    requires NeverForgets(Initial(now), events) && window > 0
    ensures
      var g := Run(Initial(now), events);
      g.outstanding > 0 ==> Decide(g, window, summaryTokens, true, tokens) != Proceed
  {
    OneCompactionAtATime(Initial(now), events);
  }

  // --- The throttle --------------------------------------------------------

  // The last note lies at least the throttle back, and with it every start.
  predicate GapKept(g: Guard) {
    g.notes != [] ==> g.now - g.notes[|g.notes| - 1] >= PROACTIVE_THROTTLE_MS
  }

  // What a suspended handler's check established about the notes it saw.
  ghost predicate CheckedGap(g: Guard, h: Handler) {
    && h.checkedAt <= g.now && h.notesSeen <= |g.notes|
    && (forall i :: h.notesSeen <= i < |g.notes| ==> g.notes[i] >= h.checkedAt)
    && (!h.forgot && h.notesSeen > 0 ==> h.checkedAt - g.notes[h.notesSeen - 1] >= PROACTIVE_THROTTLE_MS)
  }

  ghost predicate History(g: Guard) {
    && (!g.forgot && g.notes != [] ==> g.lastProactiveAt == g.notes[|g.notes| - 1])
    && (forall i, j :: 0 <= i <= j < |g.notes| ==> g.notes[i] <= g.notes[j])
    && (forall i :: 0 <= i < |g.notes| ==> g.notes[i] <= g.now)
    && (forall t <- g.starts :: t in g.notes)
    && (forall h <- g.waiting :: CheckedGap(g, h))
  }

  lemma NoteKeeps(g: Guard)
    requires History(g)
    ensures History(Note(g))
  {
    forall h <- g.waiting ensures CheckedGap(Note(g), h) {
      assert CheckedGap(g, h);
    }
  }

  lemma WaitKeeps(g: Guard, h: Handler)
    requires History(g) && !Throttled(g)
    requires h.checkedAt == g.now && h.notesSeen == |g.notes| && h.forgot == g.forgot
    ensures History(g.(waiting := g.waiting + multiset{h}))
  {
    var after := g.(waiting := g.waiting + multiset{h});
    forall k <- after.waiting ensures CheckedGap(after, k) {
      if k != h {
        assert CheckedGap(g, k);
      }
    }
  }

  lemma DropKeeps(g: Guard, h: Handler)
    requires History(g)
    ensures History(g.(waiting := g.waiting - multiset{h}))
  {
    var b := g.(waiting := g.waiting - multiset{h});
    forall k <- b.waiting ensures CheckedGap(b, k) {
      assert CheckedGap(g, k);
    }
  }

  lemma StartKeeps(g: Guard)
    requires History(g)
    ensures History(Started(g))
  {
    NoteKeeps(g);
    NoteGrows(g);
    var n := Note(g);
    assert n.notes[|g.notes|] == g.now;
    var after := Started(g);
    forall h <- after.waiting ensures CheckedGap(after, h) {
      assert CheckedGap(n, h);
    }
  }

  lemma ResumeKeeps(g: Guard, h: Handler, window: nat)
    requires History(g)
    ensures History(DoResume(g, h, window))
  {
    DropKeeps(g, h);
    StartKeeps(g.(waiting := g.waiting - multiset{h}));
  }

  lemma TickKeeps(g: Guard, ms: nat)
    requires History(g)
    ensures History(g.(now := g.now + ms))
  {
    var after := g.(now := g.now + ms);
    forall h <- g.waiting ensures CheckedGap(after, h) {
      assert CheckedGap(g, h);
    }
  }

  lemma StepKeepsHistory(g: Guard, e: Event)
    requires History(g)
    ensures History(Step(g, e))
  {
    match e
    case Tick(ms) => TickKeeps(g, ms);
    case TurnEnds(failed, tokens) =>
      if !Throttled(g) && tokens.Some? {
        WaitKeeps(g, TurnEnd(tokens.value, g.now, |g.notes|, g.forgot));
      }
    case AgentSettles(tokens) =>
      if !Throttled(g) && tokens.Some? {
        WaitKeeps(g, Settled(tokens.value, g.now, |g.notes|, g.forgot));
      }
    case Resume(h, window) => ResumeKeeps(g, h, window);
    case BeforeCompact(window, summaryTokens, threshold, tokens) => BeforeCompactKeeps(g, e);
    case CompactionEnds => ResetKeeps(g, e);
    case SessionStart => ResetKeeps(g, e);
  }

  lemma ResetKeeps(g: Guard, e: Event)
    requires History(g) && (e.CompactionEnds? || e.SessionStart?)
    ensures History(Step(g, e))
  {
    forall h <- g.waiting ensures CheckedGap(Step(g, e), h) {
      assert CheckedGap(g, h);
    }
  }

  lemma BeforeCompactKeeps(g: Guard, e: Event)
    requires History(g) && e.BeforeCompact?
    ensures History(Step(g, e))
  {
    NoteKeeps(g);
    NoteGrows(g);
    forall h <- g.waiting ensures CheckedGap(Step(g, e), h) {
      assert CheckedGap(g, h);
    }
  }

  lemma NoteGrows(g: Guard)
    ensures forall t | t in g.notes :: t in Note(g).notes
  {
    forall t | t in g.notes ensures t in Note(g).notes {
      var i :| 0 <= i < |g.notes| && g.notes[i] == t;
      assert Note(g).notes[i] == t;
    }
  }

  lemma {:induction false} EveryRunKeepsHistory(g: Guard, events: seq<Event>)
    requires History(g)
    ensures History(Run(g, events))
    decreases |events|
  {
    if events != [] {
      StepKeepsHistory(g, events[0]);
      EveryRunKeepsHistory(Step(g, events[0]), events[1..]);
    }
  }

  // Over every run: a handler whose check no session start had blinded starts a
  // compaction at least two minutes after the last note, if nothing was noted
  // while it was suspended; and when it was suspended for less than two minutes
  // itself, only if.
  lemma GapExactly(now: int, events: seq<Event>, h: Handler)
    requires h in Run(Initial(now), events).waiting && !h.forgot
    ensures var g := Run(Initial(now), events); h.notesSeen == |g.notes| ==> GapKept(g)
    ensures
      var g := Run(Initial(now), events);
      g.now - h.checkedAt < PROACTIVE_THROTTLE_MS ==> (GapKept(g) <==> h.notesSeen == |g.notes|)
  {
    var g := Run(Initial(now), events);
    EveryRunKeepsHistory(Initial(now), events);
    assert CheckedGap(g, h);
  }

  // The gap to the last note is a gap to every start before.
  lemma GapCoversStarts(now: int, events: seq<Event>)
    ensures
      var g := Run(Initial(now), events);
      GapKept(g) ==> forall t <- g.starts :: g.now - t >= PROACTIVE_THROTTLE_MS
  {
    var g := Run(Initial(now), events);
    EveryRunKeepsHistory(Initial(now), events);
    forall t <- g.starts | GapKept(g) ensures g.now - t >= PROACTIVE_THROTTLE_MS {
      var i :| 0 <= i < |g.notes| && g.notes[i] == t;
      assert g.notes[i] <= g.notes[|g.notes| - 1];
    }
  }

  // A session start blinds the check: the next compaction then starts however
  // recent the last note is, though nothing was noted while it was suspended.
  lemma SessionStartBlindsTheThrottle(g: Guard, tokens: nat, window: nat)
    requires g.now >= PROACTIVE_THROTTLE_MS && !GapKept(g) && g.outstanding == 0
    requires window > 0 && IsDue(tokens, window) && tokens > NO_PROGRESS_DELTA
    ensures
      var g1 := Step(g, SessionStart);
      var g2 := Step(g1, AgentSettles(Some(tokens)));
      var h := Settled(tokens, g.now, |g.notes|, true);
      && h in g2.waiting && h.notesSeen == |g2.notes| && !GapKept(g2)
      && Step(g2, Resume(h, window)).starts == g.starts + [g.now]
  {
    var g2 := Step(Step(g, SessionStart), AgentSettles(Some(tokens)));
    assert Settled(tokens, g.now, |g.notes|, true) in g2.waiting;
  }

  // A note while suspended does happen, and two may start at the same instant:
  // both handlers pass the check, and the first one's compaction ends before the
  // second resumes.
  lemma ThrottleIsNotKeptAcrossTheAwait(g: Guard, tokens: nat, window: nat)
    requires !Throttled(g) && !g.inFlight && window > 0
    requires IsDue(tokens, window) && !ExitsEarly(tokens) && tokens > g.lastCancelledTokens + NO_PROGRESS_DELTA
    ensures
      var g1 := Step(g, AgentSettles(Some(tokens)));
      var g2 := Step(g1, TurnEnds(false, Some(tokens)));
      var g3 := Step(g2, Resume(Settled(tokens, g.now, |g.notes|, g.forgot), window));
      var g4 := Step(g3, CompactionEnds);
      var g5 := Step(g4, Resume(TurnEnd(tokens, g.now, |g.notes|, g.forgot), window));
      g5.starts == g.starts + [g.now, g.now]
  {
    var g2 := Step(Step(g, AgentSettles(Some(tokens))), TurnEnds(false, Some(tokens)));
    var h, k := Settled(tokens, g.now, |g.notes|, g.forgot), TurnEnd(tokens, g.now, |g.notes|, g.forgot);
    assert h in g2.waiting && k in g2.waiting;
    BothStart(g2, h, k, window);
  }

  lemma BothStart(g: Guard, h: Handler, k: Handler, window: nat)
    requires h in g.waiting && k in g.waiting && h.Settled? && k.TurnEnd?
    requires Wants(g, h, window) && Wants(g, k, window)
    ensures
      var ended := Step(Step(g, Resume(h, window)), CompactionEnds);
      Step(ended, Resume(k, window)).starts == g.starts + [g.now, g.now]
  {
    var started := Step(g, Resume(h, window));
    assert started == Started(g.(waiting := g.waiting - multiset{h}));
    assert k in started.waiting;
    var ended := Step(started, CompactionEnds);
    assert Wants(ended, k, window) && ended.starts == g.starts + [g.now];
  }

  // --- What starts a compaction, and what is vetoed ------------------------

  // A handler is suspended in the lookup exactly if its throttle and its floor let
  // it, and nothing else changes.
  lemma WaitsExactly(g: Guard, failed: bool, tokens: Option<nat>)
    ensures
      var waits := !failed && tokens.Some? && tokens.value > 90_112 && g.now - g.lastProactiveAt >= 120_000;
      Step(g, TurnEnds(failed, tokens)).waiting ==
        g.waiting + if waits then multiset{TurnEnd(tokens.value, g.now, |g.notes|, g.forgot)} else multiset{}
    ensures
      var waits := tokens.Some? && g.now - g.lastProactiveAt >= 120_000;
      Step(g, AgentSettles(tokens)).waiting ==
        g.waiting + if waits then multiset{Settled(tokens.value, g.now, |g.notes|, g.forgot)} else multiset{}
  {
    assert g.waiting + multiset{} == g.waiting;
  }

  // A step that starts a compaction.
  predicate StartsAt(g: Guard, e: Event) {
    Step(g, e).outstanding > g.outstanding
  }

  // Exactly a resuming handler with more tokens than the line, while no compaction
  // is known to run, starts one; after a settlement only if there was progress.
  lemma StartsExactly(g: Guard, e: Event)
    ensures StartsAt(g, e) <==>
      && e.Resume? && e.handler in g.waiting && e.window > 0 && !g.inFlight
      && e.handler.tokens > DynamicLine(e.window)
      && (e.handler.Settled? ==> e.handler.tokens > g.lastCancelledTokens + 1_000)
    ensures
      var after := Step(g, e);
      after.starts == g.starts + (if StartsAt(g, e) then [g.now] else [])
      && (StartsAt(g, e) ==> after.inFlight && after.lastProactiveAt == g.now && after.outstanding == g.outstanding + 1)
      && (e.Resume? ==> after.waiting == g.waiting - multiset{e.handler})
  {
    assert g.starts + [] == g.starts;
    if e.Resume? && e.handler !in g.waiting {
      assert g.waiting - multiset{e.handler} == g.waiting;
    }
  }

  // The clock and the history, which only the contracts read.
  lemma HistoryExactly(g: Guard, e: Event)
    ensures
      var after := Step(g, e);
      && after.now == g.now + (if e.Tick? then e.ms else 0)
      && (after.notes == g.notes || after.notes == g.notes + [g.now])
      && (after.forgot <==> after.notes == g.notes && (g.forgot || (e.SessionStart? && g.notes != [])))
      && (e.SessionStart? ==> after.lastProactiveAt == 0 && after.lastCancelledTokens == 0 && !after.inFlight)
      && (e.CompactionEnds? && g.outstanding > 0 ==> !after.inFlight && after.outstanding == g.outstanding - 1)
  {
  }

  // Over every run, the compactions started are those of resuming handlers with
  // more tokens than the line of the window they learned.
  lemma {:induction false} EveryStartIsDue(g: Guard, events: seq<Event>) returns (at: seq<nat>)
    ensures |Run(g, events).starts| == |g.starts| + |at|
    ensures forall k :: 0 <= k < |at| ==>
      && at[k] < |events| && StartsAt(Run(g, events[..at[k]]), events[at[k]])
      && events[at[k]].Resume? && events[at[k]].handler.tokens > DynamicLine(events[at[k]].window)
    ensures forall i, j :: 0 <= i < j < |at| ==> at[i] < at[j]
    decreases |events|
  {
    at := [];
    if events != [] {
      var n := |events| - 1;
      var e := events[n];
      at := EveryStartIsDue(g, events[..n]);
      forall k | 0 <= k < |at| ensures events[..n][..at[k]] == events[..at[k]] && events[..n][at[k]] == events[at[k]] {
      }
      RunSnoc(g, events[..n], e);
      assert events[..n] + [e] == events;
      StartsExactly(Run(g, events[..n]), e);
      if StartsAt(Run(g, events[..n]), e) {
        at := at + [n];
      }
    }
  }

  lemma {:induction false} RunSnoc(g: Guard, events: seq<Event>, e: Event)
    ensures Run(g, events + [e]) == Step(Run(g, events), e)
    decreases |events|
  {
    if events == [] {
      assert Run(Step(g, e), []) == Step(g, e);
      assert ([] + [e])[1..] == [] && ([] + [e])[0] == e;
    } else {
      assert (events + [e])[1..] == events[1..] + [e];
      RunSnoc(Step(g, events[0]), events[1..], e);
    }
  }

  // What the answer to the host's compaction is, and what is remembered of it.
  lemma DecidesExactly(g: Guard, window: nat, summaryTokens: nat, threshold: bool, tokens: Option<nat>)
    ensures
      var fits := 100 * summaryTokens <= 85 * window;
      var below := tokens.Some? && tokens.value < DynamicLine(window);
      var d := Decide(g, window, summaryTokens, threshold, tokens);
      && (d == Bounded <==> window > 0 && !fits)
      && (d == Cancel <==> window > 0 && fits && threshold && (g.inFlight || below))
      && (d == Proceed <==> window == 0 || (fits && (!threshold || (!g.inFlight && !below))))
    ensures
      var d := Decide(g, window, summaryTokens, threshold, tokens);
      var after := Step(g, BeforeCompact(window, summaryTokens, threshold, tokens));
      && after.lastCancelledTokens ==
           (if d == Cancel && !g.inFlight then tokens.value else g.lastCancelledTokens)
      && after.lastProactiveAt == (if d == Bounded then g.now else g.lastProactiveAt)
      && after.inFlight == g.inFlight && after.outstanding == g.outstanding && after.waiting == g.waiting
  {
  }

  // So, over every run: with nothing in flight, an input that fits and known
  // tokens, a threshold compaction goes on exactly from the line on.
  lemma ThresholdExactly(now: int, events: seq<Event>, window: nat, summaryTokens: nat, tokens: nat)
    requires NeverForgets(Initial(now), events) && window > 0 && 100 * summaryTokens <= 85 * window
    ensures
      var g := Run(Initial(now), events);
      Decide(g, window, summaryTokens, true, Some(tokens)) == Proceed <==>
        g.outstanding == 0 && tokens >= DynamicLine(window)
  {
    OneCompactionAtATime(Initial(now), events);
    DecidesExactly(Run(Initial(now), events), window, summaryTokens, true, Some(tokens));
  }

  // After a veto a settlement starts no compaction until there is progress.
  lemma NothingAfterVeto(g: Guard, h: Handler, window: nat, summaryTokens: nat, tokens: nat)
    requires Decide(g, window, summaryTokens, true, Some(tokens)) == Cancel && !g.inFlight
    requires h.Settled? && h.tokens <= tokens + 1_000
    ensures !StartsAt(Step(g, BeforeCompact(window, summaryTokens, true, Some(tokens))), Resume(h, window))
  {
  }

  // --- The closure variables and the handlers -------------------------------

  class CompactionGuard {
    var lastCancelledTokens: nat
    var lastProactiveAt: int
    var compactionInFlight: bool
    // The clock, the compactions under way, and the suspended handlers.
    var clock: int
    var outstanding: nat
    var waiting: multiset<Handler>
    // The history.
    var starts: seq<int>
    var notes: seq<int>
    var forgot: bool

    ghost function Now(): Guard
      reads this
    {
      Guard(clock, lastCancelledTokens, lastProactiveAt, compactionInFlight, outstanding, waiting,
            starts, notes, forgot)
    }

    constructor (clock: int)
      ensures Now() == Initial(clock)
    {
      this.clock, lastCancelledTokens, lastProactiveAt, compactionInFlight := clock, 0, 0, false;
      outstanding, waiting, starts, notes, forgot := 0, multiset{}, [], [], false;
    }

    method OnTurnEnd(failed: bool, tokens: Option<nat>)
      modifies this`waiting
      ensures Now() == DoTurnEnds(old(Now()), failed, tokens)
    {
      if failed || clock - lastProactiveAt < PROACTIVE_THROTTLE_MS || tokens.None? {
        return;
      }
      if tokens.value <= BASE_WINDOW - MIN_RESERVE_TOKENS {
        return;
      }
      waiting := waiting + multiset{TurnEnd(tokens.value, clock, |notes|, forgot)};
    }

    // Either handler once the window lookup has returned.
    method OnWindowKnown(h: Handler, window: nat)
      requires h in waiting
      modifies this
      ensures Now() == DoResume(old(Now()), h, window)
    {
      waiting := waiting - multiset{h};
      if window == 0 {
        return;
      }
      if h.Settled? && h.tokens <= lastCancelledTokens + NO_PROGRESS_DELTA {
        return;
      }
      if h.tokens <= DynamicLine(window) || compactionInFlight {
        return;
      }
      StartCompaction();
    }

    method StartCompaction()
      modifies this
      ensures Now() == Started(old(Now()))
    {
      compactionInFlight, lastProactiveAt := true, clock;
      notes, forgot := notes + [clock], false;
      outstanding, starts := outstanding + 1, starts + [clock];
    }

    method OnBeforeCompact(window: nat, summaryTokens: nat, threshold: bool, tokens: Option<nat>) returns (d: Decision)
      modifies this
      ensures d == Decide(old(Now()), window, summaryTokens, threshold, tokens)
      ensures Now() == DoBeforeCompact(old(Now()), window, summaryTokens, threshold, tokens)
    {
      if window == 0 {
        return Proceed;
      }
      if 100 * summaryTokens > 85 * window {
        lastProactiveAt := clock;
        notes, forgot := notes + [clock], false;
        return Bounded;
      }
      if !threshold {
        return Proceed;
      }
      if compactionInFlight {
        return Cancel;
      }
      if tokens.Some? && tokens.value < DynamicLine(window) {
        lastCancelledTokens := tokens.value;
        return Cancel;
      }
      d := Proceed;
    }
  }
}
