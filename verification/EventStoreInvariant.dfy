/** What any number of racing handlers leave in the event store and the outbox. */
module EventStoreInvariant {
  import opened Results
  import opened OrderValues
  import opened OrderAggregate
  import opened EventStore

  // ---- the statements of one writer ----

  /** After a load: either the handler is done, or it has one event that extends the log it read. */
  predicate Decided(x: Writer, history: seq<Event>) {
    x.pc.Ended? || (
      && x.pc == InsertingEvent(0) && x.ids == [] && history != []
      && |x.changes| == 1 && x.changes[0].order == x.order && Validated(x.changes[0])
      && x.Expected() == |history| && GoodLog(x.order, history + x.changes) && x.view == Fold(history + x.changes)
      && (x.job.Commanding? ==>
            x.view.status == Goal(x.job.command) && x.changes == [Closing(x.order, x.job.command, x.job.now)]))
  }

  lemma LoadDecides(s: State, x: Writer)
    requires x.job.Commanding? && x.pc == Loading && x.ids == []
    requires x.order in s.log ==> GoodLog(x.order, s.log[x.order]) && Validated(s.log[x.order][0])
    ensures var x' := LoadStatement(s, x); x'.order == x.order && Decided(x', LogAt(s, x.order))
  {
    var history := LogAt(s, x.order);
    if history != [] {
      LoadedIsLog(x.order, history);
      if Loaded(history).Ok? { DecisionFits(s, x, history); }
    }
  }

  lemma DecisionFits(s: State, x: Writer, history: seq<Event>)
    requires x.job.Commanding? && x.pc == Loading && x.ids == [] && history == LogAt(s, x.order)
    requires GoodLog(x.order, history) && Loaded(history) == Ok(history)
    ensures Decided(LoadStatement(s, x), history)
  {
    var view := Fold(history);
    DecideKeepsLog(x.order, history, x.job.command, x.job.now);
    GoodLogFolds(x.order, history);
    var raised := Raised(view, x.job.command, x.job.now);
    if raised != [] { FoldSnoc(history, raised[0]); }
  }

  /** The writer after its next statement, COMMIT excepted. */
  function Statement(s: State, x: Writer): Writer
    requires x.pc == Loading ==> x.job.Commanding?
  {
    match x.pc
    case Loading => LoadStatement(s, x)
    case InsertingEvent(_) => InsertEvent(s, x)
    case InsertingOutbox(_) => InsertOutbox(s, x)
    case _ => x
  }

  function CounterAfter(s: State, x: Writer): nat {
    if x.pc.InsertingOutbox? then s.nextId + 1 else s.nextId
  }

  lemma StatementProgress(s: State, x: Writer)
    requires Progress(x, |LogAt(s, x.order)|) && IdOk(x, s.outbox, s.nextId) && x.Active() && !x.pc.Committing?
    requires x.pc == Loading ==> Decided(LoadStatement(s, x), LogAt(s, x.order)) && LoadStatement(s, x).order == x.order
    requires forall id | id in s.outbox :: id < s.nextId
    ensures var x' := Statement(s, x);
      && x'.order == x.order && Progress(x', |LogAt(s, x.order)|) && IdOk(x', s.outbox, CounterAfter(s, x))
  {
  }

  lemma StatementFits(s: State, x: Writer)
    requires Progress(x, |LogAt(s, x.order)|) && Fits(x, LogAt(s, x.order)) && x.Active() && !x.pc.Committing?
    requires x.pc == Loading ==> Decided(LoadStatement(s, x), LogAt(s, x.order)) && LoadStatement(s, x).order == x.order
    ensures Fits(Statement(s, x), LogAt(s, x.order))
    ensures x.pc != Loading ==> Statement(s, x).changes == x.changes
  {
  }

  lemma StatementPair(s: State, t: TxnId, u: TxnId)
    requires WritersOk(s) && Enabled(s, Exec(t)) && u in s.writers && u != t && !s.writers[t].pc.Committing?
    requires s.writers[t].pc == Loading ==> LoadStatement(s, s.writers[t]).Inserted() == 0 && !LoadStatement(s, s.writers[t]).pc.Committing?
    ensures PairOk(Statement(s, s.writers[t]), s.writers[u]) && PairOk(s.writers[u], Statement(s, s.writers[t]))
  {
    var x, y := s.writers[t], s.writers[u];
    assert Progress(x, |LogAt(s, x.order)|) && Progress(y, |LogAt(s, y.order)|) && IdOk(y, s.outbox, s.nextId);
    assert PairOk(x, y) && PairOk(y, x);
    assert !WaitsFor(s, t, u);
  }

  // ---- steps that change one writer ----

  function With(s: State, t: TxnId, x: Writer, nextId: nat): State {
    s.(writers := s.writers[t := x], nextId := nextId)
  }

  lemma LocalWriters(s: State, t: TxnId, x: Writer, nextId: nat)
    requires WritersOk(s) && s.nextId <= nextId
    requires Progress(x, |LogAt(s, x.order)|) && IdOk(x, s.outbox, nextId)
    requires forall u | u in s.writers && u != t :: PairOk(x, s.writers[u]) && PairOk(s.writers[u], x)
    ensures WritersOk(With(s, t, x, nextId))
  {}

  lemma {:induction false} SameIds(outbox: map<nat, OutRow>, o: OrderId, n: nat, m: nat)
    requires n <= m && forall id | id in outbox :: id < n
    ensures OutIds(outbox, o, m) == OutIds(outbox, o, n)
    decreases m
  {
    if n < m { SameIds(outbox, o, n, m - 1); }
  }

  lemma LocalOutbox(s: State, t: TxnId, x: Writer, nextId: nat)
    requires OutboxOk(s) && s.nextId <= nextId && forall id | id in s.outbox :: id < s.nextId
    ensures OutboxOk(With(s, t, x, nextId))
  {
    var s' := With(s, t, x, nextId);
    forall o ensures OutboxFollows(s', o) {
      assert OutboxFollows(s, o) && LogAt(s', o) == LogAt(s, o);
      SameIds(s.outbox, o, s.nextId, nextId);
    }
  }

  lemma LocalViews(s: State, t: TxnId, x: Writer, nextId: nat)
    requires ViewsOk(s) && Fits(x, LogAt(s, x.order))
    ensures ViewsOk(With(s, t, x, nextId))
  {
  }

  lemma LocalKeeps(s: State, t: TxnId, x: Writer, nextId: nat)
    requires Inv(s) && s.nextId <= nextId
    requires Progress(x, |LogAt(s, x.order)|) && IdOk(x, s.outbox, nextId) && Fits(x, LogAt(s, x.order))
    requires forall i | 0 <= i < |x.changes| :: Validated(x.changes[i])
    requires forall u | u in s.writers && u != t :: PairOk(x, s.writers[u]) && PairOk(s.writers[u], x)
    ensures Inv(With(s, t, x, nextId))
  {
    LocalWriters(s, t, x, nextId);
    LocalViews(s, t, x, nextId);
    LocalOutbox(s, t, x, nextId);
  }

  // ---- COMMIT ----

  /** What is committed: the log, and one outbox row. */
  function Stored(s: State, x: Writer): State
    requires |x.ids| == |x.changes|
  {
    s.(log := s.log[x.order := LogAt(s, x.order) + x.changes], outbox := OutRows(s.outbox, x.ids, x.changes))
  }

  lemma OneRow(outbox: map<nat, OutRow>, ids: seq<nat>, changes: seq<Event>)
    requires |ids| == 1 && |changes| == 1
    ensures OutRows(outbox, ids, changes) == outbox[ids[0] := OutRow(changes[0].order, MessageOf(changes[0]))]
  {
  }

  lemma CommitIds(s: State, x: Writer, o: OrderId)
    requires Progress(x, |LogAt(s, x.order)|) && IdOk(x, s.outbox, s.nextId) && x.pc.Committing?
    ensures OutIds(Stored(s, x).outbox, o, s.nextId) == OutIds(s.outbox, o, s.nextId) + (if o == x.order then x.ids else [])
  {
    var row := OutRow(x.changes[0].order, MessageOf(x.changes[0]));
    OneRow(s.outbox, x.ids, x.changes);
    OutIdsAdd(s.outbox, o, s.nextId, x.ids[0], row);
    assert x.ids == [x.ids[0]];
  }

  lemma CommitOutbox(s: State, x: Writer, o: OrderId)
    requires Progress(x, |LogAt(s, x.order)|) && IdOk(x, s.outbox, s.nextId) && x.pc.Committing? && OutboxFollows(s, o)
    ensures OutboxFollows(Stored(s, x), o)
  {
    CommitIds(s, x, o);
    OneRow(s.outbox, x.ids, x.changes);
    OutIdsIn(s.outbox, o, s.nextId);
    var s' := Stored(s, x);
    var ids, ids' := OutIds(s.outbox, o, s.nextId), OutIds(s'.outbox, o, s.nextId);
    forall i | 0 <= i < |ids'| ensures ids'[i] in s'.outbox && s'.outbox[ids'[i]].message == MessageOf(LogAt(s', o)[i]) {
      if i < |ids| {
        assert ids'[i] == ids[i] && ids[i] != x.ids[0];
        assert LogAt(s', o)[i] == LogAt(s, o)[i];
      }
    }
  }

  /** The others of the order have inserted nothing, so a longer log is all they see. */
  lemma CommitOthers(s: State, x: Writer, y: Writer)
    requires Progress(x, |LogAt(s, x.order)|) && x.pc.Committing? && PairOk(x, y)
    requires Progress(y, |LogAt(s, y.order)|) && IdOk(y, s.outbox, s.nextId)
    ensures var s' := Stored(s, x); Progress(y, |LogAt(s', y.order)|) && IdOk(y, s'.outbox, s'.nextId)
  {
    OneRow(s.outbox, x.ids, x.changes);
  }

  lemma CommitFits(s: State, x: Writer, y: Writer)
    requires Progress(x, |LogAt(s, x.order)|) && x.pc.Committing?
    requires Progress(y, |LogAt(s, y.order)|) && Fits(y, LogAt(s, y.order))
    ensures Fits(y, LogAt(Stored(s, x), y.order))
  {
  }

  /** The state after a commit, without its writer's end. */
  lemma FinishOk(x: Writer, outcome: Outcome, n: nat, outbox: map<nat, OutRow>, nextId: nat, history: seq<Event>)
    ensures var y := Finish(x, outcome); Progress(y, n) && IdOk(y, outbox, nextId) && Fits(y, history)
  {
  }

  lemma FinishPair(x: Writer, y: Writer, outcome: Outcome)
    ensures PairOk(Finish(x, outcome), y) && PairOk(y, Finish(x, outcome))
  {
  }

  lemma CommitWriters(s: State, t: TxnId)
    requires WritersOk(s) && ViewsOk(s) && t in s.writers && s.writers[t].pc.Committing?
    ensures |s.writers[t].ids| == |s.writers[t].changes|
    ensures var s' := Stored(s, s.writers[t]).(writers := s.writers[t := Finish(s.writers[t], Saved)]);
      WritersOk(s') && ViewsOk(s')
  {
    var x := s.writers[t];
    var m := Stored(s, x);
    var s' := m.(writers := s.writers[t := Finish(x, Saved)]);
    assert Progress(x, |LogAt(s, x.order)|) && IdOk(x, s.outbox, s.nextId);
    OneRow(s.outbox, x.ids, x.changes);
    forall u | u in s'.writers
      ensures Progress(s'.writers[u], |LogAt(s', s'.writers[u].order)|) && IdOk(s'.writers[u], s'.outbox, s'.nextId)
      ensures Fits(s'.writers[u], LogAt(s', s'.writers[u].order))
    {
      assert LogAt(s', s'.writers[u].order) == LogAt(m, s'.writers[u].order);
      if u == t {
        FinishOk(x, Saved, |LogAt(s', x.order)|, s'.outbox, s'.nextId, LogAt(s', x.order));
      } else {
        CommitOthers(s, x, s.writers[u]);
        CommitFits(s, x, s.writers[u]);
      }
    }
    forall u, v | u in s'.writers && v in s'.writers && u != v ensures PairOk(s'.writers[u], s'.writers[v]) {
      if u == t { FinishPair(x, s.writers[v], Saved); }
      else if v == t { FinishPair(x, s.writers[u], Saved); }
    }
  }

  lemma CommitEvents(s: State, t: TxnId)
    requires EventsOk(s) && t in s.writers && |s.writers[t].ids| == |s.writers[t].changes|
    ensures EventsOk(Stored(s, s.writers[t]).(writers := s.writers[t := Finish(s.writers[t], Saved)]))
  {
  }

  lemma CommitRows(s: State, x: Writer, writers: map<TxnId, Writer>)
    requires LogsOk(s) && OutboxOk(s) && x.pc.Committing?
    requires Progress(x, |LogAt(s, x.order)|) && IdOk(x, s.outbox, s.nextId) && Fits(x, LogAt(s, x.order))
    ensures var s' := Stored(s, x).(writers := writers); LogsOk(s') && OutboxOk(s')
  {
    var s' := Stored(s, x).(writers := writers);
    forall o ensures OutboxFollows(s', o) {
      assert OutboxFollows(s, o);
      CommitOutbox(s, x, o);
      assert LogAt(s', o) == LogAt(Stored(s, x), o);
    }
    forall o | o in s'.log ensures GoodLog(o, s'.log[o]) {
      if o != x.order { assert GoodLog(o, s.log[o]); }
    }
  }

  lemma CommitKeeps(s: State, t: TxnId)
    requires Inv(s) && t in s.writers && s.writers[t].pc.Committing?
    ensures |s.writers[t].ids| == |s.writers[t].changes|
    ensures Inv(Stored(s, s.writers[t]).(writers := s.writers[t := Finish(s.writers[t], Saved)]))
  {
    var x := s.writers[t];
    CommitWriters(s, t);
    CommitEvents(s, t);
    assert Progress(x, |LogAt(s, x.order)|) && IdOk(x, s.outbox, s.nextId) && Fits(x, LogAt(s, x.order));
    CommitRows(s, x, s.writers[t := Finish(x, Saved)]);
  }

  // ---- whole steps ----

  lemma StartOk(s: State, o: OrderId, job: Job)
    requires job.Placing? ==> job.event.OrderPlaced? && job.event.order == o
    requires o in s.log ==> s.log[o] != []
    ensures var x := NewWriter(o, job);
      Progress(x, |LogAt(s, o)|) && IdOk(x, s.outbox, s.nextId) && Fits(x, LogAt(s, o)) && x.Inserted() == 0
  {
  }

  lemma StartKeeps(s: State, t: TxnId, o: OrderId, job: Job)
    requires Inv(s) && Enabled(s, Start(t, o, job))
    ensures Inv(With(s, t, NewWriter(o, job), s.nextId))
  {
    var x := NewWriter(o, job);
    assert o in s.log ==> GoodLog(o, s.log[o]);
    StartOk(s, o, job);
    forall u | u in s.writers ensures PairOk(x, s.writers[u]) && PairOk(s.writers[u], x) {}
    LocalKeeps(s, t, x, s.nextId);
  }

  lemma AbortKeeps(s: State, t: TxnId)
    requires Inv(s) && t in s.writers
    ensures Inv(With(s, t, Finish(s.writers[t], Broken), s.nextId))
  {
    var x := Finish(s.writers[t], Broken);
    forall u | u in s.writers && u != t ensures PairOk(x, s.writers[u]) && PairOk(s.writers[u], x) {}
    forall i | 0 <= i < |x.changes| ensures Validated(x.changes[i]) { assert Validated(s.writers[t].changes[i]); }
    LocalKeeps(s, t, x, s.nextId);
  }

  lemma StatementKeeps(s: State, t: TxnId)
    requires Inv(s) && Enabled(s, Exec(t)) && !s.writers[t].pc.Committing?
    ensures Inv(With(s, t, Statement(s, s.writers[t]), CounterAfter(s, s.writers[t])))
  {
    var x := s.writers[t];
    assert Progress(x, |LogAt(s, x.order)|) && IdOk(x, s.outbox, s.nextId) && Fits(x, LogAt(s, x.order));
    if x.pc == Loading { LoadDecides(s, x); }
    StatementProgress(s, x);
    StatementFits(s, x);
    var x' := Statement(s, x);
    forall i | 0 <= i < |x'.changes| ensures Validated(x'.changes[i]) {
      StatementEvents(s, t, i);
    }
    forall u | u in s.writers && u != t ensures PairOk(x', s.writers[u]) && PairOk(s.writers[u], x') {
      StatementPair(s, t, u);
    }
    LocalKeeps(s, t, x', CounterAfter(s, x));
  }

  lemma StatementEvents(s: State, t: TxnId, i: nat)
    requires EventsOk(s) && t in s.writers && s.writers[t].Active()
    requires s.writers[t].pc == Loading ==>
      s.writers[t].job.Commanding? && Decided(LoadStatement(s, s.writers[t]), LogAt(s, s.writers[t].order))
    requires i < |Statement(s, s.writers[t]).changes|
    ensures Validated(Statement(s, s.writers[t]).changes[i])
  {
  }

  lemma StepKeeps(s: State, step: Step)
    requires Inv(s) && Enabled(s, step)
    ensures Inv(Apply(s, step))
  {
    match step
    case Start(t, o, job) => StartKeeps(s, t, o, job);
    case Abort(t) => AbortKeeps(s, t);
    case Exec(t) =>
      if s.writers[t].pc.Committing? { CommitKeeps(s, t); } else { StatementKeeps(s, t); }
  }

  lemma {:induction false} RunKeeps(s: State, steps: seq<Step>, s': State)
    requires Inv(s) && Run(s, steps, s')
    ensures Inv(s')
    decreases |steps|
  {
    if steps != [] {
      StepKeeps(s, steps[0]);
      RunKeeps(Apply(s, steps[0]), steps[1..], s');
    }
  }

  lemma ReachableInv(s: State)
    requires Reachable(s)
    ensures Inv(s)
  {
    var steps :| Run(INITIAL, steps, s);
    RunKeeps(INITIAL, steps, s);
  }

  lemma ReachableWriter(s: State, t: TxnId)
    requires Reachable(s) && t in s.writers
    ensures Progress(s.writers[t], |LogAt(s, s.writers[t].order)|) && Fits(s.writers[t], LogAt(s, s.writers[t].order))
    ensures LogsOk(s)
  {
    ReachableInv(s);
  }

  // ---- what holds of every run ----

  /**
    Concurrent append: each order's log is its placement followed by at most one
    terminal event, with versions 1 and 2, and the outbox holds exactly one row for
    each event of the log, in log order.
  */
  lemma LogAndOutbox(s: State, o: OrderId)
    requires Reachable(s)
    ensures o in s.log ==> GoodLog(o, s.log[o])
    ensures OutboxFollows(s, o)
  {
    ReachableInv(s);
  }

  /** In every run an order's log, as other sessions see it, never loses or changes an event. */
  lemma {:induction false} LogOnlyGrows(s: State, steps: seq<Step>, s': State, o: OrderId)
    requires Run(s, steps, s')
    ensures LogAt(s, o) <= LogAt(s', o)
    decreases |steps|
  {
    if steps != [] {
      LogOnlyGrows(Apply(s, steps[0]), steps[1..], s', o);
    }
  }

  /** Whether the log can be loaded, and as what. */
  ghost predicate Rehydrates(history: seq<Event>) {
    && history != [] && history[0].OrderPlaced?
    && (Loaded(history).Ok? <==> history[0].total.minor >= 0)
    && (Loaded(history).Ok? ==> Loaded(history) == Ok(history))
  }

  /**
    Whoever commits has in memory what the stored log folds to, at its version; and
    the log can be loaded back to that unless the placement's total is negative.
  */
  lemma WinnerAgrees(s: State, t: TxnId)
    requires Reachable(s) && Enabled(s, Exec(t)) && s.writers[t].pc.Committing?
    ensures var x, s' := s.writers[t], Apply(s, Exec(t));
      && x.order in s'.log && s'.writers[t].pc == Ended(Saved)
      && x.view == Fold(s'.log[x.order]) && x.version == |s'.log[x.order]|
      && Rehydrates(s'.log[x.order])
  {
    ReachableWriter(s, t);
    CommitReadable(s, t);
  }

  lemma CommitReadable(s: State, t: TxnId)
    requires Reachable(s) && Enabled(s, Exec(t)) && s.writers[t].pc.Committing?
    ensures Rehydrates(LogAt(s, s.writers[t].order) + s.writers[t].changes)
  {
    ReachableInv(s);
    var o := s.writers[t].order;
    CommitKeeps(s, t);
    var s' := Stored(s, s.writers[t]).(writers := s.writers[t := Finish(s.writers[t], Saved)]);
    LoadedIsLog(o, s'.log[o]);
  }

  /** A handler is told of a conflict exactly when its order's log has moved on since it loaded. */
  lemma ConflictIff(s: State, t: TxnId)
    requires Reachable(s) && Enabled(s, Exec(t)) && s.writers[t].pc.InsertingEvent?
    ensures var x := s.writers[t];
      && x.Expected() <= |LogAt(s, x.order)|
      && (Apply(s, Exec(t)).writers[t].pc == Ended(Refused(ConcurrencyConflict)) <==> x.Expected() < |LogAt(s, x.order)|)
  {
    ReachableWriter(s, t);
  }

  // ---- each command is one atomic step on its order ----

  /** Why a command may be refused without a conflict: no log, one that cannot be read, or the opposite end. */
  predicate Hopeless(command: Command, history: seq<Event>) {
    || history == []
    || (history[0].OrderPlaced? && history[0].total.minor < 0)
    || (|history| == 2 && StatusAfter(history) != Goal(command))
  }

  /** What a confirm or cancel does to its order's log when it ends. */
  predicate CommandEnds(o: OrderId, command: Command, now: Time, before: seq<Event>, after: seq<Event>, outcome: Outcome) {
    match outcome
    case Saved => |before| == 1 && after == before + [Closing(o, command, now)] && StatusAfter(after) == Goal(command)
    case NoChange => after == before && |before| == 2 && StatusAfter(before) == Goal(command)
    case Refused(error) => after == before && (error == ConcurrencyConflict || Hopeless(command, before))
    case Broken => after == before
  }

  lemma DecisionEnds(s: State, x: Writer, history: seq<Event>)
    requires x.job.Commanding? && x.pc == Loading && history == LogAt(s, x.order) && GoodLog(x.order, history)
    requires Loaded(history) == Ok(history)
    ensures var x' := LoadStatement(s, x);
      x'.pc.Ended? ==> CommandEnds(x.order, x.job.command, x.job.now, history, history, x'.pc.outcome)
  {
    DecideKeepsLog(x.order, history, x.job.command, x.job.now);
  }

  lemma LoadEnds(s: State, x: Writer)
    requires x.job.Commanding? && x.pc == Loading
    requires x.order in s.log ==> GoodLog(x.order, s.log[x.order]) && Validated(s.log[x.order][0])
    ensures var x', history := LoadStatement(s, x), LogAt(s, x.order);
      x'.pc.Ended? ==> CommandEnds(x.order, x.job.command, x.job.now, history, history, x'.pc.outcome)
  {
    var history := LogAt(s, x.order);
    if history != [] {
      LoadedIsLog(x.order, history);
      if Loaded(history).Ok? { DecisionEnds(s, x, history); }
    }
  }

  /** A load refuses exactly the hopeless. */
  lemma RefusedIffHopeless(s: State, t: TxnId)
    requires Reachable(s) && Enabled(s, Exec(t)) && s.writers[t].pc == Loading
    ensures var x := s.writers[t];
      LoadStatement(s, x).pc.Ended? && LoadStatement(s, x).pc.outcome.Refused? <==> Hopeless(x.job.command, LogAt(s, x.order))
  {
    ReachableInv(s);
    DecidesUnlessHopeless(s, s.writers[t]);
  }

  lemma DecidesUnlessHopeless(s: State, x: Writer)
    requires x.job.Commanding? && x.pc == Loading
    requires x.order in s.log ==> GoodLog(x.order, s.log[x.order]) && Validated(s.log[x.order][0])
    ensures LoadStatement(s, x).pc.Ended? && LoadStatement(s, x).pc.outcome.Refused? <==> Hopeless(x.job.command, LogAt(s, x.order))
  {
    var history := LogAt(s, x.order);
    if history != [] {
      LoadedIsLog(x.order, history);
      if Loaded(history).Ok? { DecideKeepsLog(x.order, history, x.job.command, x.job.now); }
    }
  }

  /** The writer and its order's log after its next statement. */
  lemma ExecFrame(s: State, t: TxnId)
    requires Enabled(s, Exec(t)) && (s.writers[t].pc.Committing? ==> |s.writers[t].ids| == |s.writers[t].changes|)
    ensures var x, s' := s.writers[t], Apply(s, Exec(t));
      && t in s'.writers
      && (x.pc.Committing? ==> s'.writers[t] == Finish(x, Saved) && LogAt(s', x.order) == LogAt(s, x.order) + x.changes)
      && (!x.pc.Committing? ==> s'.writers[t] == Statement(s, x) && s'.log == s.log)
  {
  }

  lemma StatementSame(s: State, x: Writer)
    requires x.pc == Loading ==> x.job.Commanding?
    ensures Statement(s, x).order == x.order && Statement(s, x).job == x.job
    ensures x.pc.InsertingEvent? && Statement(s, x).pc.Ended? ==> Statement(s, x).pc == Ended(Refused(ConcurrencyConflict))
    ensures x.pc.InsertingOutbox? ==> !Statement(s, x).pc.Ended?
  {
  }

  /**
    Refinement: whatever its interleaving, a confirm or cancel that saves moves its
    order from pending to its goal in one step at its commit; one that changes
    nothing found the goal reached; and a refusal is justified by the log as it is.
  */
  lemma CommandIsAtomic(s: State, t: TxnId)
    requires Reachable(s) && Enabled(s, Exec(t)) && s.writers[t].job.Commanding?
    ensures t in Apply(s, Exec(t)).writers
    ensures var x, s' := s.writers[t], Apply(s, Exec(t));
      && s'.writers[t].order == x.order && s'.writers[t].job == x.job
      && if s'.writers[t].pc.Ended?
         then CommandEnds(x.order, x.job.command, x.job.now, LogAt(s, x.order), LogAt(s', x.order), s'.writers[t].pc.outcome)
         else LogAt(s', x.order) == LogAt(s, x.order)
  {
    var x := s.writers[t];
    ReachableWriter(s, t);
    ExecFrame(s, t);
    if x.pc.Committing? {
    } else {
      StatementSame(s, x);
      if x.pc == Loading {
        ReachableInv(s);
        LoadEnds(s, x);
      }
    }
  }

  // ---- a command that goes through has read its log ----

  predicate ReadableLog(history: seq<Event>) {
    history != [] && history[0].OrderPlaced? && history[0].total.minor >= 0
  }

  ghost predicate SaversHaveRead(s: State) {
    forall t | t in s.writers :: HasRead(s.writers[t], LogAt(s, s.writers[t].order))
  }

  predicate HasRead(x: Writer, history: seq<Event>) {
    x.job.Commanding? && x.Saving() ==> ReadableLog(history)
  }

  lemma LoadHasRead(s: State, x: Writer)
    requires x.job.Commanding? && x.pc == Loading
    requires x.order in s.log ==> GoodLog(x.order, s.log[x.order]) && Validated(s.log[x.order][0])
    ensures var x' := LoadStatement(s, x);
      (x'.pc.Ended? ==> x'.pc == Ended(NoChange) || x'.pc.outcome.Refused?)
      && (!x'.pc.Ended? || x'.pc == Ended(NoChange) ==> ReadableLog(LogAt(s, x.order)))
  {
    DecidesUnlessHopeless(s, x);
  }

  lemma StatementHasRead(s: State, t: TxnId)
    requires Inv(s) && SaversHaveRead(s) && Enabled(s, Exec(t)) && !s.writers[t].pc.Committing?
    ensures HasRead(Statement(s, s.writers[t]), LogAt(s, s.writers[t].order))
  {
    var x := s.writers[t];
    assert HasRead(x, LogAt(s, x.order)) && Progress(x, |LogAt(s, x.order)|);
    if x.pc == Loading { LoadHasRead(s, x); } else { StatementSame(s, x); }
  }

  lemma LocalHasRead(s: State, t: TxnId, x: Writer, nextId: nat)
    requires SaversHaveRead(s) && HasRead(x, LogAt(s, x.order))
    ensures SaversHaveRead(With(s, t, x, nextId))
  {
    var s' := With(s, t, x, nextId);
    forall u | u in s'.writers ensures HasRead(s'.writers[u], LogAt(s', s'.writers[u].order)) {
      if u != t { assert HasRead(s.writers[u], LogAt(s, s.writers[u].order)); }
    }
  }

  lemma CommitHasRead(s: State, t: TxnId, x: Writer)
    requires SaversHaveRead(s) && t in s.writers && x == s.writers[t] && |x.ids| == |x.changes|
    ensures SaversHaveRead(Stored(s, x).(writers := s.writers[t := Finish(x, Saved)]))
  {
    var s' := Stored(s, x).(writers := s.writers[t := Finish(x, Saved)]);
    forall u | u in s'.writers ensures HasRead(s'.writers[u], LogAt(s', s'.writers[u].order)) {
      if u != t { assert HasRead(s.writers[u], LogAt(s, s.writers[u].order)); }
    }
  }

  lemma StepHasRead(s: State, step: Step)
    requires Inv(s) && SaversHaveRead(s) && Enabled(s, step)
    ensures SaversHaveRead(Apply(s, step))
  {
    match step
    case Start(t, o, job) => LocalHasRead(s, t, NewWriter(o, job), s.nextId);
    case Abort(t) => LocalHasRead(s, t, Finish(s.writers[t], Broken), s.nextId);
    case Exec(t) =>
      var x := s.writers[t];
      if x.pc.Committing? {
        CommitKeeps(s, t);
        CommitHasRead(s, t, x);
      } else {
        StatementHasRead(s, t);
        StatementSame(s, x);
        LocalHasRead(s, t, Statement(s, x), CounterAfter(s, x));
      }
  }

  lemma {:induction false} RunHasRead(s: State, steps: seq<Step>, s': State)
    requires Inv(s) && SaversHaveRead(s) && Run(s, steps, s')
    ensures Inv(s') && SaversHaveRead(s')
    decreases |steps|
  {
    if steps != [] {
      StepKeeps(s, steps[0]);
      StepHasRead(s, steps[0]);
      RunHasRead(Apply(s, steps[0]), steps[1..], s');
    }
  }

  /** A confirm or cancel that succeeds, now or by finding its goal reached, has an order that can be read. */
  lemma SuccessHasRead(s: State, t: TxnId)
    requires Reachable(s) && Enabled(s, Exec(t)) && s.writers[t].job.Commanding?
    ensures t in Apply(s, Exec(t)).writers
    ensures Apply(s, Exec(t)).writers[t].pc in {Ended(Saved), Ended(NoChange)} ==> ReadableLog(LogAt(s, s.writers[t].order))
  {
    var steps :| Run(INITIAL, steps, s);
    RunHasRead(INITIAL, steps, s);
    var x := s.writers[t];
    assert HasRead(x, LogAt(s, x.order));
    ReachableWriter(s, t);
    ExecFrame(s, t);
    if x.pc == Loading {
      LoadHasRead(s, x);
    }
  }
}
